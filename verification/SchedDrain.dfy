/** Progress: hardware events alone bring every live request to its notice,
    within two events per request, and they never run dry before that. */
module SchedDrain {
  import opened Wrappers
  import opened FredState
  import opened SchedInv
  import opened SchedEvents
  import Runs
  import opened SchedMoves

  // -------------------------------------------------------------- measures

  function SumLen(qs: seq<seq<nat>>): nat {
    if qs == [] then 0 else |qs[0]| + SumLen(qs[1..])
  }

  function NumExec(slots: seq<SlotV>): nat {
    if slots == [] then 0 else (if slots[0].state == Exec then 1 else 0) + NumExec(slots[1..])
  }

  /** The number of requests held by a queue, the port or a slot. */
  function LiveCount(s: State): nat {
    SumLen(s.parts) + |s.fri| + (if s.devcfg.Some? then 1 else 0) + NumExec(s.slots)
  }

  /** Hardware events still needed: two for a request that is yet to be
      programmed, one for a request in execution. */
  function Pending(s: State): nat {
    2 * SumLen(s.parts) + 2 * |s.fri| + (if s.devcfg.Some? then 2 else 0) + NumExec(s.slots)
  }

  lemma {:induction false} SumLenUpdate(qs: seq<seq<nat>>, p: nat, q: seq<nat>)
    requires p < |qs|
    ensures SumLen(qs[p := q]) == SumLen(qs) - |qs[p]| + |q|
  {
    if p > 0 {
      SumLenUpdate(qs[1..], p - 1, q);
      assert qs[p := q][1..] == qs[1..][p - 1 := q];
    }
  }

  lemma {:induction false} NumExecUpdate(slots: seq<SlotV>, i: nat, v: SlotV)
    requires i < |slots|
    ensures NumExec(slots[i := v])
            == NumExec(slots) - (if slots[i].state == Exec then 1 else 0) + (if v.state == Exec then 1 else 0)
  {
    if i > 0 {
      NumExecUpdate(slots[1..], i - 1, v);
      assert slots[i := v][1..] == slots[1..][i - 1 := v];
    }
  }

  lemma {:induction false} SomeWaiting(qs: seq<seq<nat>>) returns (p: nat)
    requires SumLen(qs) > 0
    ensures p < |qs| && |qs[p]| > 0
  {
    if |qs[0]| > 0 {
      p := 0;
    } else {
      p := SomeWaiting(qs[1..]);
      p := p + 1;
    }
  }

  lemma {:induction false} SomeExec(slots: seq<SlotV>) returns (i: nat)
    requires NumExec(slots) > 0
    ensures i < |slots| && slots[i].state == Exec
  {
    if slots[0].state == Exec {
      i := 0;
    } else {
      i := SomeExec(slots[1..]);
      i := i + 1;
    }
  }

  lemma {:induction false} ExecCounted(slots: seq<SlotV>, i: nat)
    requires i < |slots| && slots[i].state == Exec
    ensures NumExec(slots) > 0
  {
    if i > 0 { ExecCounted(slots[1..], i - 1); }
  }

  lemma {:induction false} WaitingCounted(qs: seq<seq<nat>>, p: nat)
    requires p < |qs|
    ensures SumLen(qs) >= |qs[p]|
  {
    if p > 0 { WaitingCounted(qs[1..], p - 1); }
  }

  lemma LiveIsCounted(s: State, r: nat)
    requires !Nowhere(s, r)
    ensures LiveCount(s) > 0
  {
    if i :| 0 <= i < |s.slots| && s.slots[i].state == Exec && s.slots[i].execReq == Some(r) {
      ExecCounted(s.slots, i);
    } else if p, k :| 0 <= p < |s.parts| && 0 <= k < |s.parts[p]| && s.parts[p][k] == r {
      WaitingCounted(s.parts, p);
    }
  }

  lemma CountedIsLive(s: State) returns (r: nat)
    requires Core(s) && LiveCount(s) > 0
    ensures r < |s.reqs| && !Nowhere(s, r)
  {
    if |s.fri| > 0 {
      r := s.fri[0];
    } else if s.devcfg.Some? {
      r := s.devcfg.value;
    } else if NumExec(s.slots) > 0 {
      var i := SomeExec(s.slots);
      r := s.slots[i].execReq.value;
    } else {
      var p := SomeWaiting(s.parts);
      r := s.parts[p][0];
    }
  }

  /** No request is counted exactly when none is anywhere. */
  lemma EmptyIffNowhere(s: State)
    requires Core(s)
    ensures LiveCount(s) == 0 <==> forall r: nat | r < |s.reqs| :: Nowhere(s, r)
  {
    if r: nat :| r < |s.reqs| && !Nowhere(s, r) {
      LiveIsCounted(s, r);
    } else if LiveCount(s) > 0 {
      var r := CountedIsLive(s);
    }
  }

  // ------------------------------------------------------------------ moves

  lemma GrantCounts(s: State, r: nat, i: nat, skip: bool)
    requires Shape(s) && Nowhere(s, r) && MayGrant(s, r, i, skip)
    ensures LiveCount(Grant(s, r, i, skip)) == LiveCount(s) + 1
    ensures Pending(Grant(s, r, i, skip)) == Pending(s) + 2
  {
    var n := IsGranted(s, r, i, skip);
    NumExecUpdate(s.slots, i, s.slots[i].To(Rsrv));
  }

  lemma ServeCounts(s: State)
    requires Shape(s) && FriOwns(s) && s.devcfg.None? && |s.fri| > 0
    ensures LiveCount(ServeHead(s)) == LiveCount(s)
    ensures Pending(ServeHead(s)) == Pending(s) - (if s.reqs[s.fri[0]].skip then 1 else 0)
  {
    var i := s.reqs[s.fri[0]].slot.value;
    NumExecUpdate(s.slots, i, ServeHead(s).slots[i]);
  }

  lemma FinishCounts(s: State)
    requires Shape(s) && PortOwns(s) && s.devcfg.Some?
    ensures LiveCount(Finished(s)) == LiveCount(s) && Pending(Finished(s)) == Pending(s) - 1
  {
    var i := s.reqs[s.devcfg.value].slot.value;
    var s1 := Programmed(s);
    NumExecUpdate(s.slots, i, s1.slots[i]);
    NumExecUpdate(s1.slots, i, Finished(s).slots[i]);
  }

  lemma FreeCounts(s: State, i: nat, msg: Message)
    requires Shape(s) && i < |s.slots| && s.slots[i].state == Exec && s.slots[i].execReq.Some?
    ensures LiveCount(Release(s, i, msg)) == LiveCount(s) - 1 && Pending(Release(s, i, msg)) == Pending(s) - 1
  {
    NumExecUpdate(s.slots, i, Release(s, i, msg).slots[i]);
  }

  lemma AdvanceCounts(s: State, i: nat)
    requires Shape(s) && s.lay.Valid() && QueuesOwn(s) && ExecOwns(s) && CanMove(s, Advance(i))
    ensures LiveCount(Do(s, Advance(i))) == LiveCount(s) && Pending(Do(s, Advance(i))) == Pending(s)
  {
    var p := s.lay.slotPart[i];
    DequeueNowhere(s, p);
    SumLenUpdate(s.parts, p, s.parts[p][1..]);
    GrantCounts(Dequeue(s, p), s.parts[p][0], i, false);
  }

  /** Pushes minus notices is the number of live requests. */
  ghost predicate Counted(s: State) {
    |s.hist.arrivals| == |s.hist.notices| + LiveCount(s)
  }

  lemma EnqueueCounts(s: State, r: nat, task: nat, now: int)
    requires Shape(s) && s.lay.Valid() && CanMove(s, Enqueue(r, task, now)) && Counted(s)
    ensures Counted(Do(s, Enqueue(r, task, now)))
  {
    var p := s.lay.taskPart[task];
    SumLenUpdate(s.parts, p, s.parts[p] + [r]);
  }

  lemma AdmitCounts(s: State, r: nat, task: nat, now: int, i: nat, skip: bool)
    requires Shape(s) && r < |s.reqs| && Nowhere(s, r) && Counted(s)
    requires var s1 := Arrived(s, r, task, now); Nowhere(s1, r) && MayGrant(s1, r, i, skip)
    ensures Counted(Grant(Arrived(s, r, task, now), r, i, skip))
  {
    GrantCounts(Arrived(s, r, task, now), r, i, skip);
  }

  lemma MoveCounts(s: State, m: Move)
    requires Core(s) && CanMove(s, m) && Counted(s)
    ensures Counted(Do(s, m))
  {
    match m
    case Enqueue(r, task, now) => EnqueueCounts(s, r, task, now);
    case Admit(r, task, now, i, skip) =>
      AdmitReady(s, r, task, now, i, skip);
      AdmitCounts(s, r, task, now, i, skip);
    case Advance(i) => AdvanceCounts(s, i);
    case Serve => ServeCounts(s);
    case Finish => FinishCounts(s);
    case Free(i, msg) => FreeCounts(s, i, msg);
  }

  // ----------------------------------------------------------------- events

  predicate Hardware(e: Event) {
    !e.Push?
  }

  lemma {:induction false} DrainCounts(s: State)
    requires Core(s)
    ensures Pending(Drain(s)) <= Pending(s) && LiveCount(Drain(s)) == LiveCount(s)
    decreases |s.fri|
  {
    if s.devcfg.None? && |s.fri| > 0 {
      ServeCounts(s);
      ServeKeeps(s);
      DrainCounts(ServeHead(s));
    }
  }

  /** What a slot's end leads to, after the slot is released. */
  lemma PullCounts(s: State, i: nat, done: nat)
    requires Core(s) && i < |s.slots| && s.slots[i].Available() && s.lay.slotPart[i] == PartOf(s, done)
    requires Placed(s, done) && SlotOf(s, done) == i && (s.devcfg.None? ==> s.fri == [])
    ensures Pending(Pull(s, done)) <= Pending(s) && LiveCount(Pull(s, done)) == LiveCount(s)
  {
    PullAdvances(s, i, done);
    if |s.parts[s.lay.slotPart[i]]| > 0 {
      AdvanceCounts(s, i);
      MoveKeeps(s, Advance(i));
      DrainCounts(Do(s, Advance(i)));
    }
  }

  lemma SlotEndCounts(s: State, i: nat, msg: Message)
    requires Inv(s) && i < |s.slots| && s.slots[i].state == Exec
    ensures s.slots[i].execReq.Some? && Placed(s, s.slots[i].execReq.value)
    ensures Pending(SlotEnd(s, i, msg)) < Pending(s) && LiveCount(SlotEnd(s, i, msg)) == LiveCount(s) - 1
  {
    HandlerReady(s, SlotDone(i));
    FreeCounts(s, i, msg);
    ReleaseKeeps(s, i, msg);
    PullCounts(Release(s, i, msg), i, s.slots[i].execReq.value);
  }

  /** Every hardware event brings the system closer to rest. */
  lemma EventCounts(s: State, e: Event)
    requires Inv(s) && Enabled(s, e) && Hardware(e)
    ensures Pending(Step(s, e)) < Pending(s) <= 2 * LiveCount(s)
  {
    HandlerReady(s, e);
    match e
    case ProgramDone =>
      FinishCounts(s);
      ProgrammedKeeps(s);
      DrainCounts(Finished(s));
    case SlotDone(i) => SlotEndCounts(s, i, Done);
    case SlotTimeout(i) => SlotEndCounts(s, i, Overrun);
  }

  /** While a request is live some hardware event can happen. */
  lemma NeverStuck(s: State) returns (e: Event)
    requires Inv(s) && s.lay.Served() && LiveCount(s) > 0
    ensures Hardware(e) && Enabled(s, e)
  {
    if s.devcfg.Some? {
      e := ProgramDone;
    } else if NumExec(s.slots) > 0 {
      var i := SomeExec(s.slots);
      e := SlotDone(i);
    } else {
      var p := SomeWaiting(s.parts);
      StarvedSlot(s, p);
      assert false;
    }
  }

  /** A partition with waiting requests, an idle port and no execution would
      have a slot in no state at all. */
  lemma StarvedSlot(s: State, p: nat)
    requires Inv(s) && s.lay.Served() && s.devcfg.None? && p < |s.parts| && |s.parts[p]| > 0
    ensures NumExec(s.slots) > 0
  {
    var r := s.parts[p][0];
    assert PartOf(s, r) == p;
    var i := s.lay.partSlots[p][0];
    assert s.lay.slotPart[i] == p;
    assert !Owned(s, i);
    assert s.slots[i].state == Exec;
    ExecCounted(s.slots, i);
  }

  ghost predicate Within(s: State, es: seq<Event>, s1: State) {
    (forall k | 0 <= k < |es| :: Hardware(es[k])) ==> |es| + Pending(s1) <= Pending(s)
  }

  lemma StepWithin(s: State, es: seq<Event>, s1: State, e: Event)
    requires Within(s, es, s1) && Inv(s1) && Enabled(s1, e)
    ensures Within(s, es + [e], Step(s1, e))
  {
    if forall k | 0 <= k < |es + [e]| :: Hardware((es + [e])[k]) {
      assert Hardware((es + [e])[|es|]);
      assert forall k | 0 <= k < |es| :: es[k] == (es + [e])[k];
      EventCounts(s1, e);
    }
  }

  ghost function WithinFrom(s: State): (seq<Event>, State) -> bool {
    (es: seq<Event>, s1: State) => Within(s, es, s1)
  }

  lemma WithinFollows(s: State)
    ensures Runs.Follows(s, Takes(), WithinFrom(s))
  {
    var p := WithinFrom(s);
    forall es: seq<Event>, s1: State, e: Event, s2: State | Takes()(s1, e, s2) && p(es, s1) ensures p(es + [e], s2) {
      StepWithin(s, es, s1, e);
    }
  }

  /** Hardware events alone number at most two for each live request. */
  lemma DrainBound(s: State, es: seq<Event>, s': State)
    requires RunTo(s, es, s') && (forall k | 0 <= k < |es| :: Hardware(es[k]))
    ensures |es| + Pending(s') <= Pending(s) <= 2 * LiveCount(s)
  {
    WithinFollows(s);
    assert WithinFrom(s)(es, s');
  }
}
