/** Which executions begin and end: every one that begins is recorded as it is, and
    only the event that ends it ends it. */
module SchedStarts {
  import opened Wrappers
  import opened FredState
  import opened SchedInv
  import opened SchedEvents
  import opened SchedMoves
  import opened SchedNotices

  /** The request that begins to execute with a move. */
  function Starter(s: State, m: Move): Option<nat>
    requires Shape(s)
  {
    match m
    case Serve => if |s.fri| > 0 && s.reqs[s.fri[0]].skip then Some(s.fri[0]) else None
    case Finish => s.devcfg
    case _ => None
  }

  predicate Pushes(m: Move, r: nat) {
    (m.Enqueue? || m.Admit?) && m.req == r
  }

  lemma MoveStarts(s: State, m: Move)
    requires Shape(s) && s.lay.Valid() && CanMove(s, m)
    ensures var q := Starter(s, m);
      && (q.None? ==> Do(s, m).hist.starts == s.hist.starts)
      && (q.Some? ==> q.value < |s.reqs| && exists e: Start ::
            e.req == q.value && e.wanted == s.reqs[q.value].task && IsReal(Do(s, m), e)
            && Do(s, m).hist.starts == s.hist.starts + [e])
  {
    var q := Starter(s, m);
    if q.Some? {
      var starts := Do(s, m).hist.starts;
      assert starts == s.hist.starts + [starts[|s.hist.starts|]];
      assert IsReal(Do(s, m), starts[|s.hist.starts|]);
    }
  }

  /** An execution is recorded as it is: its slot executes its request, configured as
      it says, and the request wants what it says. */
  predicate IsReal(s: State, e: Start) {
    && e.slot < |s.slots| && s.slots[e.slot].state == Exec && s.slots[e.slot].execReq == Some(e.req)
    && s.slots[e.slot].hwTask == e.configured && e.req < |s.reqs| && s.reqs[e.req].task == e.wanted
  }

  lemma MoveTasks(s: State, m: Move, r: nat)
    requires Shape(s) && s.lay.Valid() && CanMove(s, m) && r < |s.reqs|
    ensures |Do(s, m).reqs| == |s.reqs|
    ensures Do(s, m).reqs[r].task == if Pushes(m, r) then Some(m.task) else s.reqs[r].task
  {
  }

  /** Only the request that a move starts begins to execute; only its release ends
      an execution. */
  lemma MoveSlot(s: State, m: Move, i: nat)
    requires Shape(s) && s.lay.Valid() && FriOwns(s) && PortOwns(s) && CanMove(s, m) && i < |s.slots|
    ensures |Do(s, m).slots| == |s.slots|
    ensures Do(s, m).slots[i].state == Exec ==>
              Do(s, m).slots[i] == s.slots[i] || Do(s, m).slots[i].execReq == Starter(s, m)
    ensures s.slots[i].state == Exec && !(m.Free? && m.slot == i) ==> Do(s, m).slots[i] == s.slots[i]
  {
  }

  lemma StarterIsBound(s: State, m: Move, r: nat)
    requires Shape(s) && s.lay.Valid() && FriOwns(s) && PortOwns(s) && CanMove(s, m) && Starter(s, m) == Some(r)
    ensures PartOf(s, r) >= 0
  {
  }

  lemma MoveSize(s: State, m: Move)
    requires Shape(s) && s.lay.Valid() && CanMove(s, m)
    ensures |Do(s, m).slots| == |s.slots|
  {
  }

  lemma MoveExecutes(s: State, m: Move, r: nat)
    requires Core(s) && CanMove(s, m)
    ensures Executing(Do(s, m), r) ==> Executing(s, r) || Starter(s, m) == Some(r)
    ensures Starter(s, m) == Some(r) ==> PartOf(s, r) >= 0
  {
    MoveSize(s, m);
    if i: nat :| i < |Do(s, m).slots| && Do(s, m).slots[i].state == Exec && Do(s, m).slots[i].execReq == Some(r) {
      MoveSlot(s, m, i);
    }
    if Starter(s, m) == Some(r) {
      StarterIsBound(s, m, r);
    }
  }

  /** The move does not release a slot that executes `r`. */
  predicate Spares(s: State, m: Move, r: nat) {
    m.Free? && m.slot < |s.slots| ==> s.slots[m.slot].execReq != Some(r)
  }

  lemma MoveStays(s: State, m: Move, r: nat)
    requires Core(s) && CanMove(s, m) && Spares(s, m, r)
    ensures Executing(s, r) ==> Executing(Do(s, m), r)
  {
    if i: nat :| i < |s.slots| && s.slots[i].state == Exec && s.slots[i].execReq == Some(r) {
      MoveSlot(s, m, i);
    }
  }

  predicate IsStart(e: Start, r: nat, t: nat) {
    e.req == r && e.wanted == Some(t)
  }

  /** Since `s0` an execution of hw-task `t` for `r` has begun. */
  ghost predicate Began(s0: State, s: State, r: nat, t: nat) {
    exists k :: |s0.hist.starts| <= k < |s.hist.starts| && IsStart(s.hist.starts[k], r, t)
  }

  lemma BeganStays(s0: State, s: State, s': State, r: nat, t: nat)
    requires Began(s0, s, r, t) && s.hist.starts <= s'.hist.starts
    ensures Began(s0, s', r, t)
  {
    var k :| |s0.hist.starts| <= k < |s.hist.starts| && IsStart(s.hist.starts[k], r, t);
    assert s'.hist.starts[k] == s.hist.starts[k];
  }

  /** If `r` executes, it did in `s0`, or its execution has begun since, for the
      hw-task it is bound to. */
  ghost predicate BegunSince(s0: State, s: State, r: nat) {
    && |s0.hist.starts| <= |s.hist.starts|
    && (Executing(s, r) ==>
          Executing(s0, r) || (r < |s.reqs| && s.reqs[r].task.Some? && Began(s0, s, r, s.reqs[r].task.value)))
  }

  /** A move that pushes it finds it not executing. */
  lemma PushedIsNotExecuting(s: State, m: Move, r: nat)
    requires Shape(s) && s.lay.Valid() && CanMove(s, m) && Pushes(m, r)
    ensures !Executing(s, r)
  {
    NowhereIsNotLive(s, r);
  }

  lemma MoveBegins(s0: State, s: State, m: Move, r: nat)
    requires Core(s) && CanMove(s, m) && BegunSince(s0, s, r)
    ensures BegunSince(s0, Do(s, m), r)
  {
    var s' := Do(s, m);
    MoveExecutes(s, m, r);
    MoveStarts(s, m);
    if Executing(s', r) && r < |s.reqs| {
      MoveTasks(s, m, r);
      if Pushes(m, r) {
        PushedIsNotExecuting(s, m, r);
      } else if Executing(s, r) && !Executing(s0, r) {
        BeganStays(s0, s, s', r, s.reqs[r].task.value);
      } else if Starter(s, m) == Some(r) {
        assert IsStart(s'.hist.starts[|s.hist.starts|], r, s.reqs[r].task.value);
      }
    }
  }

  lemma {:induction false} PathBegins(s0: State, s: State, ms: seq<Move>, s': State, r: nat)
    requires Core(s) && Path(s, ms, s') && BegunSince(s0, s, r)
    ensures BegunSince(s0, s', r)
    decreases |ms|
  {
    if ms != [] {
      MoveKeeps(s, ms[0]);
      MoveBegins(s0, s, ms[0], r);
      PathBegins(s0, Do(s, ms[0]), ms[1..], s', r);
    }
  }

  lemma StepBegins(s: State, e: Event, r: nat)
    requires SchedEvents.Inv(s) && Enabled(s, e)
    ensures BegunSince(s, SchedEvents.Step(s, e), r)
  {
    var ms := StepPath(s, e);
    PathBegins(s, s, ms, SchedEvents.Step(s, e), r);
  }

  /** Only its end ends an execution. */
  lemma StaysExecuting(s: State, e: Event, r: nat)
    requires SchedEvents.Inv(s) && Enabled(s, e) && !EndsIt(s, e, r)
    ensures Executing(s, r) ==> Executing(SchedEvents.Step(s, e), r)
  {
    HandlerReady(s, e);
    var ms := StepPath(s, e);
    PathStays(s, ms, SchedEvents.Step(s, e), r);
  }

  lemma {:induction false} PathStays(s: State, ms: seq<Move>, s': State, r: nat)
    requires Core(s) && Path(s, ms, s') && GoesOn(ms, 1) && (ms != [] ==> Spares(s, ms[0], r))
    ensures Executing(s, r) ==> Executing(s', r)
    decreases |ms|
  {
    if ms != [] {
      MoveKeeps(s, ms[0]);
      MoveStays(s, ms[0], r);
      PathStays(Do(s, ms[0]), ms[1..], s', r);
    }
  }

  // -------------------------------------------------------------- the record

  /** The executions recorded since `s0` are all under way in `s`. */
  ghost predicate AllReal(s0: State, s: State) {
    && s0.hist.starts <= s.hist.starts
    && forall k | |s0.hist.starts| <= k < |s.hist.starts| :: IsReal(s, s.hist.starts[k])
  }

  lemma RealStays(s: State, m: Move, e: Start)
    requires Core(s) && CanMove(s, m) && IsReal(s, e) && (m.Serve? || m.Advance?)
    ensures IsReal(Do(s, m), e)
  {
    MoveSlot(s, m, e.slot);
    MoveTasks(s, m, e.req);
  }

  lemma MoveReal(s0: State, s: State, m: Move)
    requires Core(s) && CanMove(s, m) && AllReal(s0, s)
    requires m.Serve? || m.Advance? || s.hist.starts == s0.hist.starts
    ensures AllReal(s0, Do(s, m))
  {
    MoveStarts(s, m);
    forall k | |s0.hist.starts| <= k < |s.hist.starts| ensures IsReal(Do(s, m), s.hist.starts[k]) {
      RealStays(s, m, s.hist.starts[k]);
    }
  }

  lemma KeepReal(s0: State, s: State, m: Move)
    requires Core(s) && CanMove(s, m) && AllReal(s0, s)
    requires m.Serve? || m.Advance? || s.hist.starts == s0.hist.starts
    ensures Core(Do(s, m)) && AllReal(s0, Do(s, m))
  {
    MoveKeeps(s, m);
    MoveReal(s0, s, m);
  }

  lemma {:induction false} PathReal(s0: State, s: State, ms: seq<Move>, s': State)
    requires Core(s) && Path(s, ms, s') && AllReal(s0, s)
    requires GoesOn(ms, if s.hist.starts == s0.hist.starts then 1 else 0)
    ensures AllReal(s0, s')
    decreases |ms|
  {
    if ms != [] {
      KeepReal(s0, s, ms[0]);
      PathReal(s0, Do(s, ms[0]), ms[1..], s');
    }
  }

  /** Every execution an event records has begun and is under way after it, on the
      slot, for the request and with the configuration recorded. */
  lemma StepStarts(s: State, e: Event)
    requires Inv(s) && Enabled(s, e)
    ensures var s' := Step(s, e);
      && s.hist.starts <= s'.hist.starts
      && forall k | |s.hist.starts| <= k < |s'.hist.starts| :: IsReal(s', s'.hist.starts[k])
  {
    var ms := StepPath(s, e);
    PathReal(s, s, ms, Step(s, e));
  }
}
