/** When reconfiguration is skipped: exactly when the search at the request's
    arrival found an idle slot configured with its hw-task, and not whenever the
    slot it is served on happens to be so configured. */
module SchedSkips {
  import opened Wrappers
  import opened FredState
  import opened SchedInv
  import opened SchedEvents
  import opened SchedMoves
  import S = SchedulerFred
  import D = SchedDiagram
  import Runs

  /** The last push of `r` was answered with a slot to be used as it is. */
  function Skipped(es: seq<Event>, r: nat): bool {
    if es == [] then false else SkippedBy(Skipped(es[..|es| - 1], r), es[|es| - 1], r)
  }

  function SkippedBy(before: bool, e: Event, r: nat): bool {
    if e.Push? && e.req == r then e.pick.Some? && e.pick.value.skip else before
  }

  lemma SkippedOn(es: seq<Event>, e: Event, r: nat)
    ensures Skipped(es + [e], r) == SkippedBy(Skipped(es, r), e, r)
  {
    assert (es + [e])[..|es|] == es;
  }

  // ------------------------------------------------------------------ moves

  function SkippedMove(before: bool, m: Move, r: nat): bool {
    match m
    case Enqueue(q, _, _) => q != r && before
    case Admit(q, _, _, _, skip) => if q == r then skip else before
    case _ => before
  }

  /** The state slot `v` was in before it began to execute. */
  predicate Came(v: SlotV, st: SlotState) {
    |v.path| >= 2 && v.path[|v.path| - 2] == st
  }

  /** How a live request `r` shows that its reconfiguration is skipped, or not:
      queued, by its flag; executing, by its slot's past; and never at the port or
      in a partition queue if it is. */
  ghost predicate Shows(s: State, r: nat, skipped: bool) {
    && (r in s.fri && r < |s.reqs| ==> s.reqs[r].skip == skipped)
    && (s.devcfg == Some(r) || Waiting(s, r) ==> !skipped)
    && (forall i | 0 <= i < |s.slots| && s.slots[i].state == Exec && s.slots[i].execReq == Some(r) ::
          Came(s.slots[i], if skipped then Rsrv else FredState.Ready))
  }

  lemma NowhereShows(s: State, r: nat, skipped: bool)
    requires Nowhere(s, r)
    ensures Shows(s, r, skipped)
  {
  }

  /** A grant puts the request into the queue, with its flag. */
  lemma GrantShows(s: State, q: nat, i: nat, skip: bool, r: nat, before: bool)
    requires Shape(s) && Nowhere(s, q) && MayGrant(s, q, i, skip) && !s.reqs[q].skip && Shows(s, r, before)
    ensures Shows(Grant(s, q, i, skip), r, if q == r then skip else before)
  {
    var s' := Grant(s, q, i, skip);
    var n := IsGranted(s, q, i, skip);
    if q != r {
      forall k | 0 <= k < |s'.fri| && s'.fri[k] == r ensures r in s.fri && s'.reqs[r] == s.reqs[r] {
        assert s.fri[Back(n, k)] == r;
      }
    }
  }

  lemma EnqueueShows(s: State, m: Move, r: nat, before: bool)
    requires Shape(s) && s.lay.Valid() && CanMove(s, m) && m.Enqueue? && Shows(s, r, before)
    ensures Shows(Do(s, m), r, SkippedMove(before, m, r))
  {
    var s' := Do(s, m);
    if m.req != r && Waiting(s', r) {
      var p :| 0 <= p < |s'.parts| && r in s'.parts[p];
      assert r in s.parts[p];
    }
  }

  lemma ArrivedShows(s: State, q: nat, task: nat, now: int, r: nat, before: bool)
    requires Shape(s) && q < |s.reqs| && Nowhere(s, q) && Shows(s, r, before)
    ensures Shows(Arrived(s, q, task, now), r, before)
  {
    var s1 := Arrived(s, q, task, now);
    assert s1.parts == s.parts && s1.fri == s.fri && s1.slots == s.slots && s1.devcfg == s.devcfg;
    if q == r {
      NowhereShows(s1, r, before);
    } else {
      assert Waiting(s1, r) ==> Waiting(s, r);
    }
  }

  lemma AdmitShows(s: State, m: Move, r: nat, before: bool)
    requires Core(s) && CanMove(s, m) && m.Admit? && Shows(s, r, before)
    ensures Shows(Do(s, m), r, SkippedMove(before, m, r))
  {
    AdmitReady(s, m.req, m.task, m.now, m.slot, m.skip);
    ArrivedShows(s, m.req, m.task, m.now, r, before);
    GrantShows(Arrived(s, m.req, m.task, m.now), m.req, m.slot, m.skip, r, before);
  }

  lemma AdvanceShows(s: State, m: Move, r: nat, before: bool)
    requires Core(s) && CanMove(s, m) && m.Advance? && Shows(s, r, before)
    ensures Shows(Do(s, m), r, before)
  {
    var p := s.lay.slotPart[m.slot];
    var q := s.parts[p][0];
    AdvanceReady(s, m.slot);
    assert q in s.parts[p] && Waiting(s, q);
    DequeueShows(s, p, r, before);
    GrantShows(Dequeue(s, p), q, m.slot, false, r, before);
  }

  lemma DequeueShows(s: State, p: nat, r: nat, before: bool)
    requires p < |s.parts| && |s.parts[p]| > 0 && Shows(s, r, before)
    ensures Shows(Dequeue(s, p), r, before)
  {
    var s1 := Dequeue(s, p);
    if Waiting(s1, r) {
      var x :| 0 <= x < |s1.parts| && r in s1.parts[x];
      assert r in s.parts[x];
    }
  }

  lemma ServeShows(s: State, r: nat, before: bool)
    requires Shape(s) && s.lay.Valid() && FriOwns(s) && SlotsWalk(s) && CanMove(s, Serve) && Shows(s, r, before)
    ensures Shows(Do(s, Serve), r, before)
  {
    var s', q := ServeHead(s), s.fri[0];
    var i := s.reqs[q].slot.value;
    assert q in s.fri;
    if r in s'.fri {
      assert r in s.fri;
    }
    forall j | 0 <= j < |s'.slots| && s'.slots[j].state == Exec && s'.slots[j].execReq == Some(r)
      ensures Came(s'.slots[j], if before then Rsrv else FredState.Ready)
    {
      if j == i {
        assert Walk(s.slots[i]);
      }
    }
  }

  lemma FinishShows(s: State, r: nat, before: bool)
    requires Shape(s) && s.lay.Valid() && CanMove(s, Finish) && Shows(s, r, before)
    ensures Shows(Do(s, Finish), r, before)
  {
  }

  lemma MoveShows(s: State, m: Move, r: nat, before: bool)
    requires Core(s) && CanMove(s, m) && Shows(s, r, before)
    ensures Shows(Do(s, m), r, SkippedMove(before, m, r))
  {
    match m
    case Enqueue(_, _, _) => EnqueueShows(s, m, r, before);
    case Admit(_, _, _, _, _) => AdmitShows(s, m, r, before);
    case Advance(_) => AdvanceShows(s, m, r, before);
    case Serve => ServeShows(s, r, before);
    case Finish => FinishShows(s, r, before);
    case Free(_, _) =>
  }

  lemma KeepShows(s: State, m: Move, r: nat, before: bool)
    requires Core(s) && CanMove(s, m) && Shows(s, r, before)
    ensures Core(Do(s, m)) && Shows(Do(s, m), r, SkippedMove(before, m, r))
  {
    MoveKeeps(s, m);
    MoveShows(s, m, r, before);
  }

  /** Services and advances change nothing of it. */
  lemma {:induction false} PathShows(s: State, ms: seq<Move>, s': State, r: nat, before: bool)
    requires Core(s) && Path(s, ms, s') && GoesOn(ms, 0) && Shows(s, r, before)
    ensures Shows(s', r, before)
    decreases |ms|
  {
    if ms != [] {
      KeepShows(s, ms[0], r, before);
      PathShows(Do(s, ms[0]), ms[1..], s', r, before);
    }
  }

  lemma FirstShows(s: State, ms: seq<Move>, s': State, r: nat, before: bool)
    requires Core(s) && Path(s, ms, s') && |ms| > 0 && GoesOn(ms, 1) && Shows(s, r, before)
    ensures Shows(s', r, SkippedMove(before, ms[0], r))
  {
    KeepShows(s, ms[0], r, before);
    PathShows(Do(s, ms[0]), ms[1..], s', r, SkippedMove(before, ms[0], r));
  }

  lemma StepShows(s: State, e: Event, r: nat, before: bool)
    requires Inv(s) && Enabled(s, e) && Shows(s, r, before)
    ensures Shows(Step(s, e), r, SkippedBy(before, e, r))
  {
    var ms := StepPath(s, e);
    FirstShows(s, ms, Step(s, e), r, before);
  }

  // ------------------------------------------------------------------- runs

  ghost predicate Shown(r: nat, es: seq<Event>, s: State) {
    Inv(s) && Shows(s, r, Skipped(es, r))
  }

  ghost function ShownOf(r: nat): (seq<Event>, State) -> bool {
    (es: seq<Event>, s: State) => Shown(r, es, s)
  }

  lemma StepShown(r: nat, es: seq<Event>, s: State, e: Event)
    requires Shown(r, es, s) && Enabled(s, e)
    ensures Shown(r, es + [e], Step(s, e))
  {
    StepKeeps(s, e);
    StepShows(s, e, r, Skipped(es, r));
    SkippedOn(es, e, r);
  }

  lemma ShownFollows(s: State, r: nat)
    requires Shown(r, [], s)
    ensures Runs.Follows(s, Takes(), ShownOf(r))
  {
    var p := ShownOf(r);
    forall es: seq<Event>, s1: State, e: Event, s2: State | Takes()(s1, e, s2) && p(es, s1) ensures p(es + [e], s2) {
      StepShown(r, es, s1, e);
    }
  }

  lemma RunShows(lay: Layout, clients: nat, now: int, es: seq<Event>, s: State, r: nat)
    requires lay.Valid() && RunTo(Init(lay, clients, now), es, s)
    ensures Inv(s) && Shows(s, r, Skipped(es, r))
  {
    InitKeeps(lay, clients, now);
    ShownFollows(Init(lay, clients, now), r);
    assert ShownOf(r)(es, s);
  }

  // ---------------------------------------------------------------- theorems

  /** In every run from start-up: the slot that executes a request came to it
      straight from its reservation if the last push of that request was answered
      with a slot to be used as it is, and from a reconfiguration otherwise; nothing
      so answered is ever at the port. */
  lemma SkipsIffMatched(lay: Layout, clients: nat, now: int, es: seq<Event>, s: State, i: nat)
    requires lay.Valid() && RunTo(Init(lay, clients, now), es, s) && i < |s.slots| && s.slots[i].state == Exec
    ensures s.slots[i].execReq.Some?
    ensures Came(s.slots[i], Rsrv) <==> Skipped(es, s.slots[i].execReq.value)
    ensures Came(s.slots[i], FredState.Ready) <==> !Skipped(es, s.slots[i].execReq.value)
    ensures s.devcfg.Some? ==> !Skipped(es, s.devcfg.value)
  {
    RunShows(lay, clients, now, es, s, 0);
    RunShows(lay, clients, now, es, s, s.slots[i].execReq.value);
    if s.devcfg.Some? {
      RunShows(lay, clients, now, es, s, s.devcfg.value);
    }
  }

  /** Some slot of the hw-task's partition idles on it. */
  ghost predicate SomeMatch(s: State, task: nat)
    requires |s.lay.slotPart| == |s.slots| && task < |s.lay.taskPart|
  {
    exists i :: 0 <= i < |s.slots| && s.lay.slotPart[i] == s.lay.taskPart[task] && s.slots[i].Matches(task)
  }

  /** And the search answers so exactly if, in normal mode, some slot of the
      partition idles on the hw-task. */
  lemma SearchMatches(s: State, task: nat, at: int, mode: S.Mode)
    requires S.Answer(s, task, at)
    ensures var pick := S.PickOf(s, task, at, mode);
      (pick.Some? && pick.value.skip) <==> mode == S.Normal && SomeMatch(s, task)
  {
    var ps := s.lay.partSlots[s.lay.taskPart[task]];
    if SomeMatch(s, task) {
      var i :| 0 <= i < |s.slots| && s.lay.slotPart[i] == s.lay.taskPart[task] && s.slots[i].Matches(task);
      assert i in ps;
      var j :| 0 <= j < |ps| && ps[j] == i;
      assert s.slots[ps[j]].Available();
    }
  }

  // ------------------------------------------- a slot that idles on the hw-task

  /** The head of a partition queue that is given a free slot is reconfigured, at
      once if the port is idle. */
  lemma PullPrograms(s: State, i: nat, done: nat)
    requires Core(s) && s.fri == [] && s.devcfg.None? && i < |s.slots| && s.slots[i].Available()
    requires Placed(s, done) && SlotOf(s, done) == i && s.lay.slotPart[i] == PartOf(s, done)
    requires |s.parts[s.lay.slotPart[i]]| > 0
    ensures var s', r := Pull(s, done), s.parts[s.lay.slotPart[i]][0];
      && s'.devcfg == Some(r) && SlotOf(s', r) == i < |s'.slots| && s'.slots[i].state == Rcfg
      && r < |s'.reqs| == |s.reqs| && s'.reqs[r].task == s.reqs[r].task
  {
    var p := s.lay.slotPart[i];
    PullAdvances(s, i, done);
    AdvanceReady(s, i);
    AdvanceAlone(Dequeue(s, p), s.parts[p][0], i);
    D.DrainOne(Do(s, Advance(i)));
  }

  lemma PulledIsProgrammed(s: State, i: nat, msg: Message)
    requires Inv(s) && s.devcfg.None? && i < |s.slots| && s.slots[i].state == Exec && |s.parts[s.lay.slotPart[i]]| > 0
    ensures s.slots[i].execReq.Some? && Placed(s, s.slots[i].execReq.value)
    ensures var s', r := SlotEnd(s, i, msg), s.parts[s.lay.slotPart[i]][0];
      && s'.devcfg == Some(r) && SlotOf(s', r) == i < |s'.slots| && s'.slots[i].state == Rcfg
      && r < |s'.reqs| == |s.reqs| && s'.reqs[r].task == s.reqs[r].task
  {
    HandlerReady(s, SlotDone(i));
    ReleaseKeeps(s, i, msg);
    PullPrograms(Release(s, i, msg), i, s.slots[i].execReq.value);
  }

  /** Granted into an empty queue. */
  lemma AdvanceAlone(s: State, r: nat, i: nat)
    requires Shape(s) && s.fri == [] && Nowhere(s, r) && MayGrant(s, r, i, false) && !s.reqs[r].skip
    ensures var s1 := Grant(s, r, i, false);
      s1.fri == [r] && s1.devcfg == s.devcfg && r < |s1.reqs| && !s1.reqs[r].skip && FriDistinct(s1)
  {
  }

  /** The slot is executing request 0 and request 1 waits for it, both for `task`. */
  ghost predicate Crowded(s: State, task: nat, i: nat) {
    && Inv(s) && s.devcfg.None? && i < |s.slots| && s.slots[i].state == Exec && s.slots[i].execReq == Some(0)
    && s.parts[s.lay.slotPart[i]] == [1] && |s.reqs| > 1
    && s.reqs[0].task == Some(task) && s.reqs[1].task == Some(task)
  }

  /** A push for the only slot of a partition, while it executes, queues. */
  lemma SecondPush(s: State, task: nat, i: nat)
    requires Inv(s) && s.devcfg.None? && i < |s.slots| && s.slots[i].state == Exec && s.slots[i].execReq == Some(0)
    requires |s.reqs| > 1 && Nowhere(s, 1) && s.reqs[0].task == Some(task) && task < |s.lay.taskPart|
    requires forall j: nat | j < |s.slots| :: s.lay.slotPart[j] == s.lay.taskPart[task] <==> j == i
    requires s.parts[s.lay.slotPart[i]] == []
    ensures Enabled(s, Push(1, task, s.clock, None)) && Crowded(Step(s, Push(1, task, s.clock, None)), task, i)
  {
    NowhereIsNotLive(s, 1);
    PushMoves(s, 1, task, s.clock, None);
    StepKeeps(s, Push(1, task, s.clock, None));
  }

  /** What the first push and the end of its programming lead to. */
  lemma FirstExecutes(s: State, task: nat, i: nat)
    requires Inv(s) && s.devcfg == Some(0) && s.fri == [] && |s.reqs| > 1 && SlotOf(s, 0) == i < |s.slots|
    requires Nowhere(s, 1) && s.reqs[0].task == Some(task) && forall p | 0 <= p < |s.parts| :: s.parts[p] == []
    ensures Enabled(s, ProgramDone)
    ensures var s1 := Step(s, ProgramDone);
      && s1.devcfg.None? && |s1.slots| == |s.slots| && s1.slots[i].state == Exec && s1.slots[i].execReq == Some(0)
      && s1.reqs == s.reqs && s1.parts == s.parts && s1.lay == s.lay && s1.clock == s.clock && Nowhere(s1, 1)
  {
    D.ThenExecutes(s, i);
  }

  ghost predicate Sole(lay: Layout, task: nat, i: nat) {
    && lay.Valid() && task < |lay.taskPart| && i < |lay.slotPart|
    && forall j: nat | j < |lay.slotPart| :: lay.slotPart[j] == lay.taskPart[task] <==> j == i
  }

  /** The first push of all goes to the port, and touches nothing else. */
  lemma FirstGoesToPort(s: State, task: nat, i: nat)
    requires Inv(s) && s.fri == [] && s.devcfg.None? && |s.reqs| > 1 && Nowhere(s, 0) && Nowhere(s, 1)
    requires task < |s.lay.taskPart| && i < |s.slots| && s.slots[i].state == Blank
    requires s.lay.slotPart[i] == s.lay.taskPart[task]
    requires forall p | 0 <= p < |s.parts| :: s.parts[p] == []
    ensures var e := Push(0, task, s.clock, Some(Pick(i, false)));
      && Enabled(s, e)
      && var s1 := Step(s, e);
         && s1.devcfg == Some(0) && s1.fri == [] && |s1.reqs| == |s.reqs| && SlotOf(s1, 0) == i < |s1.slots|
         && s1.reqs[0].task == Some(task) && s1.parts == s.parts && s1.lay == s.lay && s1.clock == s.clock
         && |s1.slots| == |s.slots| && Nowhere(s1, 1)
  {
    D.FirstPush(s, task, i);
    PushMoves(s, 0, task, s.clock, Some(Pick(i, false)));
    D.FirstGrant(s, task, i);
    D.DrainOne(Grant(Arrived(s, 0, task, s.clock), 0, i, false));
  }

  /** In a layout where one slot alone serves a hw-task: two requests for it, one
      executing, the other waiting. */
  lemma CrowdStates(lay: Layout, clients: nat, now: int, task: nat, i: nat)
    returns (s0: State, s1: State, s2: State, s3: State)
    requires Sole(lay, task, i) && clients >= 2
    ensures s0 == Init(lay, clients, now) && s0.clock == s2.clock == now && Inv(s0)
    ensures var e := Push(0, task, now, Some(Pick(i, false))); Enabled(s0, e) && s1 == Step(s0, e) && Inv(s1)
    ensures Enabled(s1, ProgramDone) && s2 == Step(s1, ProgramDone) && Inv(s2)
    ensures Enabled(s2, Push(1, task, now, None)) && s3 == Step(s2, Push(1, task, now, None))
    ensures Crowded(s3, task, i)
  {
    s0 := Init(lay, clients, now);
    InitKeeps(lay, clients, now);
    FirstGoesToPort(s0, task, i);
    s1 := Step(s0, Push(0, task, now, Some(Pick(i, false))));
    StepKeeps(s0, Push(0, task, now, Some(Pick(i, false))));
    FirstExecutes(s1, task, i);
    s2 := Step(s1, ProgramDone);
    StepKeeps(s1, ProgramDone);
    SecondPush(s2, task, i);
    s3 := Step(s2, Push(1, task, now, None));
  }

  /** When the slot is then freed it idles on the hw-task the waiting request asks
      for, and is reconfigured for it all the same. */
  lemma IdleIsReprogrammed(lay: Layout, clients: nat, now: int, task: nat, i: nat)
    returns (es: seq<Event>, s: State, s': State)
    requires Sole(lay, task, i) && clients >= 2
    ensures RunTo(Init(lay, clients, now), es, s) && Inv(s) && Enabled(s, SlotDone(i)) && s' == Step(s, SlotDone(i))
    ensures Release(s, i, Done).slots[i].Matches(task) && |s.reqs| > 1 && s.reqs[1].task == Some(task)
    ensures s'.devcfg == Some(1) && SlotOf(s', 1) == i < |s'.slots| && s'.slots[i].state == Rcfg
  {
    var s0, s1, s2, s3 := CrowdStates(lay, clients, now, task, i);
    Runs.LeadsStart(s0, Takes());
    s1 := D.RunOn(s0, [], s0, Push(0, task, now, Some(Pick(i, false))));
    s2 := D.RunOn(s0, [] + [Push(0, task, now, Some(Pick(i, false)))], s1, ProgramDone);
    es := [] + [Push(0, task, now, Some(Pick(i, false)))] + [ProgramDone];
    s := D.RunOn(s0, es, s2, Push(1, task, now, None));
    es := es + [Push(1, task, now, None)];
    s' := Step(s, SlotDone(i));
    PulledIsProgrammed(s, i, Done);
  }
}
