/** When the slots keep to the state diagram drawn in slot.h: exactly as long as
    they have not overrun. */
module SchedDiagram {
  import opened Wrappers
  import opened FredState
  import opened SchedInv
  import opened SchedEvents
  import opened SchedMoves
  import Runs

  /** The slot's past is a path of the drawing. */
  ghost predicate AsDrawn(v: SlotV) {
    forall k | 0 < k < |v.path| :: Drawn(v.path[k - 1], v.path[k])
  }

  lemma PrefixDrawn(v: SlotV, v': SlotV)
    requires v.path <= v'.path && AsDrawn(v')
    ensures AsDrawn(v)
  {
    forall k | 0 < k < |v.path| ensures Drawn(v.path[k - 1], v.path[k]) {
      assert v.path[k - 1] == v'.path[k - 1] && v.path[k] == v'.path[k];
      assert Drawn(v'.path[k - 1], v'.path[k]);
    }
  }

  lemma OneMore(v: SlotV, v': SlotV, st: SlotState)
    requires Walk(v) && v'.path == v.path + [st]
    ensures AsDrawn(v') <==> AsDrawn(v) && Drawn(v.state, st)
  {
    assert forall k | 0 <= k < |v.path| :: v'.path[k] == v.path[k];
    if AsDrawn(v') {
      assert v'.path[|v.path| - 1] == v.state;
      assert Drawn(v'.path[|v.path| - 1], v'.path[|v.path|]);
      PrefixDrawn(v, v');
    }
  }

  // ------------------------------------------------------------------ moves

  /** The states a move takes slot `i` through. */
  function Added(s: State, m: Move, i: nat): seq<SlotState>
    requires Shape(s)
  {
    match m
    case Enqueue(_, _, _) => []
    case Admit(_, _, _, j, _) => if i == j then [Rsrv] else []
    case Advance(j) => if i == j then [Rsrv] else []
    case Serve =>
      if |s.fri| > 0 && s.reqs[s.fri[0]].slot.value == i then [if s.reqs[s.fri[0]].skip then Exec else Rcfg] else []
    case Finish =>
      if s.devcfg.Some? && s.reqs[s.devcfg.value].slot.value == i then [FredState.Ready, Exec] else []
    case Free(j, msg) => if i == j then [if msg == Done then Idle else Blank] else []
  }

  lemma MoveAdds(s: State, m: Move, i: nat)
    requires Shape(s) && s.lay.Valid() && CanMove(s, m) && i < |s.slots|
    ensures |Do(s, m).slots| == |s.slots| && Do(s, m).slots[i].path == s.slots[i].path + Added(s, m, i)
  {
  }

  /** They follow the drawing unless the slot is blanked while executing. */
  lemma AddedDrawn(s: State, m: Move, i: nat)
    requires Shape(s) && s.lay.Valid() && FriOwns(s) && PortOwns(s) && CanMove(s, m) && i < |s.slots|
    ensures var add, st := Added(s, m, i), s.slots[i].state;
      && (add != [] ==> (Drawn(st, add[0]) <==> m != Free(i, Overrun)))
      && (|add| > 1 ==> |add| == 2 && Drawn(add[0], add[1]))
      && (add == [] ==> m != Free(i, Overrun))
  {
  }

  /** An overrun, and nothing else, takes a slot off the drawing. */
  lemma MoveDrawn(s: State, m: Move, i: nat)
    requires Shape(s) && s.lay.Valid() && FriOwns(s) && PortOwns(s) && SlotsWalk(s) && CanMove(s, m) && i < |s.slots|
    ensures |Do(s, m).slots| == |s.slots|
    ensures AsDrawn(Do(s, m).slots[i]) <==> AsDrawn(s.slots[i]) && m != Free(i, Overrun)
  {
    MoveAdds(s, m, i);
    AddedDrawn(s, m, i);
    AllMore(s.slots[i], Do(s, m).slots[i], Added(s, m, i));
  }

  lemma AllMore(v: SlotV, v': SlotV, add: seq<SlotState>)
    requires Walk(v) && v'.path == v.path + add && |add| <= 2 && (|add| == 2 ==> Drawn(add[0], add[1]))
    ensures AsDrawn(v') <==> AsDrawn(v) && (add != [] ==> Drawn(v.state, add[0]))
  {
    if add == [] {
      assert v'.path == v.path;
    } else {
      var v1 := v.To(add[0]);
      OneMore(v, v1, add[0]);
      if |add| == 1 {
        assert v'.path == v1.path;
      } else if Drawn(v.state, add[0]) {
        StepWalks(v, add[0]);
        assert v'.path == v1.path + [add[1]];
        OneMore(v1, v', add[1]);
      } else if AsDrawn(v') {
        PrefixDrawn(v1, v');
      }
    }
  }

  lemma {:induction false} PathDrawn(s: State, ms: seq<Move>, s': State, i: nat)
    requires Core(s) && Path(s, ms, s') && i < |s.slots|
    ensures |s'.slots| == |s.slots|
    ensures AsDrawn(s'.slots[i]) <==> AsDrawn(s.slots[i]) && Free(i, Overrun) !in ms
    decreases |ms|
  {
    if ms != [] {
      MoveDrawn(s, ms[0], i);
      MoveKeeps(s, ms[0]);
      PathDrawn(Do(s, ms[0]), ms[1..], s', i);
      assert Free(i, Overrun) in ms <==> Free(i, Overrun) == ms[0] || Free(i, Overrun) in ms[1..];
    }
  }

  // ----------------------------------------------------------------- events

  lemma StepDrawn(s: State, e: Event, i: nat)
    requires Inv(s) && Enabled(s, e) && i < |s.slots|
    ensures |Step(s, e).slots| == |s.slots|
    ensures AsDrawn(Step(s, e).slots[i]) <==> AsDrawn(s.slots[i]) && e != SlotTimeout(i)
  {
    var ms := StepPath(s, e);
    PathDrawn(s, ms, Step(s, e), i);
    OnlyTimeoutBlanks(e, ms, i);
  }

  lemma OnlyTimeoutBlanks(e: Event, ms: seq<Move>, i: nat)
    requires |ms| > 0 && ms[0] == FirstMove(e) && GoesOn(ms, 1)
    ensures Free(i, Overrun) in ms <==> e == SlotTimeout(i)
  {
    if k :| 0 <= k < |ms| && ms[k] == Free(i, Overrun) {
      assert k == 0;
    }
  }

  // ------------------------------------------------------------------- runs

  ghost predicate Drawing(i: nat, es: seq<Event>, s: State) {
    Inv(s) && i < |s.slots| && (AsDrawn(s.slots[i]) <==> SlotTimeout(i) !in es)
  }

  ghost function DrawingOf(i: nat): (seq<Event>, State) -> bool {
    (es: seq<Event>, s: State) => Drawing(i, es, s)
  }

  lemma StepDrawing(i: nat, es: seq<Event>, s: State, e: Event)
    requires Drawing(i, es, s) && Enabled(s, e)
    ensures Drawing(i, es + [e], Step(s, e))
  {
    StepKeeps(s, e);
    StepDrawn(s, e, i);
  }

  lemma DrawingFollows(s: State, i: nat)
    requires Drawing(i, [], s)
    ensures Runs.Follows(s, Takes(), DrawingOf(i))
  {
    var p := DrawingOf(i);
    forall es: seq<Event>, s1: State, e: Event, s2: State | Takes()(s1, e, s2) && p(es, s1) ensures p(es + [e], s2) {
      StepDrawing(i, es, s1, e);
    }
  }

  /** In every run from start-up a slot's past is a path of the drawing if and only
      if its watchdog has never expired. */
  lemma DrawnIffNoOverrun(lay: Layout, clients: nat, now: int, es: seq<Event>, s: State, i: nat)
    requires lay.Valid() && i < |lay.slotPart| && RunTo(Init(lay, clients, now), es, s)
    ensures i < |s.slots| && (AsDrawn(s.slots[i]) <==> SlotTimeout(i) !in es)
  {
    var s0 := Init(lay, clients, now);
    InitKeeps(lay, clients, now);
    assert s0.slots[i].path == [Blank];
    DrawingFollows(s0, i);
    assert DrawingOf(i)(es, s);
  }

  // ---------------------------------------------------------------- a run off

  lemma RunOn(s0: State, es: seq<Event>, s: State, e: Event) returns (s': State)
    requires RunTo(s0, es, s) && Inv(s) && Enabled(s, e)
    ensures s' == Step(s, e) && RunTo(s0, es + [e], s') && Inv(s')
  {
    s' := Step(s, e);
    StepKeeps(s, e);
    assert Takes()(s, e, s');
    Runs.LeadsOn(s0, Takes(), es, s, e, s');
  }

  /** A lone request that needs reconfiguration goes to the idle port. */
  lemma DrainOne(s: State)
    requires Shape(s) && FriDistinct(s) && s.devcfg.None? && |s.fri| == 1 && !s.reqs[s.fri[0]].skip
    ensures var s' := Drain(s); s'.devcfg == Some(s.fri[0]) && s'.fri == [] && s'.reqs == s.reqs && |s'.slots| == |s.slots|
    ensures Drain(s) == ServeHead(s)
  {
  }

  /** The first request of all is granted its slot. */
  lemma FirstGrant(s: State, task: nat, i: nat)
    requires Shape(s) && s.lay.Valid() && s.fri == [] && s.devcfg.None? && |s.reqs| > 0 && Nowhere(s, 0)
    requires task < |s.lay.taskPart| && i < |s.slots|
    ensures var s1 := Grant(Arrived(s, 0, task, s.clock), 0, i, false);
            && s1.fri == [0] && s1.devcfg.None? && |s1.reqs| == |s.reqs| && SlotOf(s1, 0) == i && !s1.reqs[0].skip
            && |s1.slots| == |s.slots| && FriDistinct(s1)
  {
  }

  /** A first push is enabled, and programs the slot at once. */
  lemma FirstPush(s: State, task: nat, i: nat)
    requires Inv(s) && s.fri == [] && s.devcfg.None? && |s.reqs| > 0 && Nowhere(s, 0)
    requires task < |s.lay.taskPart| && i < |s.slots| && s.slots[i].state == Blank && s.lay.slotPart[i] == s.lay.taskPart[task]
    ensures var e := Push(0, task, s.clock, Some(Pick(i, false)));
      && Enabled(s, e)
      && var s1 := Step(s, e);
         s1.devcfg == Some(0) && s1.fri == [] && 0 < |s1.reqs| && SlotOf(s1, 0) == i && |s1.slots| == |s.slots|
  {
    NowhereIsNotLive(s, 0);
    PushMoves(s, 0, task, s.clock, Some(Pick(i, false)));
    FirstGrant(s, task, i);
    DrainOne(Grant(Arrived(s, 0, task, s.clock), 0, i, false));
  }

  /** Programmed with nothing queued, it executes in its slot. */
  lemma ThenExecutes(s: State, i: nat)
    requires Inv(s) && s.devcfg.Some? && s.fri == [] && SlotOf(s, s.devcfg.value) == i < |s.slots|
    ensures Step(s, ProgramDone) == Finished(s)
    ensures |Step(s, ProgramDone).slots| == |s.slots| && i < |s.timers| && Step(s, ProgramDone).timers[i].armed
  {
  }

  /** Such a run, in any layout with a hw-task that has a slot and any number of
      clients: a request is pushed, its slot programmed, and its watchdog expires. */
  lemma OverrunLeavesDrawing(lay: Layout, clients: nat, now: int, task: nat, i: nat) returns (es: seq<Event>, s: State)
    requires lay.Valid() && clients > 0 && task < |lay.taskPart| && i < |lay.slotPart| && lay.slotPart[i] == lay.taskPart[task]
    ensures |es| == 3 && es[0] == Push(0, task, now, Some(Pick(i, false))) && es[1] == ProgramDone && es[2] == SlotTimeout(i)
    ensures RunTo(Init(lay, clients, now), es, s) && i < |s.slots| && !AsDrawn(s.slots[i])
  {
    var s0 := BootState(lay, clients, now, i);
    es, s := RunPush(s0, task, i);
    es, s := RunProgram(s0, es, s, i);
    es, s := RunOverrun(s0, es, s, i);
    DrawnIffNoOverrun(lay, clients, now, es, s, i);
  }

  lemma RunPush(s0: State, task: nat, i: nat) returns (es: seq<Event>, s: State)
    requires RunTo(s0, [], s0) && Inv(s0) && s0.fri == [] && s0.devcfg.None? && |s0.reqs| > 0 && Nowhere(s0, 0)
    requires task < |s0.lay.taskPart| && i < |s0.slots| && s0.slots[i].state == Blank
    requires s0.lay.slotPart[i] == s0.lay.taskPart[task]
    ensures es == [Push(0, task, s0.clock, Some(Pick(i, false)))] && RunTo(s0, es, s) && Inv(s)
    ensures s.devcfg.Some? && s.fri == [] && SlotOf(s, s.devcfg.value) == i < |s.slots|
  {
    var e := Push(0, task, s0.clock, Some(Pick(i, false)));
    FirstPush(s0, task, i);
    s := RunOn(s0, [], s0, e);
    es := [] + [e];
  }

  lemma RunProgram(s0: State, es: seq<Event>, s: State, i: nat) returns (es': seq<Event>, s': State)
    requires RunTo(s0, es, s) && Inv(s) && s.devcfg.Some? && s.fri == [] && SlotOf(s, s.devcfg.value) == i < |s.slots|
    ensures es' == es + [ProgramDone] && RunTo(s0, es', s') && Inv(s') && i < |s'.slots| && Enabled(s', SlotTimeout(i))
  {
    ThenExecutes(s, i);
    s' := RunOn(s0, es, s, ProgramDone);
    es' := es + [ProgramDone];
  }

  lemma RunOverrun(s0: State, es: seq<Event>, s: State, i: nat) returns (es': seq<Event>, s': State)
    requires RunTo(s0, es, s) && Inv(s) && Enabled(s, SlotTimeout(i))
    ensures es' == es + [SlotTimeout(i)] && RunTo(s0, es', s')
  {
    s' := RunOn(s0, es, s, SlotTimeout(i));
    es' := es + [SlotTimeout(i)];
  }

  lemma BootState(lay: Layout, clients: nat, now: int, i: nat) returns (s: State)
    requires lay.Valid() && clients > 0 && i < |lay.slotPart|
    ensures s == Init(lay, clients, now) && RunTo(s, [], s) && Inv(s)
    ensures s.lay == lay && s.clock == now && |s.reqs| == clients && s.fri == [] && s.devcfg.None? && Nowhere(s, 0)
    ensures |s.slots| == |lay.slotPart| && s.slots[i].state == Blank
  {
    s := Init(lay, clients, now);
    InitKeeps(lay, clients, now);
    Runs.LeadsStart(s, Takes());
  }
}
