/** Every handler is a sequence of six kinds of moves, so what each move keeps,
    every run keeps. */
module SchedMoves {
  import opened Wrappers
  import opened FredState
  import opened SchedInv
  import opened SchedEvents
  import Runs

  datatype Move =
    | Enqueue(req: nat, task: nat, now: int)
    | Admit(req: nat, task: nat, now: int, slot: nat, skip: bool)
    | Advance(slot: nat)
    | Serve
    | Finish
    | Free(slot: nat, msg: Message)

  ghost predicate CanMove(s: State, m: Move)
    requires Shape(s) && s.lay.Valid()
  {
    match m
    case Enqueue(r, task, now) =>
      r < |s.reqs| && Nowhere(s, r) && task < |s.lay.taskPart| && now >= s.clock
    case Admit(r, task, now, i, skip) =>
      && r < |s.reqs| && Nowhere(s, r) && task < |s.lay.taskPart| && now >= s.clock
      && i < |s.slots| && s.slots[i].Available() && s.lay.slotPart[i] == s.lay.taskPart[task]
      && s.parts[s.lay.taskPart[task]] == [] && (skip ==> s.slots[i].Matches(task))
    case Advance(i) => i < |s.slots| && s.slots[i].Available() && |s.parts[s.lay.slotPart[i]]| > 0
    case Serve => s.devcfg.None? && |s.fri| > 0
    case Finish => s.devcfg.Some?
    case Free(i, msg) => i < |s.slots| && s.slots[i].state == Exec && s.slots[i].execReq.Some?
  }

  function Do(s: State, m: Move): (s': State)
    requires Shape(s) && s.lay.Valid() && CanMove(s, m)
    ensures Shape(s') && s'.lay == s.lay
  {
    match m
    case Enqueue(r, task, now) => Join(Arrived(s, r, task, now), r, s.lay.taskPart[task])
    case Admit(r, task, now, i, skip) => Grant(Arrived(s, r, task, now), r, i, skip)
    case Advance(i) => var p := s.lay.slotPart[i]; Grant(Dequeue(s, p), s.parts[p][0], i, false)
    case Serve => ServeHead(s)
    case Finish => Finished(s)
    case Free(i, msg) => Release(s, i, msg)
  }

  // ------------------------------------------------------------- invariance

  /** An admission grants a slot to a newcomer, an advance to a queue's head;
      either way the grant is in order. */
  lemma AdmitReady(s: State, r: nat, task: nat, now: int, i: nat, skip: bool)
    requires Core(s) && CanMove(s, Admit(r, task, now, i, skip))
    ensures var s' := Arrived(s, r, task, now);
            && Core(s') && Nowhere(s', r) && MayGrant(s', r, i, skip) && InTurn(s', r)
            && PartOf(s', r) == s.lay.taskPart[task] && s'.parts[s.lay.taskPart[task]] == []
  {
    ArrivedKeeps(s, r, task, now);
    NewcomerInTurn(Arrived(s, r, task, now), r);
  }

  lemma AdvanceReady(s: State, i: nat)
    requires Core(s) && CanMove(s, Advance(i))
    ensures var p := s.lay.slotPart[i]; var s' := Dequeue(s, p); var r := s.parts[p][0];
            Core(s') && Nowhere(s', r) && MayGrant(s', r, i, false) && InTurn(s', r) && PartOf(s', r) == p
  {
    DequeueKeeps(s, s.lay.slotPart[i]);
  }

  lemma MoveKeeps(s: State, m: Move)
    requires Core(s) && CanMove(s, m)
    ensures Core(Do(s, m))
  {
    match m
    case Enqueue(r, task, now) =>
      ArrivedKeeps(s, r, task, now);
      JoinKeeps(Arrived(s, r, task, now), r, s.lay.taskPart[task]);
    case Admit(r, task, now, i, skip) =>
      AdmitReady(s, r, task, now, i, skip);
      GrantKeeps(Arrived(s, r, task, now), r, i, skip);
    case Advance(i) =>
      AdvanceReady(s, i);
      GrantKeeps(Dequeue(s, s.lay.slotPart[i]), s.parts[s.lay.slotPart[i]][0], i, false);
    case Serve => ServeKeeps(s);
    case Finish => ProgrammedKeeps(s);
    case Free(i, msg) => ReleaseKeeps(s, i, msg);
  }

  // ----------------------------------------------------- sequences of moves

  ghost predicate Path(s: State, ms: seq<Move>, s': State)
    requires Shape(s) && s.lay.Valid()
    decreases |ms|
  {
    if ms == [] then s' == s else CanMove(s, ms[0]) && Path(Do(s, ms[0]), ms[1..], s')
  }

  lemma {:induction false} PathKeeps(s: State, ms: seq<Move>, s': State)
    requires Core(s) && Path(s, ms, s')
    ensures Core(s') && s'.lay == s.lay
    decreases |ms|
  {
    if ms != [] {
      MoveKeeps(s, ms[0]);
      PathKeeps(Do(s, ms[0]), ms[1..], s');
    }
  }

  lemma PathCons(s: State, m: Move, ms: seq<Move>, s': State)
    requires Shape(s) && s.lay.Valid() && CanMove(s, m) && Path(Do(s, m), ms, s')
    ensures Path(s, [m] + ms, s')
  {
    assert ([m] + ms)[1..] == ms;
  }

  /** An arrival is an enqueueing, or an admission followed by the service of the
      queue. */
  lemma PushMoves(s: State, r: nat, task: nat, now: int, pick: Option<Pick>)
    requires Shape(s) && s.lay.Valid() && Settled(s) && Nowhere(s, r) && Enabled(s, Push(r, task, now, pick))
    ensures r !in s.fri && s.lay.taskPart[task] < |s.parts| && (pick.Some? ==> pick.value.slot < |s.slots|)
    ensures pick.None? ==> CanMove(s, Enqueue(r, task, now)) && PushReq(s, r, task, now, pick) == Do(s, Enqueue(r, task, now))
    ensures pick.Some? ==> var m := Admit(r, task, now, pick.value.slot, pick.value.skip);
                           CanMove(s, m) && PushReq(s, r, task, now, pick) == Drain(Do(s, m))
  {
    if pick.Some? {
      PushFriDrains(Reserve(Arrived(s, r, task, now), r, pick.value.slot, pick.value.skip), r);
    }
  }

  /** A pull is an advance followed by the service of the queue. */
  lemma PullAdvances(s: State, i: nat, done: nat)
    requires Shape(s) && s.lay.Valid() && i < |s.slots| && s.slots[i].Available()
    requires Placed(s, done) && SlotOf(s, done) == i && s.lay.slotPart[i] == PartOf(s, done)
    requires s.devcfg.None? ==> s.fri == []
    ensures Pull(s, done) == if s.parts[s.lay.slotPart[i]] == [] then s else Drain(Do(s, Advance(i)))
  {
    var p := s.lay.slotPart[i];
    if |s.parts[p]| > 0 {
      PushFriDrains(Reserve(Dequeue(s, p), s.parts[p][0], i, false), s.parts[p][0]);
    }
  }

  /** The move an event begins with; services, and at most an advance before them,
      follow. */
  function FirstMove(e: Event): Move {
    match e
    case Push(r, task, now, pick) =>
      if pick.None? then Enqueue(r, task, now) else Admit(r, task, now, pick.value.slot, pick.value.skip)
    case ProgramDone => Finish
    case SlotDone(i) => Free(i, Done)
    case SlotTimeout(i) => Free(i, Overrun)
  }

  predicate GoesOn(ms: seq<Move>, from: nat) {
    forall k | from <= k < |ms| :: ms[k].Serve? || ms[k].Advance?
  }

  lemma {:induction false} DrainMoves(s: State) returns (ms: seq<Move>)
    requires Shape(s) && s.lay.Valid()
    ensures Path(s, ms, Drain(s)) && GoesOn(ms, 0)
    decreases |s.fri|
  {
    ms := [];
    if s.devcfg.None? && |s.fri| > 0 {
      assert ServeHead(s) == Do(s, Serve);
      ms := DrainMoves(ServeHead(s));
      PathCons(s, Serve, ms, Drain(s));
      ms := [Serve] + ms;
    }
  }

  /** A move with the services that follow it. */
  lemma MoveDrainMoves(s: State, m: Move) returns (ms: seq<Move>)
    requires Shape(s) && s.lay.Valid() && CanMove(s, m)
    ensures Path(s, ms, Drain(Do(s, m))) && |ms| > 0 && ms[0] == m && GoesOn(ms, 1)
  {
    ms := DrainMoves(Do(s, m));
    PathCons(s, m, ms, Drain(Do(s, m)));
    ms := [m] + ms;
  }

  lemma PullMoves(s: State, i: nat, done: nat) returns (ms: seq<Move>)
    requires Shape(s) && s.lay.Valid() && i < |s.slots| && s.slots[i].Available()
    requires Placed(s, done) && SlotOf(s, done) == i && s.lay.slotPart[i] == PartOf(s, done)
    requires s.devcfg.None? ==> s.fri == []
    ensures Path(s, ms, Pull(s, done)) && GoesOn(ms, 0)
  {
    ms := [];
    PullAdvances(s, i, done);
    if |s.parts[s.lay.slotPart[i]]| > 0 {
      ms := MoveDrainMoves(s, Advance(i));
    }
  }

  lemma EndMoves(s: State, i: nat, msg: Message) returns (ms: seq<Move>)
    requires Shape(s) && s.lay.Valid() && Settled(s) && i < |s.slots| && s.slots[i].state == Exec
    requires s.slots[i].execReq.Some? && Placed(s, s.slots[i].execReq.value)
    requires SlotOf(s, s.slots[i].execReq.value) == i && s.lay.slotPart[i] == PartOf(s, s.slots[i].execReq.value)
    ensures Path(s, ms, SlotEnd(s, i, msg)) && |ms| > 0 && ms[0] == Free(i, msg) && GoesOn(ms, 1)
  {
    ms := PullMoves(Release(s, i, msg), i, s.slots[i].execReq.value);
    PathCons(s, Free(i, msg), ms, SlotEnd(s, i, msg));
    ms := [Free(i, msg)] + ms;
  }

  /** A handler is a sequence of moves. */
  lemma StepPath(s: State, e: Event) returns (ms: seq<Move>)
    requires Inv(s) && Enabled(s, e)
    ensures Path(s, ms, Step(s, e)) && |ms| > 0 && ms[0] == FirstMove(e) && GoesOn(ms, 1)
  {
    HandlerReady(s, e);
    match e
    case Push(r, task, now, pick) =>
      NowhereIsNotLive(s, r);
      PushMoves(s, r, task, now, pick);
      if pick.None? {
        PathCons(s, FirstMove(e), [], Step(s, e));
        ms := [FirstMove(e)] + [];
      } else {
        ms := MoveDrainMoves(s, FirstMove(e));
      }
    case ProgramDone => ms := MoveDrainMoves(s, Finish);
    case SlotDone(i) => ms := EndMoves(s, i, Done);
    case SlotTimeout(i) => ms := EndMoves(s, i, Overrun);
  }

  lemma {:induction false} PathSameLayout(s: State, ms: seq<Move>, s': State)
    requires Shape(s) && s.lay.Valid() && Path(s, ms, s')
    ensures s'.lay == s.lay
    decreases |ms|
  {
    if ms != [] {
      PathSameLayout(Do(s, ms[0]), ms[1..], s');
    }
  }

  lemma StepSameLayout(s: State, e: Event)
    requires Inv(s) && Enabled(s, e)
    ensures Step(s, e).lay == s.lay
  {
    var ms := StepPath(s, e);
    PathSameLayout(s, ms, Step(s, e));
  }

  ghost predicate Moved(s: State, end: State)
    requires Shape(s) && s.lay.Valid()
  {
    exists ms: seq<Move> :: Path(s, ms, end)
  }

  /** Where moves lead from `s1` they also lead from `s`. */
  ghost predicate Extends(s: State, s1: State)
    requires Shape(s) && s.lay.Valid()
  {
    && Shape(s1) && s1.lay.Valid()
    && forall rest: seq<Move>, end: State | Path(s1, rest, end) :: Moved(s, end)
  }

  lemma ConcatTail(ms: seq<Move>, rest: seq<Move>)
    requires ms != []
    ensures [ms[0]] + (ms[1..] + rest) == ms + rest
  {
  }

  lemma {:induction false} PathConcat(s: State, ms: seq<Move>, s1: State, rest: seq<Move>, end: State)
    requires Shape(s) && s.lay.Valid() && Path(s, ms, s1) && Shape(s1) && s1.lay.Valid() && Path(s1, rest, end)
    ensures Path(s, ms + rest, end)
    decreases |ms|
  {
    if ms == [] {
      assert ms + rest == rest;
    } else {
      PathConcat(Do(s, ms[0]), ms[1..], s1, rest, end);
      PathCons(s, ms[0], ms[1..] + rest, end);
      ConcatTail(ms, rest);
    }
  }

  lemma PathExtends(s: State, s1: State, ms: seq<Move>, s2: State)
    requires Shape(s) && s.lay.Valid() && Extends(s, s1) && Path(s1, ms, s2) && Shape(s2) && s2.lay.Valid()
    ensures Extends(s, s2)
  {
    forall rest: seq<Move>, end: State | Path(s2, rest, end) ensures Moved(s, end) {
      PathConcat(s1, ms, s2, rest, end);
    }
  }

  lemma StepExtends(s: State, s1: State, e: Event)
    requires Shape(s) && s.lay.Valid() && Extends(s, s1) && Inv(s1) && Enabled(s1, e)
    ensures Extends(s, Step(s1, e))
  {
    StepKeeps(s1, e);
    StepSameLayout(s1, e);
    var ms := StepPath(s1, e);
    PathExtends(s, s1, ms, Step(s1, e));
  }

  /** So is a whole run. */
  lemma RunPath(s: State, es: seq<Event>, s': State) returns (ms: seq<Move>)
    requires Shape(s) && s.lay.Valid() && RunTo(s, es, s')
    ensures Path(s, ms, s')
  {
    ExtendsFollows(s);
    assert ExtendsFrom(s)(es, s');
    assert Path(s', [], s');
    ms :| Path(s, ms, s');
  }

  ghost function ExtendsFrom(s: State): (seq<Event>, State) -> bool
    requires Shape(s) && s.lay.Valid()
  {
    (es: seq<Event>, s1: State) => Extends(s, s1)
  }

  lemma ExtendsFollows(s: State)
    requires Shape(s) && s.lay.Valid()
    ensures Runs.Follows(s, Takes(), ExtendsFrom(s))
  {
    var p := ExtendsFrom(s);
    forall es: seq<Event>, s1: State, e: Event, s2: State | Takes()(s1, e, s2) && p(es, s1) ensures p(es + [e], s2) {
      StepExtends(s, s1, e);
    }
  }
}
