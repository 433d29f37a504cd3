/** The scheduler as a transition system over its four events, and the invariant
    every run keeps. */
module SchedEvents {
  import opened Wrappers
  import opened FredState
  import opened SchedInv
  import Runs

  /** An arrival carries the clock reading and the outcome of the slot search. */
  datatype Event =
    | Push(req: nat, task: nat, now: int, pick: Option<Pick>)
    | ProgramDone
    | SlotDone(slot: nat)
    | SlotTimeout(slot: nat)

  /** What any search for a slot may answer: None only when the partition has no
      free slot; otherwise a free slot of the partition, with reconfiguration
      skipped only if the slot idles on the same hw-task. */
  ghost predicate LegalPick(s: State, task: nat, pick: Option<Pick>)
    requires |s.lay.slotPart| == |s.slots| && task < |s.lay.taskPart|
  {
    match pick
    case None => forall i | 0 <= i < |s.slots| && s.lay.slotPart[i] == s.lay.taskPart[task] :: !s.slots[i].Available()
    case Some(g) =>
      && g.slot < |s.slots| && s.slots[g.slot].Available() && s.lay.slotPart[g.slot] == s.lay.taskPart[task]
      && (g.skip ==> s.slots[g.slot].Matches(task))
  }

  /** A request is pushed only when it is not live and the clock never runs
      backwards; the port finishes only what it programs, a slot only what it
      executes, and only armed watchdogs expire. */
  ghost predicate Enabled(s: State, e: Event)
    requires Shape(s)
  {
    match e
    case Push(r, task, now, pick) =>
      r < |s.reqs| && !Live(s, r) && task < |s.lay.taskPart| && now >= s.clock && LegalPick(s, task, pick)
    case ProgramDone => s.devcfg.Some?
    case SlotDone(i) => i < |s.slots| && s.slots[i].state == Exec
    case SlotTimeout(i) => i < |s.slots| && s.timers[i].armed
  }

  /** At handler boundaries the port never idles over a waiting reconfiguration
      and no slot is free while its partition queues requests. */
  ghost predicate Settled(s: State)
    requires Shape(s) && s.lay.Valid()
  {
    && (s.devcfg.None? ==> s.fri == [])
    && NoneFree(s)
  }

  ghost predicate NoneFree(s: State)
    requires Shape(s) && s.lay.Valid()
  {
    forall i | 0 <= i < |s.slots| && s.slots[i].Available() :: s.parts[s.lay.slotPart[i]] == []
  }

  ghost predicate Inv(s: State) {
    Core(s) && Settled(s)
  }

  lemma HandlerReady(s: State, e: Event)
    requires Inv(s) && Enabled(s, e)
    ensures match e
            case Push(r, task, now, pick) =>
              && r !in s.fri && s.devcfg != Some(r) && s.lay.taskPart[task] < |s.parts|
              && (pick.Some? ==> pick.value.slot < |s.slots|)
            case ProgramDone => true
            case SlotDone(i) => s.slots[i].execReq.Some? && Placed(s, s.slots[i].execReq.value)
            case SlotTimeout(i) =>
              s.slots[i].state == Exec && s.slots[i].execReq.Some? && Placed(s, s.slots[i].execReq.value)
  {}

  function Step(s: State, e: Event): State
    requires Inv(s) && Enabled(s, e)
  {
    HandlerReady(s, e);
    match e
    case Push(r, task, now, pick) => PushReq(s, r, task, now, pick)
    case ProgramDone => RcfgComplete(s)
    case SlotDone(i) => SlotEnd(s, i, Done)
    case SlotTimeout(i) => SlotEnd(s, i, Overrun)
  }

  // ------------------------------------------------------------- invariance

  /** Nothing but the history changes. */
  lemma HistoryFree(s: State, s': State)
    requires s' == s.(hist := s'.hist)
    requires Core(s)
    ensures Core(s')
    ensures forall r :: Nowhere(s, r) ==> Nowhere(s', r)
  {
    OnlyQueuesChange(s, s');
    forall r ensures PartOf(s', r) == PartOf(s, r) && SlotOf(s', r) == SlotOf(s, r) {}
    assert QueuesOwn(s') && Stamped(s') && SlotsWalk(s');
  }

  lemma ServeFreesNone(s: State)
    requires Shape(s) && s.lay.Valid() && NoneFree(s) && |s.fri| > 0
    ensures ServeHead(s).lay == s.lay && NoneFree(ServeHead(s)) && FreesNone(s, ServeHead(s))
  {}

  /** Whatever slot is free in `s'` is free in `s`, and the partitions' queues are
      the same. */
  predicate FreesNone(s: State, s': State) {
    && |s'.slots| == |s.slots| && s'.parts == s.parts
    && forall i | 0 <= i < |s.slots| && s'.slots[i].Available() :: s.slots[i].Available()
  }

  /** Serving the reconfiguration queue frees no slot, leaves the partition queues
      alone, and ends with the port busy or the queue empty. */
  lemma {:induction false} DrainFreesNone(s: State)
    requires Core(s) && NoneFree(s)
    ensures Core(Drain(s)) && Settled(Drain(s)) && FreesNone(s, Drain(s))
    decreases |s.fri|
  {
    DrainKeeps(s);
    if s.devcfg.None? && |s.fri| > 0 {
      ServeKeeps(s);
      ServeFreesNone(s);
      DrainFreesNone(ServeHead(s));
    }
  }

  /** Started from a settled queue, insertion with its immediate service is
      insertion followed by service of the whole queue. */
  lemma PushFriDrains(s: State, r: nat)
    requires Shape(s) && Placed(s, r) && (s.devcfg.None? ==> s.fri == [])
    ensures Shape(Enter(s, r)) && PushFri(s, r) == Drain(Enter(s, r))
  {}

  lemma ReservePlaces(s: State, r: nat, i: nat, skip: bool)
    requires Shape(s) && r < |s.reqs| && i < |s.slots|
    ensures Shape(Reserve(s, r, i, skip)) && Placed(Reserve(s, r, i, skip), r)
  {}

  /** Once slot `i` is granted no slot is free over a waiting request. */
  lemma GrantTakesLast(s: State, r: nat, i: nat, skip: bool)
    requires Shape(s) && s.lay.Valid() && Nowhere(s, r) && MayGrant(s, r, i, skip)
    requires forall j | 0 <= j < |s.slots| && j != i && s.slots[j].Available() :: s.parts[s.lay.slotPart[j]] == []
    ensures Shape(Grant(s, r, i, skip)) && NoneFree(Grant(s, r, i, skip))
  {
    var n := IsGranted(s, r, i, skip);
  }

  /** A free slot is granted and the queue served: Inv is restored. */
  lemma GrantSettles(s: State, r: nat, i: nat, skip: bool)
    requires Core(s) && Nowhere(s, r) && MayGrant(s, r, i, skip) && InTurn(s, r)
    requires s.devcfg.None? ==> s.fri == []
    requires forall j | 0 <= j < |s.slots| && j != i && s.slots[j].Available() :: s.parts[s.lay.slotPart[j]] == []
    ensures Shape(Reserve(s, r, i, skip))
    ensures PushFri(Reserve(s, r, i, skip), r) == Drain(Grant(s, r, i, skip))
    ensures Inv(PushFri(Reserve(s, r, i, skip), r))
  {
    var n := IsGranted(s, r, i, skip);
    ReservePlaces(s, r, i, skip);
    PushFriDrains(Reserve(s, r, i, skip), r);
    GrantTakesLast(s, r, i, skip);
    GrantKeeps(s, r, i, skip);
    DrainFreesNone(Grant(s, r, i, skip));
  }

  /** A request that has just arrived, still nowhere. */
  lemma ArrivedKeeps(s: State, r: nat, task: nat, now: int)
    requires Core(s) && r < |s.reqs| && Nowhere(s, r) && task < |s.lay.taskPart| && now >= s.clock
    ensures var s' := Arrived(s, r, task, now);
            && Core(s') && Nowhere(s', r) && PartOf(s', r) == s.lay.taskPart[task]
            && s'.lay == s.lay && s'.slots == s.slots && s'.parts == s.parts && s'.fri == s.fri && s'.devcfg == s.devcfg
            && s'.reqs[r] == ReqV(Some(task), None, false, now) && s'.clock == now
  {
    StampKeeps(s, r, task, now);
    HistoryFree(Stamp(s, r, task, now), Arrived(s, r, task, now));
  }

  /** It queues for its partition, where no slot is free. */
  lemma JoinSettles(s: State, r: nat, p: nat)
    requires Core(s) && r < |s.reqs| && Nowhere(s, r) && PartOf(s, r) == p < |s.parts|
    requires s.reqs[r].slot.None? && !s.reqs[r].skip && s.reqs[r].ts == s.clock
    requires Settled(s) && forall i | 0 <= i < |s.slots| && s.lay.slotPart[i] == p :: !s.slots[i].Available()
    ensures Inv(Join(s, r, p))
  {
    JoinKeeps(s, r, p);
  }

  /** Or it is in turn for a free slot of it, since nobody queues there. */
  lemma NewcomerSettles(s: State, r: nat, i: nat, skip: bool)
    requires Core(s) && r < |s.reqs| && Nowhere(s, r) && MayGrant(s, r, i, skip) && s.reqs[r].ts == s.clock && Settled(s)
    ensures Shape(Reserve(s, r, i, skip)) && Inv(PushFri(Reserve(s, r, i, skip), r))
  {
    assert s.parts[s.lay.slotPart[i]] == [];
    NewcomerInTurn(s, r);
    GrantSettles(s, r, i, skip);
  }

  /** A newcomer to a partition nobody waits for is in turn. */
  lemma NewcomerInTurn(s: State, r: nat)
    requires Shape(s) && Stamped(s) && r < |s.reqs| && s.reqs[r].ts == s.clock
    requires forall p | 0 <= p < |s.parts| && p == PartOf(s, r) :: s.parts[p] == []
    ensures InTurn(s, r)
  {}

  lemma PushKeeps(s: State, r: nat, task: nat, now: int, pick: Option<Pick>)
    requires Inv(s) && Enabled(s, Push(r, task, now, pick))
    ensures Inv(Step(s, Push(r, task, now, pick)))
  {
    HandlerReady(s, Push(r, task, now, pick));
    NowhereIsNotLive(s, r);
    ArrivedKeeps(s, r, task, now);
    match pick
    case None => JoinSettles(Arrived(s, r, task, now), r, s.lay.taskPart[task]);
    case Some(g) => NewcomerSettles(Arrived(s, r, task, now), r, g.slot, g.skip);
  }

  lemma ProgramDoneKeeps(s: State)
    requires Inv(s) && Enabled(s, ProgramDone)
    ensures Inv(Step(s, ProgramDone))
  {
    ProgrammedKeeps(s);
    DrainFreesNone(Finished(s));
  }

  /** A free slot goes to the head of its partition's queue, if there is one. */
  lemma PullKeeps(s: State, i: nat, done: nat)
    requires Core(s) && i < |s.slots| && s.slots[i].Available() && (s.devcfg.None? ==> s.fri == [])
    requires Placed(s, done) && SlotOf(s, done) == i && s.lay.slotPart[i] == PartOf(s, done)
    requires forall j | 0 <= j < |s.slots| && j != i && s.slots[j].Available() :: s.parts[s.lay.slotPart[j]] == []
    ensures Inv(Pull(s, done))
  {
    var p := s.lay.slotPart[i];
    if |s.parts[p]| > 0 {
      DequeueKeeps(s, p);
      GrantSettles(Dequeue(s, p), s.parts[p][0], i, false);
    }
  }

  lemma SlotEndKeeps(s: State, i: nat, msg: Message)
    requires Inv(s) && i < |s.slots| && s.slots[i].state == Exec
    ensures s.slots[i].execReq.Some? && Placed(s, s.slots[i].execReq.value) && Inv(SlotEnd(s, i, msg))
  {
    HandlerReady(s, SlotDone(i));
    ReleaseKeeps(s, i, msg);
    PullKeeps(Release(s, i, msg), i, s.slots[i].execReq.value);
  }

  lemma StepKeeps(s: State, e: Event)
    requires Inv(s) && Enabled(s, e)
    ensures Inv(Step(s, e))
  {
    match e
    case Push(r, task, now, pick) => PushKeeps(s, r, task, now, pick);
    case ProgramDone => ProgramDoneKeeps(s);
    case SlotDone(i) => SlotEndKeeps(s, i, Done);
    case SlotTimeout(i) => SlotEndKeeps(s, i, Overrun);
  }

  lemma InitKeeps(lay: Layout, clients: nat, now: int)
    requires lay.Valid()
    ensures Inv(Init(lay, clients, now))
  {}

  // ------------------------------------------------------------------- runs

  /** The states after start-up. */
  ghost function Boots(): State -> bool {
    (s: State) => exists lay: Layout, clients: nat, now: int :: lay.Valid() && s == Init(lay, clients, now)
  }

  /** One event. */
  ghost function Takes(): (State, Event, State) -> bool {
    (s: State, e: Event, s': State) => Inv(s) && Enabled(s, e) && s' == Step(s, e)
  }

  /** Some run from start-up leads to `s`. */
  ghost predicate Reachable(s: State) {
    Runs.Reachable(Boots(), Takes(), s)
  }

  /** The events `es` lead from `s` to `s'`. */
  ghost predicate RunTo(s: State, es: seq<Event>, s': State) {
    Runs.Leads(s, Takes(), es, s')
  }
}
