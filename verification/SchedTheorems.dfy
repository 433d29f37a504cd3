/** What holds of the scheduler in every run, from start-up, of every system:
    any layout, any number of clients, any arrivals, any slot search that answers
    within LegalPick, and hardware events in any order. */
module SchedTheorems {
  import opened Wrappers
  import opened FredState
  import opened SchedInv
  import opened SchedEvents
  import opened SchedMoves
  import opened SchedFifo
  import opened SchedHistory
  import opened SchedDrain
  import opened SchedTurns
  import Runs

  ghost predicate Told(s: State) {
    Fifo(s) && Conserved(s) && Counted(s) && RightStarts(s)
  }

  lemma MoveTold(s: State, m: Move)
    requires Core(s) && CanMove(s, m) && Told(s)
    ensures Told(Do(s, m))
  {
    MoveFifo(s, m);
    MoveConserves(s, m);
    MoveCounts(s, m);
    MoveRight(s, m);
  }

  lemma {:induction false} PathTold(s: State, ms: seq<Move>, s': State)
    requires Core(s) && Path(s, ms, s') && Told(s)
    ensures Told(s')
    decreases |ms|
  {
    if ms != [] {
      MoveKeeps(s, ms[0]);
      MoveTold(s, ms[0]);
      PathTold(Do(s, ms[0]), ms[1..], s');
    }
  }

  lemma BootTold(lay: Layout, clients: nat, now: int)
    requires lay.Valid()
    ensures Told(Init(lay, clients, now))
  {
    var s := Init(lay, clients, now);
    forall r | 0 <= r < |s.reqs| ensures Nowhere(s, r) {}
    NothingYet(s.slots, s.parts);
  }

  lemma {:induction false} NothingYet(slots: seq<SlotV>, parts: seq<seq<nat>>)
    requires forall i | 0 <= i < |slots| :: slots[i].state == Blank
    requires forall p | 0 <= p < |parts| :: parts[p] == []
    ensures NumExec(slots) == 0 && SumLen(parts) == 0
    decreases |slots| + |parts|
  {
    if slots != [] { NothingYet(slots[1..], parts); }
    if parts != [] { NothingYet(slots, parts[1..]); }
  }

  lemma StepTold(s: State, e: Event)
    requires Inv(s) && Told(s) && Enabled(s, e)
    ensures Told(Step(s, e))
  {
    StepKeeps(s, e);
    StepSameLayout(s, e);
    var ms := StepPath(s, e);
    PathTold(s, ms, Step(s, e));
  }

  ghost function Known(): State -> bool {
    (s: State) => Inv(s) && Told(s)
  }

  lemma KnownIsClosed()
    ensures Runs.Closed(Boots(), Takes(), Known())
  {
    var p := Known();
    forall s: State | Boots()(s) ensures p(s) {
      var lay: Layout, clients: nat, now: int :| lay.Valid() && s == Init(lay, clients, now);
      InitKeeps(lay, clients, now);
      BootTold(lay, clients, now);
    }
    forall s: State, e: Event, s': State | Takes()(s, e, s') && p(s) ensures p(s') {
      StepKeeps(s, e);
      StepTold(s, e);
    }
  }

  /** Everything known of a reachable state. */
  lemma ReachableHolds(s: State)
    requires Reachable(s)
    ensures Inv(s) && Told(s)
  {
    KnownIsClosed();
    assert Known()(s);
  }

  lemma ReachableFifo(s: State)
    requires Reachable(s)
    ensures Fifo(s)
  {
    ReachableHolds(s);
  }

  lemma ReachableConserves(s: State)
    requires Reachable(s)
    ensures Conserved(s) && Counted(s)
  {
    ReachableHolds(s);
  }

  lemma ReachableCore(s: State)
    requires Reachable(s)
    ensures Core(s)
  {
    ReachableHolds(s);
  }

  // ---------------------------------------------------------------- theorems

  /** First come, first served within a partition: its arrivals are its serves,
      then its requests waiting for the port, then those waiting for a slot,
      nothing lost, added or reordered. */
  lemma ArrivalOrder(s: State, p: nat)
    requires Reachable(s) && p < |s.parts|
    ensures OnPart(s.hist.arrivals, p) == OnPart(s.hist.serves, p) + OnQueue(s, s.fri, p) + s.parts[p]
    ensures OnPart(s.hist.grants, p) == OnPart(s.hist.serves, p) + OnQueue(s, s.fri, p)
  {
    ReachableFifo(s);
    FifoReads(s, p);
  }

  /** A request is in at most one place, once; it is in one exactly when it has
      been pushed once more than its client has been notified. */
  lemma OnePlace(s: State, r: nat)
    requires Reachable(s) && r < |s.reqs|
    ensures Arrivals(s.hist.arrivals, r) - Notices(s.hist.notices, r) == if Live(s, r) then 1 else 0
    ensures !(Waiting(s, r) && r in s.fri) && !(Waiting(s, r) && s.devcfg == Some(r)) && !(Waiting(s, r) && Executing(s, r))
    ensures !(r in s.fri && s.devcfg == Some(r)) && !(r in s.fri && Executing(s, r))
    ensures !(s.devcfg == Some(r) && Executing(s, r))
    ensures forall j, k | 0 <= j < |s.fri| && 0 <= k < |s.fri| && s.fri[j] == r == s.fri[k] :: j == k
    ensures forall p, j, q, k | 0 <= p < |s.parts| && 0 <= j < |s.parts[p]| && 0 <= q < |s.parts| && 0 <= k < |s.parts[q]|
                                && s.parts[p][j] == r == s.parts[q][k] :: p == q && j == k
    ensures forall i, j | 0 <= i < |s.slots| && s.slots[i].state == Exec && s.slots[i].execReq == Some(r)
                          && 0 <= j < |s.slots| && s.slots[j].state == Exec && s.slots[j].execReq == Some(r) :: i == j
  {
    ReachableConserves(s);
    ReachableCore(s);
    NowhereIsNotLive(s, r);
    PlacesExclude(s, r);
  }

  /** A request's slot, or the lack of one, tells where it is. */
  lemma PlacesExclude(s: State, r: nat)
    requires Core(s)
    ensures Waiting(s, r) ==> SlotOf(s, r) == -1
    ensures r in s.fri ==> 0 <= SlotOf(s, r) < |s.slots| && s.slots[SlotOf(s, r)].state == Rsrv
    ensures s.devcfg == Some(r) ==> 0 <= SlotOf(s, r) < |s.slots| && s.slots[SlotOf(s, r)].state == Rcfg
    ensures Executing(s, r) ==> 0 <= SlotOf(s, r) < |s.slots| && s.slots[SlotOf(s, r)].state == Exec
  {}

  /** In total, what has been pushed has been notified or is counted live. */
  lemma NothingLost(s: State)
    requires Reachable(s)
    ensures |s.hist.arrivals| == |s.hist.notices| + LiveCount(s)
    ensures LiveCount(s) == 0 <==> forall r: nat | r < |s.reqs| :: !Live(s, r)
  {
    ReachableHolds(s);
    EmptyIffNowhere(s);
    forall r: nat | r < |s.reqs| ensures Nowhere(s, r) <==> !Live(s, r) {
      NowhereIsNotLive(s, r);
    }
  }

  /** Every execution ever started ran on a slot holding the bitstream of the
      hw-task asked for, reconfigured or skipped alike; so does every slot
      executing now. */
  lemma RightBitstream(s: State)
    requires Reachable(s)
    ensures forall k | 0 <= k < |s.hist.starts| ::
              s.hist.starts[k].wanted.Some? && s.hist.starts[k].configured == s.hist.starts[k].wanted
    ensures forall i | 0 <= i < |s.slots| && s.slots[i].state == Exec ::
              s.slots[i].execReq.Some? && s.slots[i].execReq.value < |s.reqs|
              && s.slots[i].hwTask == s.reqs[s.slots[i].execReq.value].task
  {
    ReachableHolds(s);
  }

  /** Every slot has followed the state diagram; Ready never outlives a handler;
      at most one slot is under reconfiguration, the one the port programs;
      reserved slots and queued reconfigurations correspond one to one;
      executing slots and armed watchdogs coincide. */
  lemma SlotProtocol(s: State)
    requires Reachable(s)
    ensures forall i | 0 <= i < |s.slots| :: Walk(s.slots[i]) && s.slots[i].state != FredState.Ready
    ensures forall i, j | 0 <= i < |s.slots| && 0 <= j < |s.slots| && s.slots[i].state == s.slots[j].state == Rcfg :: i == j
    ensures s.devcfg.Some? <==> exists i :: 0 <= i < |s.slots| && s.slots[i].state == Rcfg
    ensures forall i | 0 <= i < |s.slots| :: s.slots[i].state == Rsrv <==> Owned(s, i)
    ensures forall j, k | 0 <= j < k < |s.fri| :: SlotOf(s, s.fri[j]) != SlotOf(s, s.fri[k])
    ensures |s.timers| == |s.slots| && forall i | 0 <= i < |s.slots| :: s.slots[i].state == Exec <==> s.timers[i].armed
  {
    ReachableHolds(s);
    if s.devcfg.Some? {
      var i := s.reqs[s.devcfg.value].slot.value;
      assert s.slots[i].state == Rcfg;
    }
    forall i | 0 <= i < |s.slots| && Owned(s, i) ensures s.slots[i].state == Rsrv {
      var k :| 0 <= k < |s.fri| && SlotOf(s, s.fri[k]) == i;
    }
  }

  /** Between events the port never idles while a reconfiguration waits, and no
      slot is free while a request waits for one in its partition. */
  lemma WorkConserving(s: State)
    requires Reachable(s)
    ensures s.devcfg.None? ==> s.fri == []
    ensures forall i | 0 <= i < |s.slots| && s.slots[i].Available() ::
              0 <= i < |s.lay.slotPart| && s.lay.slotPart[i] < |s.parts| && s.parts[s.lay.slotPart[i]] == []
  {
    ReachableHolds(s);
  }

  /** Bounded overtaking: whatever happens next, the request at position `k` of
      the reconfiguration queue is served after at most Ahead(s, k) others, all of
      them stamped no later than it. */
  lemma BoundedOvertaking(s: State, es: seq<Event>, s': State, k: nat) returns (turn: nat)
    requires Reachable(s) && RunTo(s, es, s') && k < |s.fri|
    ensures Shape(s) && Turn(s, k, s', turn)
  {
    ReachableHolds(s);
    var ms := RunPath(s, es, s');
    turn := PathTurn(s, ms, s', k);
  }

  /** With arrivals stopped, at most two hardware events per live request can
      happen; while a request is live another one can; and when none is left
      every request has been notified as often as it was pushed. */
  lemma DrainsToRest(s: State, es: seq<Event>, s': State)
    requires Reachable(s) && s.lay.Served() && RunTo(s, es, s') && (forall k | 0 <= k < |es| :: Hardware(es[k]))
    ensures |es| <= 2 * LiveCount(s) && Shape(s')
    ensures LiveCount(s') > 0 ==> exists e :: Hardware(e) && Enabled(s', e)
    ensures LiveCount(s') == 0 ==> forall r | 0 <= r < |s'.reqs| ::
              Arrivals(s'.hist.arrivals, r) == Notices(s'.hist.notices, r)
  {
    ReachableHolds(s);
    DrainBound(s, es, s');
    RunKeeps(s, es, s');
    if LiveCount(s') > 0 {
      var e := NeverStuck(s');
    } else {
      EmptyIffNowhere(s');
    }
  }

  ghost predicate Kept(s: State, s1: State) {
    Inv(s1) && Told(s1) && s1.lay == s.lay
  }

  lemma StepKept(s: State, s1: State, e: Event)
    requires Kept(s, s1) && Enabled(s1, e)
    ensures Kept(s, Step(s1, e))
  {
    StepKeeps(s1, e);
    StepSameLayout(s1, e);
    StepTold(s1, e);
  }

  ghost function KeptFrom(s: State): (seq<Event>, State) -> bool {
    (es: seq<Event>, s1: State) => Kept(s, s1)
  }

  lemma KeptFollows(s: State)
    requires Kept(s, s)
    ensures Runs.Follows(s, Takes(), KeptFrom(s))
  {
    var p := KeptFrom(s);
    forall es: seq<Event>, s1: State, e: Event, s2: State | Takes()(s1, e, s2) && p(es, s1) ensures p(es + [e], s2) {
      StepKept(s, s1, e);
    }
  }

  lemma RunKept(s: State, es: seq<Event>, s': State)
    requires Kept(s, s) && RunTo(s, es, s')
    ensures Kept(s, s')
  {
    KeptFollows(s);
    assert KeptFrom(s)(es, s');
  }

  /** A run from a reachable state keeps what is known of it. */
  lemma RunKeeps(s: State, es: seq<Event>, s': State)
    requires Reachable(s) && RunTo(s, es, s')
    ensures Inv(s') && s'.lay == s.lay && Conserved(s')
  {
    ReachableHolds(s);
    RunKept(s, es, s');
  }
}
