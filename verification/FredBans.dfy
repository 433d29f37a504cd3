/** What a ban stops: nothing that was queued before it, and everything after. */
module FredBans {
  import opened Wrappers
  import opened FredState
  import opened SchedInv
  import opened SchedEvents
  import opened SchedMoves
  import opened SchedNotices
  import opened SchedStarts
  import opened FredClient
  import opened FredSystem
  import D = SchedDrain
  import K = SchedSkips
  import T = SchedTheorems
  import Runs

  /** The request is live and has not begun to execute. */
  ghost predicate Queued(s: State, r: nat) {
    Waiting(s, r) || r in s.fri || s.devcfg == Some(r)
  }

  /** It is to execute hw-task `t`. */
  ghost predicate Pends(s: State, r: nat, t: nat) {
    Queued(s, r) && r < |s.reqs| && s.reqs[r].task == Some(t)
  }

  // ------------------------------------------------------------------ moves

  predicate PushesFor(m: Move, t: nat) {
    (m.Enqueue? || m.Admit?) && m.task == t
  }

  lemma GrantQueues(s: State, q: nat, i: nat, skip: bool, r: nat)
    requires Shape(s) && Nowhere(s, q) && MayGrant(s, q, i, skip)
    ensures Queued(Grant(s, q, i, skip), r) <==> q == r || Queued(s, r)
  {
    var s' := Grant(s, q, i, skip);
    var n := IsGranted(s, q, i, skip);
    assert s'.fri[n] == q;
    if r in s.fri {
      var k: nat :| k < |s.fri| && s.fri[k] == r;
      GrantedForth(s, s', q, i, skip, n, k);
    }
    if r in s'.fri && r != q {
      var k: nat :| k < |s'.fri| && s'.fri[k] == r;
      assert s.fri[Back(n, k)] == r;
    }
    assert Waiting(s', r) <==> Waiting(s, r);
  }

  lemma EnqueueQueues(s: State, m: Move, r: nat)
    requires Shape(s) && s.lay.Valid() && CanMove(s, m) && m.Enqueue?
    ensures Queued(Do(s, m), r) <==> m.req == r || Queued(s, r)
  {
    var s', p := Do(s, m), s.lay.taskPart[m.task];
    assert s'.parts[p][|s.parts[p]|] == m.req;
    if Waiting(s, r) {
      var x :| 0 <= x < |s.parts| && r in s.parts[x];
      assert r in s'.parts[x];
    }
    if Waiting(s', r) && m.req != r {
      var x :| 0 <= x < |s'.parts| && r in s'.parts[x];
      assert r in s.parts[x];
    }
  }

  lemma AdmitQueues(s: State, m: Move, r: nat)
    requires Core(s) && CanMove(s, m) && m.Admit?
    ensures Queued(Do(s, m), r) <==> m.req == r || Queued(s, r)
  {
    AdmitReady(s, m.req, m.task, m.now, m.slot, m.skip);
    var s1 := Arrived(s, m.req, m.task, m.now);
    assert Waiting(s1, r) <==> Waiting(s, r);
    GrantQueues(s1, m.req, m.slot, m.skip, r);
  }

  lemma AdvanceQueues(s: State, m: Move, r: nat)
    requires Core(s) && CanMove(s, m) && m.Advance?
    ensures Queued(Do(s, m), r) <==> Queued(s, r)
  {
    var p := s.lay.slotPart[m.slot];
    var q, s1 := s.parts[p][0], Dequeue(s, p);
    AdvanceReady(s, m.slot);
    assert q in s.parts[p];
    if Waiting(s, r) && r != q {
      var x :| 0 <= x < |s.parts| && r in s.parts[x];
      assert r in s1.parts[x];
    }
    if Waiting(s1, r) {
      var x :| 0 <= x < |s1.parts| && r in s1.parts[x];
      assert r in s.parts[x];
    }
    GrantQueues(s1, q, m.slot, false, r);
  }

  /** Whoever begins to execute leaves its queue for good. */
  lemma ServeQueues(s: State, r: nat)
    requires Core(s) && CanMove(s, Serve)
    ensures Queued(Do(s, Serve), r) <==> Queued(s, r) && Starter(s, Serve) != Some(r)
  {
    var s', q := ServeHead(s), s.fri[0];
    assert q in s.fri;
    T.PlacesExclude(s, q);
    assert Waiting(s', r) <==> Waiting(s, r);
    if r in s.fri && r != q {
      var k :| 0 <= k < |s.fri| && s.fri[k] == r;
      assert s'.fri[k - 1] == r;
    }
    if r in s'.fri {
      var k :| 0 <= k < |s'.fri| && s'.fri[k] == r;
      assert s.fri[k + 1] == r;
      assert SlotOf(s, s.fri[0]) != SlotOf(s, s.fri[k + 1]);
    }
  }

  lemma FinishQueues(s: State, r: nat)
    requires Core(s) && CanMove(s, Finish)
    ensures Queued(Do(s, Finish), r) <==> Queued(s, r) && s.devcfg != Some(r)
  {
    T.PlacesExclude(s, r);
    assert Waiting(Do(s, Finish), r) <==> Waiting(s, r);
  }

  lemma MoveQueues(s: State, m: Move, r: nat)
    requires Core(s) && CanMove(s, m)
    ensures Queued(Do(s, m), r) <==> Pushes(m, r) || (Queued(s, r) && Starter(s, m) != Some(r))
    ensures Starter(s, m).Some? ==> Queued(s, Starter(s, m).value)
  {
    match m
    case Enqueue(_, _, _) => EnqueueQueues(s, m, r);
    case Admit(_, _, _, _, _) => AdmitQueues(s, m, r);
    case Advance(_) => AdvanceQueues(s, m, r);
    case Serve => ServeQueues(s, r);
    case Finish => FinishQueues(s, r);
    case Free(_, _) => assert Waiting(Do(s, m), r) <==> Waiting(s, r);
  }

  lemma MovePends(s: State, m: Move, r: nat, t: nat)
    requires Core(s) && CanMove(s, m) && !PushesFor(m, t)
    ensures Pends(Do(s, m), r, t) <==> Pends(s, r, t) && Starter(s, m) != Some(r)
  {
    MoveQueues(s, m, r);
    if r < |s.reqs| {
      MoveTasks(s, m, r);
    } else {
      MoveSize(s, m);
    }
    if Pushes(m, r) {
      NowhereIsNotLive(s, r);
    }
  }

  lemma MoveSize(s: State, m: Move)
    requires Shape(s) && s.lay.Valid() && CanMove(s, m)
    ensures |Do(s, m).reqs| == |s.reqs|
  {
  }

  // ------------------------------------------------------------ since a state

  /** With no push for `t` since `s0`: whoever pends, and whoever began to execute
      it, pended then; and whoever pended then still does or began. */
  ghost predicate Since(s0: State, s: State, t: nat) {
    && |s0.hist.starts| <= |s.hist.starts|
    && (forall r: nat | Pends(s, r, t) :: Pends(s0, r, t))
    && (forall k | |s0.hist.starts| <= k < |s.hist.starts| && s.hist.starts[k].wanted == Some(t) ::
          Pends(s0, s.hist.starts[k].req, t))
    && (forall r: nat | Pends(s0, r, t) :: Pends(s, r, t) || Began(s0, s, r, t))
  }

  lemma MoveBegins(s0: State, s: State, m: Move, t: nat)
    requires Core(s) && CanMove(s, m) && !PushesFor(m, t) && Since(s0, s, t)
    ensures s.hist.starts <= Do(s, m).hist.starts
    ensures forall k | |s0.hist.starts| <= k < |Do(s, m).hist.starts| && Do(s, m).hist.starts[k].wanted == Some(t) ::
              Pends(s0, Do(s, m).hist.starts[k].req, t)
    ensures forall r: nat | Starter(s, m) == Some(r) && Pends(s, r, t) :: Began(s0, Do(s, m), r, t)
  {
    var q := Starter(s, m);
    MoveStarts(s, m);
    if q.Some? {
      MoveQueues(s, m, q.value);
      var e := Do(s, m).hist.starts[|s.hist.starts|];
      assert e.req == q.value && e.wanted == s.reqs[q.value].task;
    }
  }

  lemma MoveSince(s0: State, s: State, m: Move, t: nat)
    requires Core(s) && CanMove(s, m) && !PushesFor(m, t) && Since(s0, s, t)
    ensures Since(s0, Do(s, m), t)
  {
    var s' := Do(s, m);
    MoveBegins(s0, s, m, t);
    forall r: nat | Pends(s', r, t) ensures Pends(s0, r, t) {
      MovePends(s, m, r, t);
    }
    forall r: nat | Pends(s0, r, t) ensures Pends(s', r, t) || Began(s0, s', r, t) {
      MovePends(s, m, r, t);
      if Began(s0, s, r, t) {
        BeganStays(s0, s, s', r, t);
      }
    }
  }

  lemma KeepSince(s0: State, s: State, m: Move, t: nat)
    requires Core(s) && CanMove(s, m) && !PushesFor(m, t) && Since(s0, s, t)
    ensures Core(Do(s, m)) && Since(s0, Do(s, m), t)
  {
    MoveKeeps(s, m);
    MoveSince(s0, s, m, t);
  }

  lemma {:induction false} PathSince(s0: State, s: State, ms: seq<Move>, s': State, t: nat)
    requires Core(s) && Path(s, ms, s') && Since(s0, s, t)
    requires forall k | 0 <= k < |ms| :: !PushesFor(ms[k], t)
    ensures Since(s0, s', t)
    decreases |ms|
  {
    if ms != [] {
      KeepSince(s0, s, ms[0], t);
      PathSince(s0, Do(s, ms[0]), ms[1..], s', t);
    }
  }

  lemma NoPushFor(e: Event, ms: seq<Move>, t: nat)
    requires |ms| > 0 && ms[0] == FirstMove(e) && GoesOn(ms, 1) && !(e.Push? && e.task == t)
    ensures forall k | 0 <= k < |ms| :: !PushesFor(ms[k], t)
  {
    forall k | 0 <= k < |ms| ensures !PushesFor(ms[k], t) {
      assert k > 0 ==> ms[k].Serve? || ms[k].Advance?;
    }
  }

  lemma StepSince(s0: State, s: State, e: Event, t: nat)
    requires SchedEvents.Inv(s) && Enabled(s, e) && !(e.Push? && e.task == t) && Since(s0, s, t)
    ensures Since(s0, SchedEvents.Step(s, e), t)
  {
    var ms := StepPath(s, e);
    NoPushFor(e, ms, t);
    PathSince(s0, s, ms, SchedEvents.Step(s, e), t);
  }

  // ------------------------------------------------------- runs after the ban

  ghost predicate SinceBan(y: System, y1: System, t: nat) {
    Whole(y1) && y1.s.lay == y.s.lay && t in y1.s.banned && Since(y.s, y1.s, t)
  }

  ghost function SinceBanOf(y: System, t: nat): (seq<Act>, System) -> bool {
    (acts: seq<Act>, y1: System) => SinceBan(y, y1, t)
  }

  lemma NextSinceBan(y: System, y1: System, a: Act, t: nat)
    requires SinceBan(y, y1, t) && CanAct(y1, a)
    ensures SinceBan(y, Next(y1, a), t)
  {
    NextKeeps(y1, a);
    EventIsEnabled(y1, a);
    var e := EventOf(y1, a);
    if e.Some? {
      StepBans(y1.s, e.value);
      StepSameLayout(y1.s, e.value);
      StepSince(y.s, y1.s, e.value, t);
    }
  }

  lemma SinceBanFollows(y: System, t: nat)
    requires Whole(y) && t in y.s.banned
    ensures Runs.Follows(y, FredSystem.Takes(), SinceBanOf(y, t))
  {
    var p := SinceBanOf(y, t);
    forall acts: seq<Act>, y1: System, a: Act, y2: System | FredSystem.Takes()(y1, a, y2) && p(acts, y1)
      ensures p(acts + [a], y2)
    {
      NextSinceBan(y, y1, a, t);
    }
  }

  lemma RunSinceBan(y: System, acts: seq<Act>, y': System, t: nat)
    requires Whole(y) && t in y.s.banned && Runs.Leads(y, FredSystem.Takes(), acts, y')
    ensures SinceBan(y, y', t)
  {
    SinceBanFollows(y, t);
    assert SinceBanOf(y, t)(acts, y');
  }

  /** After a ban an execution of the hw-task begins only for a request that was
      queued, or being reconfigured for, when the ban was passed. */
  lemma OnlyPendingStart(y: System, acts: seq<Act>, y': System, t: nat, k: nat)
    requires FredSystem.Reachable(y) && t in y.s.banned && Runs.Leads(y, FredSystem.Takes(), acts, y')
    requires |y.s.hist.starts| <= k < |y'.s.hist.starts| && y'.s.hist.starts[k].wanted == Some(t)
    ensures Pends(y.s, y'.s.hist.starts[k].req, t)
  {
    ReachableWhole(y);
    RunSinceBan(y, acts, y', t);
  }

  // -------------------------------------------------------- and exactly when

  /** Some run from `y` executes hw-task `t` anew. */
  ghost predicate RunsAgain(y: System, t: nat) {
    exists acts: seq<Act>, y': System :: Runs.Leads(y, FredSystem.Takes(), acts, y') && NewStart(y, y', t)
  }

  ghost predicate NewStart(y: System, y': System, t: nat) {
    exists k :: |y.s.hist.starts| <= k < |y'.s.hist.starts| && y'.s.hist.starts[k].wanted == Some(t)
  }

  lemma ActOn(y: System, acts: seq<Act>, y1: System, a: Act) returns (y2: System)
    requires Runs.Leads(y, FredSystem.Takes(), acts, y1) && Whole(y1) && CanAct(y1, a)
    ensures y2 == Next(y1, a) && Whole(y2) && Runs.Leads(y, FredSystem.Takes(), acts + [a], y2)
  {
    y2 := Next(y1, a);
    NextKeeps(y1, a);
    assert FredSystem.Takes()(y1, a, y2);
    Runs.LeadsOn(y, FredSystem.Takes(), acts, y1, a, y2);
  }

  /** The hardware alone comes to rest, with no request live. */
  lemma {:induction false} RunsOut(y: System, acts: seq<Act>, y1: System) returns (acts': seq<Act>, y': System)
    requires Runs.Leads(y, FredSystem.Takes(), acts, y1) && Whole(y1) && y1.s.lay.Served()
    ensures Runs.Leads(y, FredSystem.Takes(), acts', y') && Whole(y') && D.LiveCount(y'.s) == 0
    decreases D.Pending(y1.s)
  {
    if D.LiveCount(y1.s) == 0 {
      acts', y' := acts, y1;
    } else {
      var e := D.NeverStuck(y1.s);
      HardwareStep(y1, e);
      var y2 := ActOn(y, acts, y1, Hardware(e));
      acts', y' := RunsOut(y, acts + [Hardware(e)], y2);
    }
  }

  lemma RestPendsNone(s: State, r: nat, t: nat)
    requires SchedEvents.Inv(s) && D.LiveCount(s) == 0
    ensures !Pends(s, r, t)
  {
    if Pends(s, r, t) {
      D.EmptyIffNowhere(s);
      NowhereIsNotLive(s, r);
    }
  }

  lemma PendingStarts(y: System, t: nat, r: nat)
    requires Whole(y) && y.s.lay.Served() && t in y.s.banned && Pends(y.s, r, t)
    ensures RunsAgain(y, t)
  {
    Runs.LeadsStart(y, FredSystem.Takes());
    var acts, y' := RunsOut(y, [], y);
    RunSinceBan(y, acts, y', t);
    RestPendsNone(y'.s, r, t);
    var k :| |y.s.hist.starts| <= k < |y'.s.hist.starts| && IsStart(y'.s.hist.starts[k], r, t);
    assert NewStart(y, y', t);
  }

  /** A banned hw-task never executes again if and only if no request for it is
      queued or being reconfigured for. */
  lemma BanHoldsIff(y: System, t: nat)
    requires FredSystem.Reachable(y) && y.s.lay.Served() && t in y.s.banned
    ensures !RunsAgain(y, t) <==> forall r: nat :: !Pends(y.s, r, t)
  {
    ReachableWhole(y);
    if r: nat :| Pends(y.s, r, t) {
      PendingStarts(y, t, r);
    } else if RunsAgain(y, t) {
      var acts: seq<Act>, y': System :| Runs.Leads(y, FredSystem.Takes(), acts, y') && NewStart(y, y', t);
      var k: nat :| |y.s.hist.starts| <= k < |y'.s.hist.starts| && y'.s.hist.starts[k].wanted == Some(t);
      OnlyPendingStart(y, acts, y', t, k);
    }
  }

  // ------------------------------------------------------------- such a state

  /** A client that has bound one hw-task and asked for its acceleration. */
  function Asking(id: nat, task: nat): Peer {
    Peer(Out, Cli(CliAccel, [id]), Srv(ClientReady, [task]), true, [RunMsg(id)], [])
  }

  /** Peer `r` becomes `p`. */
  function WithPeer(y: System, r: nat, p: Peer): System
    requires r < |y.peers|
  {
    y.(peers := y.peers[r := p])
  }

  lemma ClientActs(y: System, r: nat, c: FredSystem.Step)
    requires Whole(y) && r < |y.peers| && ClientCan(y.peers[r], c)
    ensures CanAct(y, Client(r, c)) && Next(y, Client(r, c)) == WithPeer(y, r, ClientNext(y.peers[r], c))
  {
  }

  lemma ServerActs(y: System, r: nat)
    requires Whole(y) && r < |y.peers| && y.peers[r].open && y.peers[r].up != [] && !Verdict(y, r, true).1.PushTask?
    ensures var a, (v, action) := Handle(r, y.s.clock, None, true), Verdict(y, r, true);
            CanAct(y, a) && Next(y, a) == WithPeer(y, r, ServerNext(y.peers[r], v, action))
  {
  }

  lemma ClientOn(y0: System, acts: seq<Act>, y: System, r: nat, c: FredSystem.Step)
    returns (acts': seq<Act>, y': System)
    requires Runs.Leads(y0, FredSystem.Takes(), acts, y) && Whole(y) && r < |y.peers| && ClientCan(y.peers[r], c)
    ensures Runs.Leads(y0, FredSystem.Takes(), acts', y') && Whole(y')
    ensures y' == WithPeer(y, r, ClientNext(y.peers[r], c))
  {
    ClientActs(y, r, c);
    y' := ActOn(y0, acts, y, Client(r, c));
    acts' := acts + [Client(r, c)];
  }

  lemma ServerOn(y0: System, acts: seq<Act>, y: System, r: nat) returns (acts': seq<Act>, y': System)
    requires Runs.Leads(y0, FredSystem.Takes(), acts, y) && Whole(y) && r < |y.peers|
    requires y.peers[r].open && y.peers[r].up != [] && !Verdict(y, r, true).1.PushTask?
    ensures Runs.Leads(y0, FredSystem.Takes(), acts', y') && Whole(y')
    ensures y' == WithPeer(y, r, ServerNext(y.peers[r], Verdict(y, r, true).0, Verdict(y, r, true).1))
  {
    ServerActs(y, r);
    var a := Handle(r, y.s.clock, None, true);
    y' := ActOn(y0, acts, y, a);
    acts' := acts + [a];
  }

  lemma Connect(y0: System, acts: seq<Act>, y: System, r: nat) returns (acts': seq<Act>, y': System)
    requires Runs.Leads(y0, FredSystem.Takes(), acts, y) && Whole(y) && r < |y.peers| && y.peers[r] == NewPeer()
    ensures Runs.Leads(y0, FredSystem.Takes(), acts', y') && Whole(y')
    ensures y' == WithPeer(y, r, Peer(Out, Cli(CliInit, []), Srv(ClientReady, []), true, [], []))
  {
    acts', y' := ClientOn(y0, acts, y, r, FredSystem.Init);
    acts', y' := ServerOn(y0, acts', y', r);
    acts', y' := ClientOn(y0, acts', y', r, Receive(true));
  }

  /** Then it asks for the hw-task named `id` to be bound, and is answered. */
  lemma AskBuffers(y0: System, acts: seq<Act>, y: System, r: nat, id: nat, task: nat)
    returns (acts': seq<Act>, y': System)
    requires Runs.Leads(y0, FredSystem.Takes(), acts, y) && Whole(y) && r < |y.peers|
    requires y.peers[r] == Peer(Out, Cli(CliInit, []), Srv(ClientReady, []), true, [], [])
    requires Lookup(y.ids, id) == Some(task) && task !in y.s.banned
    ensures Runs.Leads(y0, FredSystem.Takes(), acts', y') && Whole(y')
    ensures y' == WithPeer(y, r, Peer(Binding(id), Cli(CliInit, []), Srv(ClientReady, [task]), true, [], [Buffs]))
  {
    acts', y' := ClientOn(y0, acts, y, r, FredSystem.Bind(id));
    assert y'.peers[r].up == [BindMsg(id)];
    acts', y' := ServerOn(y0, acts', y', r);
    assert y'.peers[r].srv.tasks == [task] && y'.peers[r].down == [Buffs] && y'.peers[r].up == [];
  }

  /** And asks for its acceleration. */
  lemma BindAndAsk(y0: System, acts: seq<Act>, y: System, r: nat, id: nat, task: nat)
    returns (acts': seq<Act>, y': System)
    requires Runs.Leads(y0, FredSystem.Takes(), acts, y) && Whole(y) && r < |y.peers|
    requires y.peers[r] == Peer(Binding(id), Cli(CliInit, []), Srv(ClientReady, [task]), true, [], [Buffs])
    ensures Runs.Leads(y0, FredSystem.Takes(), acts', y') && Whole(y') && y' == WithPeer(y, r, Asking(id, task))
  {
    acts', y' := ClientOn(y0, acts, y, r, Receive(true));
    assert y'.peers[r].cli == Cli(CliIdle, [id]) && y'.peers[r].down == [];
    acts', y' := ClientOn(y0, acts', y', r, Accel(id));
    assert y'.peers[r].up == [RunMsg(id)];
  }

  lemma Ask(y0: System, acts: seq<Act>, y: System, r: nat, id: nat, task: nat) returns (acts': seq<Act>, y': System)
    requires Runs.Leads(y0, FredSystem.Takes(), acts, y) && Whole(y) && r < |y.peers| && y.peers[r] == NewPeer()
    requires Lookup(y.ids, id) == Some(task) && task !in y.s.banned
    ensures Runs.Leads(y0, FredSystem.Takes(), acts', y') && Whole(y') && y' == WithPeer(y, r, Asking(id, task))
  {
    acts', y' := Connect(y0, acts, y, r);
    acts', y' := AskBuffers(y0, acts', y', r, id, task);
    acts', y' := BindAndAsk(y0, acts', y', r, id, task);
  }

  /** The server pushes what it asked for. */
  lemma PushAsked(y0: System, acts: seq<Act>, y: System, r: nat, id: nat, task: nat, pick: Option<Pick>)
    returns (acts': seq<Act>, y': System)
    requires Runs.Leads(y0, FredSystem.Takes(), acts, y) && Whole(y) && r < |y.peers| && y.peers[r] == Asking(id, task)
    requires task < |y.ids| && y.ids[task] == id && task !in y.s.banned
    requires Enabled(y.s, Push(r, task, y.s.clock, pick))
    ensures Runs.Leads(y0, FredSystem.Takes(), acts', y') && Whole(y')
    ensures y'.s == SchedEvents.Step(y.s, Push(r, task, y.s.clock, pick)) && y'.ids == y.ids && |y'.peers| == |y.peers|
    ensures forall q: nat | q < |y.peers| && q != r :: y'.peers[q] == y.peers[q]
  {
    AskedIsPushed(y, r, id, task, pick);
    var a := Handle(r, y.s.clock, pick, true);
    y' := ActOn(y0, acts, y, a);
    acts' := acts + [a];
  }

  lemma AskedIsPushed(y: System, r: nat, id: nat, task: nat, pick: Option<Pick>)
    requires Whole(y) && r < |y.peers| && y.peers[r] == Asking(id, task)
    requires task < |y.ids| && y.ids[task] == id && task !in y.s.banned
    requires Enabled(y.s, Push(r, task, y.s.clock, pick))
    ensures var a := Handle(r, y.s.clock, pick, true);
      && CanAct(y, a)
      && var y' := Next(y, a);
         && y'.s == SchedEvents.Step(y.s, Push(r, task, y.s.clock, pick)) && y'.ids == y.ids && |y'.peers| == |y.peers|
         && forall q: nat | q < |y.peers| && q != r :: y'.peers[q] == y.peers[q]
  {
    assert Find(y.ids, [task], id) == Some(task);
    assert Verdict(y, r, true).1 == PushTask(task);
    EventIsEnabled(y, Handle(r, y.s.clock, pick, true));
  }

  lemma HardwareOn(y0: System, acts: seq<Act>, y: System, e: Event) returns (acts': seq<Act>, y': System)
    requires Runs.Leads(y0, FredSystem.Takes(), acts, y) && Whole(y) && CanAct(y, Hardware(e))
    ensures Runs.Leads(y0, FredSystem.Takes(), acts', y') && Whole(y') && OnlyTold(y, y')
    ensures y'.s == SchedEvents.Step(y.s, e)
  {
    HardwareTells(y, e);
    y' := ActOn(y0, acts, y, Hardware(e));
    acts' := acts + [Hardware(e)];
  }

  /** Two clients, both asking for one hw-task. */
  lemma TwoAsk(lay: Layout, ids: seq<nat>, clients: nat, now: int, id: nat, task: nat)
    returns (y0: System, acts: seq<Act>, y: System)
    requires lay.Valid() && |ids| == |lay.taskPart| && clients >= 2 && Lookup(ids, id) == Some(task)
    ensures y0 == Boot(lay, ids, clients, now) && Runs.Leads(y0, FredSystem.Takes(), acts, y) && Whole(y)
    ensures y.ids == ids && y.s == FredState.Init(lay, clients, now) && |y.peers| == clients
    ensures y.peers[0] == y.peers[1] == Asking(id, task)
  {
    y0 := Boot(lay, ids, clients, now);
    BootWhole(lay, ids, clients, now);
    Runs.LeadsStart(y0, FredSystem.Takes());
    acts, y := Ask(y0, [], y0, 0, id, task);
    acts, y := Ask(y0, acts, y, 1, id, task);
  }

  /** The first request is pushed and executes. */
  lemma FirstRuns(y0: System, acts0: seq<Act>, y1: System, task: nat, e: Event) returns (acts: seq<Act>, y: System)
    requires Runs.Leads(y0, FredSystem.Takes(), acts0, y1) && Whole(y1) && |y1.peers| >= 2 && task < |y1.ids|
    requires y1.peers[0] == Asking(y1.ids[task], task) && task !in y1.s.banned
    requires e.Push? && e == Push(0, task, y1.s.clock, e.pick) && Enabled(y1.s, e)
    requires Enabled(SchedEvents.Step(y1.s, e), ProgramDone)
    ensures Runs.Leads(y0, FredSystem.Takes(), acts, y) && Whole(y)
    ensures SchedEvents.Inv(SchedEvents.Step(y1.s, e))
    ensures y.s == SchedEvents.Step(SchedEvents.Step(y1.s, e), ProgramDone)
    ensures y.ids == y1.ids && |y.peers| == |y1.peers| && y.peers[1] == y1.peers[1].(down := y.peers[1].down)
  {
    acts, y := PushAsked(y0, acts0, y1, 0, y1.ids[task], task, e.pick);
    acts, y := HardwareOn(y0, acts, y, ProgramDone);
  }

  /** Both requests are pushed; the first executes, the second waits for the slot. */
  lemma BothPushed(y0: System, acts0: seq<Act>, y1: System, task: nat, i: nat) returns (acts: seq<Act>, y: System)
    requires Runs.Leads(y0, FredSystem.Takes(), acts0, y1) && Whole(y1) && |y1.peers| >= 2 && task < |y1.ids|
    requires y1.peers[0] == y1.peers[1] == Asking(y1.ids[task], task) && K.Sole(y1.s.lay, task, i)
    requires y1.s == FredState.Init(y1.s.lay, |y1.peers|, y1.s.clock)
    ensures Runs.Leads(y0, FredSystem.Takes(), acts, y) && Whole(y) && K.Crowded(y.s, task, i)
  {
    var now := y1.s.clock;
    var s0, s1, s2, s3 := K.CrowdStates(y1.s.lay, |y1.peers|, now, task, i);
    acts, y := FirstRuns(y0, acts0, y1, task, Push(0, task, now, Some(Pick(i, false))));
    NoBansYet(s0, task, now, i);
    StillAsks(y, s2, y1.ids[task], task);
    acts, y := PushAsked(y0, acts, y, 1, y1.ids[task], task, None);
  }

  /** A client whose RUN the server has not read has not been told anything. */
  lemma StillAsks(y: System, s: State, id: nat, task: nat)
    requires Whole(y) && y.s == s && |y.peers| >= 2 && y.peers[1] == Asking(id, task).(down := y.peers[1].down)
    ensures y.peers[1] == Asking(id, task)
  {
    assert PeerOk(y.peers[1], y.ids, !Nowhere(y.s, 1));
  }

  lemma NoBansYet(s0: State, task: nat, now: int, i: nat)
    requires SchedEvents.Inv(s0) && Enabled(s0, Push(0, task, now, Some(Pick(i, false))))
    requires SchedEvents.Inv(SchedEvents.Step(s0, Push(0, task, now, Some(Pick(i, false)))))
    requires Enabled(SchedEvents.Step(s0, Push(0, task, now, Some(Pick(i, false)))), ProgramDone)
    ensures var s1 := SchedEvents.Step(s0, Push(0, task, now, Some(Pick(i, false))));
            SchedEvents.Step(s1, ProgramDone).banned == s0.banned
  {
    StepBans(s0, Push(0, task, now, Some(Pick(i, false))));
    StepBans(SchedEvents.Step(s0, Push(0, task, now, Some(Pick(i, false)))), ProgramDone);
  }

  /** When the first overruns its hw-task is banned, and the second goes to the port. */
  lemma OverrunPends(s: State, task: nat, i: nat)
    requires K.Crowded(s, task, i)
    ensures Enabled(s, SlotTimeout(i))
    ensures task in SchedEvents.Step(s, SlotTimeout(i)).banned && Pends(SchedEvents.Step(s, SlotTimeout(i)), 1, task)
  {
    HandlerReady(s, SlotDone(i));
    StepBans(s, SlotTimeout(i));
    K.PulledIsProgrammed(s, i, Overrun);
  }

  /** A reachable system in which a hw-task has been banned and executes again: in
      every layout where one slot alone serves it, with two clients or more. */
  lemma BannedRunsAgain(lay: Layout, ids: seq<nat>, clients: nat, now: int, id: nat, task: nat, i: nat)
    returns (y: System)
    requires K.Sole(lay, task, i) && lay.Served() && |ids| == |lay.taskPart| && clients >= 2
    requires Lookup(ids, id) == Some(task)
    ensures FredSystem.Reachable(y) && task in y.s.banned && RunsAgain(y, task)
  {
    var y0, acts;
    y0, acts, y := TwoAsk(lay, ids, clients, now, id, task);
    acts, y := BothPushed(y0, acts, y, task, i);
    OverrunPends(y.s, task, i);
    acts, y := HardwareOn(y0, acts, y, SlotTimeout(i));
    assert FredSystem.Boots()(y0);
    Runs.LeadsIsReachable(FredSystem.Boots(), y0, FredSystem.Takes(), acts, y);
    SameLayout(lay, ids, clients, now, acts, y);
    PendingStarts(y, task, 1);
  }

  ghost function LaidOut(lay: Layout): (seq<Act>, System) -> bool {
    (acts: seq<Act>, y: System) => Whole(y) && y.s.lay == lay
  }

  /** No act changes the layout. */
  lemma SameLayout(lay: Layout, ids: seq<nat>, clients: nat, now: int, acts: seq<Act>, y: System)
    requires lay.Valid() && |ids| == |lay.taskPart|
    requires Runs.Leads(Boot(lay, ids, clients, now), FredSystem.Takes(), acts, y)
    ensures y.s.lay == lay
  {
    BootWhole(lay, ids, clients, now);
    var p := LaidOut(lay);
    forall es: seq<Act>, y1: System, a: Act, y2: System | FredSystem.Takes()(y1, a, y2) && p(es, y1)
      ensures p(es + [a], y2)
    {
      NextKeeps(y1, a);
      EventIsEnabled(y1, a);
      if EventOf(y1, a).Some? {
        StepSameLayout(y1.s, EventOf(y1, a).value);
      }
    }
    assert p(acts, y);
  }
}
