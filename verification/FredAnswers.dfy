/** What an answer means: the life of an acceleration from the client's RUN to the
    answer it receives, and that an answer says truly how the execution ended. */
module FredAnswers {
  import opened Wrappers
  import opened FredState
  import opened SchedInv
  import opened SchedEvents
  import opened SchedMoves
  import opened SchedHistory
  import opened SchedNotices
  import opened SchedStarts
  import opened FredClient
  import opened FredSystem
  import D = SchedDrain
  import F = FredFabric
  import Runs

  // ------------------------------------------------------ stages of a request

  /** Where the acceleration of a client in CLI_ACCEL stands: its RUN is on its way,
      it waits in the scheduler for an execution of a hw-task, it executes it, or
      its answer is on its way. */
  datatype Stage = Resting | Asked(id: nat) | Queued(task: nat) | Running(task: nat) | Answered(reply: Reply)

  ghost function StageOf(y: System, r: nat): Stage
    requires r < |y.peers|
  {
    var p := y.peers[r];
    if p.cli.state != CliAccel then Resting
    else if p.up != [] && p.up[0].RunMsg? then Asked(p.up[0].id)
    else if p.down != [] then Answered(p.down[0])
    else
      var t := if r < |y.s.reqs| && y.s.reqs[r].task.Some? then y.s.reqs[r].task.value else 0;
      if Executing(y.s, r) then Running(t) else Queued(t)
  }

  /** Whether act `a` may take the acceleration of client `r` from one stage to the
      next, `y` and `y'` being the states before and after it. */
  ghost predicate Advances(y: System, a: Act, y': System, r: nat, st: Stage, st': Stage)
    requires r < |y.peers|
  {
    match st
    case Resting => st' == Resting || (st'.Asked? && a == Client(r, Accel(st'.id)) && y.peers[r].cli.state == CliIdle)
    case Asked(id) =>
      || st' == st
      || (a.Handle? && a.r == r &&
            (match st'
             case Answered(m) => m == ErrorMsg && Refusable(y, r, id)
             case Queued(t) => Grantable(y, r, id, t)
             case Running(t) => Grantable(y, r, id, t) && Began(y.s, y'.s, r, t)
             case _ => false))
    case Queued(t) => st' == st || (st' == Running(t) && Began(y.s, y'.s, r, t))
    case Running(t) =>
      || st' == st
      || (st' == Answered(DoneMsg) && a.Hardware? && a.e.SlotDone? && EndsIt(y.s, a.e, r))
      || (st' == Answered(OverrunMsg) && a.Hardware? && a.e.SlotTimeout? && EndsIt(y.s, a.e, r))
    case Answered(m) => st' == st || (st' == Resting && a.Client? && a.r == r && a.step.Receive?)
  }

  /** The server has bound hw-task `t` for client `r` under that identifier, and it
      is not banned. */
  predicate Grantable(y: System, r: nat, id: nat, t: nat)
    requires r < |y.peers|
  {
    t in y.peers[r].srv.tasks && t < |y.ids| && y.ids[t] == id && t !in y.s.banned
  }

  /** No hw-task is bound under the identifier, or a banned one is: with unique
      identifiers, none may be granted. */
  ghost predicate Refusable(y: System, r: nat, id: nat)
    requires r < |y.peers|
  {
    forall t: nat | Grantable(y, r, id, t) ::
      exists u: nat :: u in y.peers[r].srv.tasks && u < |y.ids| && y.ids[u] == id && u in y.s.banned
  }

  lemma CallAdvances(y: System, a: Act, r: nat)
    requires Whole(y) && CanAct(y, a) && r < |y.peers| && a.Client? && a.r == r
    ensures |Next(y, a).peers| == |y.peers| && Advances(y, a, Next(y, a), r, StageOf(y, r), StageOf(Next(y, a), r))
  {
    assert PeerOk(y.peers[r], y.ids, !Nowhere(y.s, r));
    assert Next(y, a).peers[r] == ClientNext(y.peers[r], a.step);
  }

  /** A request is live exactly while it is queued or executes. */
  lemma LiveStages(y: System, r: nat)
    requires Whole(y) && r < |y.peers|
    ensures !Nowhere(y.s, r) <==> StageOf(y, r).Queued? || StageOf(y, r).Running?
    ensures Executing(y.s, r) ==> StageOf(y, r).Running?
  {
    assert PeerOk(y.peers[r], y.ids, !Nowhere(y.s, r));
    NowhereIsNotLive(y.s, r);
  }

  /** What an event that does not touch it does to a request. */
  ghost predicate Drifts(s: State, s': State, r: nat) {
    && |s'.reqs| == |s.reqs| && (r < |s.reqs| ==> s'.reqs[r].task == s.reqs[r].task)
    && (Nowhere(s', r) <==> Nowhere(s, r)) && BegunSince(s, s', r) && (Executing(s, r) ==> Executing(s', r))
  }

  lemma EventDrifts(s: State, e: Event, r: nat)
    requires SchedEvents.Inv(s) && Conserved(s) && Enabled(s, e) && r < |s.reqs|
    requires !(e.Push? && e.req == r) && !EndsIt(s, e, r)
    ensures Drifts(s, SchedEvents.Step(s, e), r)
  {
    StepLive(s, e, r);
    F.EventTasks(s, e, r);
    StepBegins(s, e, r);
    StaysExecuting(s, e, r);
  }

  lemma DriftAdvances(y: System, a: Act, y': System, r: nat)
    requires Whole(y) && Whole(y') && r < |y.peers| == |y'.peers| && y'.peers[r] == y.peers[r] && Drifts(y.s, y'.s, r)
    ensures Advances(y, a, y', r, StageOf(y, r), StageOf(y', r))
  {
    LiveStages(y, r);
    LiveStages(y', r);
  }

  lemma SameDrifts(s: State, r: nat)
    ensures Drifts(s, s, r)
  {
  }

  /** An act of somebody else. */
  lemma OtherAdvances(y: System, a: Act, r: nat)
    requires Whole(y) && CanAct(y, a) && r < |y.peers| && !a.Hardware? && a.r != r
    ensures |Next(y, a).peers| == |y.peers| && Advances(y, a, Next(y, a), r, StageOf(y, r), StageOf(Next(y, a), r))
  {
    NextKeeps(y, a);
    EventIsEnabled(y, a);
    var e := EventOf(y, a);
    if e.Some? {
      PushIsNoEnd(y.s, e.value, r);
      EventDrifts(y.s, e.value, r);
    } else {
      SameDrifts(y.s, r);
    }
    OtherPeer(y, a, r);
    DriftAdvances(y, a, Next(y, a), r);
  }

  lemma PushIsNoEnd(s: State, e: Event, r: nat)
    requires e.Push?
    ensures !EndsIt(s, e, r)
  {
  }

  lemma OtherPeer(y: System, a: Act, r: nat)
    requires Whole(y) && CanAct(y, a) && r < |y.peers| && !a.Hardware? && a.r != r
    ensures |Next(y, a).peers| == |y.peers| && Next(y, a).peers[r] == y.peers[r]
  {
  }

  lemma HangUpAdvances(y: System, r: nat)
    requires Whole(y) && CanAct(y, HangUp(r))
    ensures |Next(y, HangUp(r)).peers| == |y.peers|
    ensures Advances(y, HangUp(r), Next(y, HangUp(r)), r, StageOf(y, r), StageOf(Next(y, HangUp(r)), r))
  {
    assert PeerOk(y.peers[r], y.ids, !Nowhere(y.s, r));
  }

  lemma EndAdvances(y: System, e: Event, r: nat)
    requires Whole(y) && CanAct(y, Hardware(e)) && r < |y.peers| && EndsIt(y.s, e, r)
    ensures |Next(y, Hardware(e)).peers| == |y.peers|
    ensures Advances(y, Hardware(e), Next(y, Hardware(e)), r, StageOf(y, r), StageOf(Next(y, Hardware(e)), r))
  {
    var y' := Next(y, Hardware(e));
    HardwareAnswers(y, e, r);
    HardwareTells(y, e);
    assert Executing(y.s, r);
    LiveStages(y, r);
    assert PeerOk(y.peers[r], y.ids, !Nowhere(y.s, r));
    assert y'.peers[r] == y.peers[r].(down := y'.peers[r].down);
  }

  lemma HardwareAdvances(y: System, e: Event, r: nat)
    requires Whole(y) && CanAct(y, Hardware(e)) && r < |y.peers|
    ensures |Next(y, Hardware(e)).peers| == |y.peers|
    ensures Advances(y, Hardware(e), Next(y, Hardware(e)), r, StageOf(y, r), StageOf(Next(y, Hardware(e)), r))
  {
    if EndsIt(y.s, e, r) {
      EndAdvances(y, e, r);
    } else {
      var y' := Next(y, Hardware(e));
      NextKeeps(y, Hardware(e));
      HardwareAnswers(y, e, r);
      HardwareTells(y, e);
      EventDrifts(y.s, e, r);
      assert y'.peers[r] == y.peers[r].(down := y.peers[r].down);
      DriftAdvances(y, Hardware(e), y', r);
    }
  }

  /** The server reads the client's own message. */
  lemma HandleAdvances(y: System, a: Act, r: nat)
    requires Whole(y) && CanAct(y, a) && a.Handle? && a.r == r
    ensures |Next(y, a).peers| == |y.peers| && Advances(y, a, Next(y, a), r, StageOf(y, r), StageOf(Next(y, a), r))
  {
    if y.peers[r].cli.state == CliAccel {
      RunAdvances(y, a, r);
    } else {
      OtherStages(y, a, r);
    }
  }

  lemma OtherStages(y: System, a: Act, r: nat)
    requires Whole(y) && CanAct(y, a) && a.Handle? && a.r == r && y.peers[r].cli.state != CliAccel
    ensures |Next(y, a).peers| == |y.peers| && StageOf(y, r) == StageOf(Next(y, a), r) == Resting
  {
  }

  lemma RunAdvances(y: System, a: Act, r: nat)
    requires Whole(y) && CanAct(y, a) && a.Handle? && a.r == r && y.peers[r].cli.state == CliAccel
    ensures |Next(y, a).peers| == |y.peers| && Advances(y, a, Next(y, a), r, StageOf(y, r), StageOf(Next(y, a), r))
  {
    assert PeerOk(y.peers[r], y.ids, !Nowhere(y.s, r));
    var action := Verdict(y, r, a.alloc).1;
    if action.PushTask? {
      GrantAdvances(y, a, r, action.task);
    } else {
      RefusalAdvances(y, a, r);
    }
  }

  lemma RefusalAdvances(y: System, a: Act, r: nat)
    requires Whole(y) && CanAct(y, a) && a.Handle? && a.r == r && y.peers[r].cli.state == CliAccel
    requires !Verdict(y, r, a.alloc).1.PushTask?
    ensures |Next(y, a).peers| == |y.peers| && Advances(y, a, Next(y, a), r, StageOf(y, r), StageOf(Next(y, a), r))
  {
    assert PeerOk(y.peers[r], y.ids, !Nowhere(y.s, r));
    var v, id := y.peers[r].srv, y.peers[r].up[0].id;
    var found := Find(y.ids, v.tasks, id);
    forall t: nat | Grantable(y, r, id, t)
      ensures exists u: nat :: u in v.tasks && u < |y.ids| && y.ids[u] == id && u in y.s.banned
    {
      var k :| 0 <= k < |v.tasks| && v.tasks[k] == t;
      assert found.Some? && found.value in y.s.banned;
    }
    assert Next(y, a).peers[r].up == [] && Next(y, a).peers[r].down == [ErrorMsg];
  }

  /** What a push does to the request pushed. */
  lemma PushDoes(s: State, e: Event)
    requires SchedEvents.Inv(s) && Conserved(s) && Enabled(s, e) && e.Push?
    ensures var s', r := SchedEvents.Step(s, e), e.req;
      && r < |s'.reqs| == |s.reqs| && s'.reqs[r].task == Some(e.task) && !Nowhere(s', r)
      && !Executing(s, r) && BegunSince(s, s', r)
  {
    NowhereIsNotLive(s, e.req);
    StepLive(s, e, e.req);
    F.EventTasks(s, e, e.req);
    StepBegins(s, e, e.req);
  }

  lemma GrantPeer(y: System, a: Act, r: nat, t: nat)
    requires Whole(y) && CanAct(y, a) && a.Handle? && a.r == r && y.peers[r].cli.state == CliAccel
    requires Verdict(y, r, a.alloc).1 == PushTask(t)
    ensures StageOf(y, r).Asked? && Grantable(y, r, StageOf(y, r).id, t)
    ensures |Next(y, a).peers| == |y.peers| && Next(y, a).peers[r].cli.state == CliAccel
    ensures Next(y, a).peers[r].up == [] && Next(y, a).peers[r].down == []
  {
    assert PeerOk(y.peers[r], y.ids, !Nowhere(y.s, r));
  }

  lemma GrantAdvances(y: System, a: Act, r: nat, t: nat)
    requires Whole(y) && CanAct(y, a) && a.Handle? && a.r == r && y.peers[r].cli.state == CliAccel
    requires Verdict(y, r, a.alloc).1 == PushTask(t)
    ensures |Next(y, a).peers| == |y.peers| && Advances(y, a, Next(y, a), r, StageOf(y, r), StageOf(Next(y, a), r))
  {
    GrantPeer(y, a, r, t);
    EventIsEnabled(y, a);
    PushDoes(y.s, Push(r, t, a.now, a.pick));
  }

  /** The life of an acceleration: no act takes it elsewhere. */
  lemma NextAdvances(y: System, a: Act, r: nat)
    requires Whole(y) && CanAct(y, a) && r < |y.peers|
    ensures |Next(y, a).peers| == |y.peers| && Advances(y, a, Next(y, a), r, StageOf(y, r), StageOf(Next(y, a), r))
  {
    match a
    case Hardware(e) => HardwareAdvances(y, e, r);
    case _ =>
      if a.r != r {
        OtherAdvances(y, a, r);
      } else if a.Client? {
        CallAdvances(y, a, r);
      } else if a.Handle? {
        HandleAdvances(y, a, r);
      } else {
        HangUpAdvances(y, r);
      }
  }

  lemma SameSize(y: System, a: Act)
    requires Whole(y) && CanAct(y, a)
    ensures Next(y, a).ids == y.ids && |Next(y, a).peers| == |y.peers|
  {
  }

  // ------------------------------------------------------------ whole lives

  /** Act `a` has sent the last RUN of client `r`, for `id`, and the client has been
      in CLI_ACCEL ever since, up to state `n`. */
  ghost predicate SentAt(ys: seq<System>, acts: seq<Act>, n: nat, r: nat, a: nat, id: nat)
    requires n <= |acts| < |ys|
  {
    && a < n && acts[a] == Client(r, Accel(id)) && r < |ys[a].peers| && ys[a].peers[r].cli.state == CliIdle
    && forall k | a < k <= n :: r < |ys[k].peers| && ys[k].peers[r].cli.state == CliAccel
  }

  /** With act `b` an execution of hw-task `t` began for client `r`. */
  ghost predicate BeganAt(ys: seq<System>, acts: seq<Act>, n: nat, r: nat, b: nat, t: nat)
    requires n <= |acts| < |ys|
  {
    b < n && Began(ys[b].s, ys[b + 1].s, r, t)
  }

  /** Act `c` is the event that ended the execution of `r`, by completion or not. */
  ghost predicate EndedAt(ys: seq<System>, acts: seq<Act>, n: nat, r: nat, c: nat, done: bool)
    requires n <= |acts| < |ys|
  {
    && c < n && acts[c].Hardware? && EndsIt(ys[c].s, acts[c].e, r)
    && (if done then acts[c].e.SlotDone? else acts[c].e.SlotTimeout?)
  }

  /** With act `h` the server refused it. */
  ghost predicate RefusedAt(ys: seq<System>, acts: seq<Act>, n: nat, r: nat, h: nat, id: nat)
    requires n <= |acts| < |ys|
  {
    h < n && acts[h].Handle? && acts[h].r == r && r < |ys[h].peers| && Refusable(ys[h], r, id)
  }

  /** When it was sent, began and ended; what it named and what it was. */
  datatype Marks = Marks(a: nat, b: nat, c: nat, id: nat, t: nat)

  /** How the acceleration of client `r` came to the stage it is in. */
  ghost predicate Tale(ys: seq<System>, acts: seq<Act>, n: nat, r: nat, k: Marks)
    requires n <= |acts| < |ys|
  {
    && r < |ys[n].peers|
    && var st := StageOf(ys[n], r); var ids := ys[n].ids;
       && (st != Resting ==> SentAt(ys, acts, n, r, k.a, k.id))
       && (st.Asked? ==> st.id == k.id)
       && (st.Queued? || st.Running? ==> st.task == k.t)
       && (st.Queued? || st.Running? || (st.Answered? && st.reply != ErrorMsg) ==> k.t < |ids| && ids[k.t] == k.id)
       && (st.Running? || (st.Answered? && st.reply != ErrorMsg) ==> k.a < k.b && BeganAt(ys, acts, n, r, k.b, k.t))
       && (st.Answered? ==>
             || (st.reply == ErrorMsg && k.a < k.b && RefusedAt(ys, acts, n, r, k.b, k.id))
             || (st.reply == DoneMsg && k.b < k.c && EndedAt(ys, acts, n, r, k.c, true))
             || (st.reply == OverrunMsg && k.b < k.c && EndedAt(ys, acts, n, r, k.c, false)))
  }

  lemma SentStays(ys: seq<System>, acts: seq<Act>, n: nat, r: nat, a: nat, id: nat)
    requires n + 1 <= |acts| < |ys| && SentAt(ys, acts, n, r, a, id)
    requires r < |ys[n + 1].peers| && ys[n + 1].peers[r].cli.state == CliAccel
    ensures SentAt(ys, acts, n + 1, r, a, id)
  {
  }

  /** One act more. */
  lemma TaleOn(ys: seq<System>, acts: seq<Act>, n: nat, r: nat, k: Marks) returns (k': Marks)
    requires n + 1 <= |acts| < |ys| && Tale(ys, acts, n, r, k) && r < |ys[n + 1].peers| && ys[n + 1].ids == ys[n].ids
    requires Advances(ys[n], acts[n], ys[n + 1], r, StageOf(ys[n], r), StageOf(ys[n + 1], r))
    ensures Tale(ys, acts, n + 1, r, k')
  {
    var st, st' := StageOf(ys[n], r), StageOf(ys[n + 1], r);
    k' := k;
    if st == Resting {
      k' := if st'.Asked? then k.(a := n, id := st'.id) else k;
    } else if st' != Resting {
      SentStays(ys, acts, n, r, k.a, k.id);
      if st.Asked? {
        k' := if st'.Queued? then k.(t := st'.task)
              else if st'.Running? then k.(t := st'.task, b := n)
              else if st'.Answered? then k.(b := n) else k;
      } else if st.Queued? && st'.Running? {
        k' := k.(b := n);
      } else if st.Running? && st'.Answered? {
        k' := k.(c := n);
      }
    }
  }

  /** Every act of the trace advances the acceleration of client `r`. */
  ghost predicate Goes(ys: seq<System>, acts: seq<Act>, n: nat, r: nat)
    requires n < |acts| < |ys|
  {
    && r < |ys[n].peers| && r < |ys[n + 1].peers| && ys[n + 1].ids == ys[n].ids
    && Advances(ys[n], acts[n], ys[n + 1], r, StageOf(ys[n], r), StageOf(ys[n + 1], r))
  }

  lemma TakeGoes(y: System, a: Act, y': System, r: nat)
    requires FredSystem.Takes()(y, a, y') && r < |y.peers|
    ensures r < |y'.peers| && y'.ids == y.ids && Advances(y, a, y', r, StageOf(y, r), StageOf(y', r))
  {
    SameSize(y, a);
    NextAdvances(y, a, r);
  }

  lemma {:induction false} TraceGoes(ys: seq<System>, acts: seq<Act>, n: nat, r: nat)
    requires Runs.Trace(FredSystem.Takes(), ys, acts) && n <= |acts| && r < |ys[0].peers|
    ensures r < |ys[n].peers| && forall k | 0 <= k < n :: Goes(ys, acts, k, r)
  {
    if n > 0 {
      TraceGoes(ys, acts, n - 1, r);
      TakeGoes(ys[n - 1], acts[n - 1], ys[n], r);
    }
  }

  lemma {:induction false} TaleUpTo(ys: seq<System>, acts: seq<Act>, n: nat, r: nat) returns (k: Marks)
    requires n <= |acts| < |ys| && forall k | 0 <= k < n :: Goes(ys, acts, k, r)
    requires r < |ys[0].peers| && ys[0].peers[r].cli.state != CliAccel
    ensures Tale(ys, acts, n, r, k)
  {
    if n == 0 {
      k := Marks(0, 0, 0, 0, 0);
    } else {
      k := TaleUpTo(ys, acts, n - 1, r);
      assert Goes(ys, acts, n - 1, r);
      k := TaleOn(ys, acts, n - 1, r, k);
    }
  }

  // ---------------------------------------------------------------- theorems

  /** An answer is true. In every run from start-up, if DONE is on its way to a
      client, then with acts `k.a`, `k.b`, `k.c`: the client has sent a RUN and waited
      since; an execution of its request began, of a hw-task with the identifier
      that RUN named; and it ended by completion. With OVERRUN it ended by a
      timeout. With ERROR the server found no such hw-task bound, or banned. */
  lemma AnswersAreTrue(y0: System, acts: seq<Act>, y: System, r: nat) returns (ys: seq<System>, k: Marks)
    requires FredSystem.Boots()(y0) && Runs.Leads(y0, FredSystem.Takes(), acts, y) && r < |y.peers|
    ensures Runs.TraceTo(y0, FredSystem.Takes(), ys, acts, y)
    ensures DoneMsg in y.peers[r].down ==>
              SentAt(ys, acts, |acts|, r, k.a, k.id) && k.a < k.b < k.c && BeganAt(ys, acts, |acts|, r, k.b, k.t)
              && k.t < |y.ids| && y.ids[k.t] == k.id && EndedAt(ys, acts, |acts|, r, k.c, true)
    ensures OverrunMsg in y.peers[r].down ==>
              SentAt(ys, acts, |acts|, r, k.a, k.id) && k.a < k.b < k.c && BeganAt(ys, acts, |acts|, r, k.b, k.t)
              && k.t < |y.ids| && y.ids[k.t] == k.id && EndedAt(ys, acts, |acts|, r, k.c, false)
    ensures ErrorMsg in y.peers[r].down && y.peers[r].cli.state == CliAccel ==>
              SentAt(ys, acts, |acts|, r, k.a, k.id) && k.a < k.b && RefusedAt(ys, acts, |acts|, r, k.b, k.id)
  {
    ys := Runs.LeadsTraced(y0, FredSystem.Takes(), acts, y);
    SizesAlong(ys, acts, |acts|);
    BootRests(y0, r);
    TraceGoes(ys, acts, |acts|, r);
    k := TaleUpTo(ys, acts, |acts|, r);
    Runs.LeadsIsReachable(FredSystem.Boots(), y0, FredSystem.Takes(), acts, y);
    ReachableWhole(y);
    AnswerIsStage(y, r);
  }

  /** Where the answer of an acceleration is on its way, it is alone. */
  lemma AnswerIsStage(y: System, r: nat)
    requires Whole(y) && r < |y.peers|
    ensures forall m | m in y.peers[r].down && (m in {DoneMsg, OverrunMsg} || y.peers[r].cli.state == CliAccel) ::
              StageOf(y, r) == Answered(m)
  {
    assert PeerOk(y.peers[r], y.ids, !Nowhere(y.s, r));
  }

  lemma BootRests(y: System, r: nat)
    requires FredSystem.Boots()(y) && r < |y.peers|
    ensures y.peers[r].cli.state != CliAccel
  {
  }

  lemma TakeSize(y: System, a: Act, y': System)
    requires FredSystem.Takes()(y, a, y')
    ensures |y'.peers| == |y.peers|
  {
    SameSize(y, a);
  }

  lemma {:induction false} SizesAlong(ys: seq<System>, acts: seq<Act>, n: nat)
    requires Runs.Trace(FredSystem.Takes(), ys, acts) && n <= |acts|
    ensures |ys[n].peers| == |ys[0].peers|
  {
    if n > 0 {
      SizesAlong(ys, acts, n - 1);
      TakeSize(ys[n - 1], acts[n - 1], ys[n]);
    }
  }

  // ------------------------------------------------------- the hardware alone

  /** The acceleration still waits or executes, or has been answered by act `c`. */
  ghost predicate Towards(ys: seq<System>, acts: seq<Act>, n: nat, r: nat, c: nat)
    requires n <= |acts| < |ys|
  {
    && r < |ys[n].peers|
    && var st := StageOf(ys[n], r);
       || st.Queued? || st.Running?
       || (st == Answered(DoneMsg) && EndedAt(ys, acts, n, r, c, true))
       || (st == Answered(OverrunMsg) && EndedAt(ys, acts, n, r, c, false))
  }

  lemma TowardsOn(ys: seq<System>, acts: seq<Act>, n: nat, r: nat, c: nat) returns (c': nat)
    requires n + 1 <= |acts| < |ys| && Towards(ys, acts, n, r, c) && acts[n].Hardware? && r < |ys[n + 1].peers|
    requires Advances(ys[n], acts[n], ys[n + 1], r, StageOf(ys[n], r), StageOf(ys[n + 1], r))
    ensures Towards(ys, acts, n + 1, r, c')
  {
    c' := if StageOf(ys[n], r).Running? && StageOf(ys[n + 1], r).Answered? then n else c;
  }

  lemma {:induction false} AnsweredBy(ys: seq<System>, acts: seq<Act>, n: nat, r: nat) returns (c: nat)
    requires n <= |acts| < |ys| && HardwareOnly(acts) && r < |ys[0].peers|
    requires forall k | 0 <= k < n :: Goes(ys, acts, k, r)
    requires StageOf(ys[0], r).Queued? || StageOf(ys[0], r).Running?
    ensures Towards(ys, acts, n, r, c)
  {
    c := 0;
    if n > 0 {
      c := AnsweredBy(ys, acts, n - 1, r);
      assert Goes(ys, acts, n - 1, r);
      c := TowardsOn(ys, acts, n - 1, r, c);
    }
  }

  /** A client waiting for an acceleration the server has received is answered by
      the hardware alone: whatever the order of its events, there are at most two
      for each live request, and when no more are due the answer is in the channel,
      though no message has been handled meanwhile. If it was not there before, it
      is DONE if the event that ended the execution, act `c`, was a completion, and
      OVERRUN if that was a timeout. */
  lemma AnswerComes(y: System, acts: seq<Act>, y': System, r: nat) returns (ys: seq<System>, c: nat)
    requires FredSystem.Reachable(y) && Runs.Leads(y, FredSystem.Takes(), acts, y') && HardwareOnly(acts)
    requires r < |y.peers| && y.peers[r].cli.state == CliAccel && y.peers[r].up == []
    ensures |acts| <= 2 * D.LiveCount(y.s) && Shape(y'.s) && r < |y'.peers|
    ensures Runs.TraceTo(y, FredSystem.Takes(), ys, acts, y')
    ensures y.s.lay.Served() && (forall e: Event :: !CanAct(y', Hardware(e))) ==> |y'.peers[r].down| == 1
    ensures y.peers[r].down == [] && y'.peers[r].down != [] ==>
              || (y'.peers[r].down == [DoneMsg] && EndedAt(ys, acts, |acts|, r, c, true))
              || (y'.peers[r].down == [OverrunMsg] && EndedAt(ys, acts, |acts|, r, c, false))
  {
    ReachableWhole(y);
    RanFollows(y);
    assert RanFrom(y)(acts, y');
    PendingBound(y.s);
    ys := Runs.LeadsTraced(y, FredSystem.Takes(), acts, y');
    c := 0;
    if y.peers[r].down == [] {
      WaitsInScheduler(y, r);
      TraceGoes(ys, acts, |acts|, r);
      c := AnsweredBy(ys, acts, |acts|, r);
      OneAnswer(y', r);
    }
    if y.s.lay.Served() {
      var e := UnlessAtRest(y', r);
    }
  }

  lemma WaitsInScheduler(y: System, r: nat)
    requires Whole(y) && r < |y.peers| && y.peers[r].cli.state == CliAccel
    requires y.peers[r].up == [] && y.peers[r].down == []
    ensures StageOf(y, r).Queued? || StageOf(y, r).Running?
  {
  }

  lemma OneAnswer(y: System, r: nat)
    requires Whole(y) && r < |y.peers|
    ensures StageOf(y, r).Answered? ==> y.peers[r].down == [StageOf(y, r).reply]
    ensures StageOf(y, r).Queued? || StageOf(y, r).Running? ==> y.peers[r].down == []
  {
    assert PeerOk(y.peers[r], y.ids, !Nowhere(y.s, r));
  }

  lemma PendingBound(s: State)
    ensures D.Pending(s) <= 2 * D.LiveCount(s)
  {
  }

  /** The hardware has an event due, or the answer is on its way. */
  lemma UnlessAtRest(y: System, r: nat) returns (e: Option<Event>)
    requires Whole(y) && y.s.lay.Served() && r < |y.peers| && y.peers[r].cli.state == CliAccel && y.peers[r].up == []
    ensures if e.Some? then CanAct(y, Hardware(e.value)) else |y.peers[r].down| == 1
  {
    assert PeerOk(y.peers[r], y.ids, !Nowhere(y.s, r));
    if Nowhere(y.s, r) {
      e := None;
    } else {
      NowhereIsNotLive(y.s, r);
      var ev := LiveGoesOn(y.s, r);
      e := Some(ev);
    }
  }
}
