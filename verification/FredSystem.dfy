/** Clients and server together, over reliable first-in first-out channels. */
module FredSystem {
  import opened Wrappers
  import opened FredState
  import opened SchedInv
  import opened SchedEvents
  import opened SchedMoves
  import opened SchedHistory
  import opened SchedNotices
  import opened FredClient
  import D = SchedDrain
  import Runs

  // ------------------------------------- what an event does to the live requests

  lemma {:induction false} DrainHistory(s: State)
    requires Shape(s)
    ensures var h := Drain(s).hist; h.arrivals == s.hist.arrivals && h.notices == s.hist.notices
    ensures |Drain(s).reqs| == |s.reqs| && Drain(s).banned == s.banned
    decreases |s.fri|
  {
    if s.devcfg.None? && |s.fri| > 0 {
      DrainHistory(ServeHead(s));
    }
  }

  lemma PushFriHistory(s: State, r: nat)
    requires Shape(s) && Placed(s, r)
    ensures var h := PushFri(s, r).hist; h.arrivals == s.hist.arrivals && h.notices == s.hist.notices
    ensures |PushFri(s, r).reqs| == |s.reqs| && PushFri(s, r).banned == s.banned
  {
    var s1 := Enter(s, r);
    if s.devcfg.None? && s1.fri[0] == r {
      DrainHistory(ServeHead(s1));
    }
  }

  lemma PullHistory(s: State, done: nat)
    requires Shape(s) && Placed(s, done)
    ensures var h := Pull(s, done).hist; h.arrivals == s.hist.arrivals && h.notices == s.hist.notices
    ensures |Pull(s, done).reqs| == |s.reqs| && Pull(s, done).banned == s.banned
  {
    var p := PartOf(s, done);
    if 0 <= p < |s.parts| && |s.parts[p]| > 0 {
      var r := s.parts[p][0];
      PushFriHistory(Reserve(Dequeue(s, p), r, s.reqs[done].slot.value, false), r);
    }
  }

  /** The request an event pushes, and the one it notifies. */
  function PushedBy(e: Event): Option<nat> {
    if e.Push? then Some(e.req) else None
  }

  function NotifiedBy(s: State, e: Event): Option<nat> {
    if (e.SlotDone? || e.SlotTimeout?) && e.slot < |s.slots| then s.slots[e.slot].execReq else None
  }

  /** One arrival of `pushed` and one notice to `told`, if any, have been added as
      far as request `r` can tell. */
  predicate Added(s: State, s': State, pushed: Option<nat>, told: Option<nat>, r: nat) {
    && |s'.reqs| == |s.reqs|
    && Arrivals(s'.hist.arrivals, r) == Arrivals(s.hist.arrivals, r) + (if pushed == Some(r) then 1 else 0)
    && Notices(s'.hist.notices, r) == Notices(s.hist.notices, r) + (if told == Some(r) then 1 else 0)
  }

  lemma StepHistory(s: State, e: Event, r: nat)
    requires SchedEvents.Inv(s) && Enabled(s, e)
    ensures Added(s, SchedEvents.Step(s, e), PushedBy(e), NotifiedBy(s, e), r)
  {
    HandlerReady(s, e);
    match e
    case Push(q, task, now, pick) => PushHistory(s, q, task, now, pick, r);
    case ProgramDone => DoneHistory(s, r);
    case SlotDone(i) => EndHistory(s, i, Done, r);
    case SlotTimeout(i) => EndHistory(s, i, Overrun, r);
  }

  lemma DoneHistory(s: State, r: nat)
    requires Shape(s) && s.devcfg.Some?
    ensures Added(s, RcfgComplete(s), None, None, r)
  {
    DrainHistory(Finished(s));
  }

  lemma PushHistory(s: State, q: nat, task: nat, now: int, pick: Option<Pick>, r: nat)
    requires Shape(s) && q < |s.reqs| && task < |s.lay.taskPart| && s.lay.taskPart[task] < |s.parts|
    requires (pick.Some? ==> pick.value.slot < |s.slots|) && q !in s.fri && s.devcfg != Some(q)
    ensures Added(s, PushReq(s, q, task, now, pick), Some(q), None, r)
  {
    var s1 := Arrive(Stamp(s, q, task, now), q);
    ArrivalsAppend(s.hist.arrivals, MarkOf(Stamp(s, q, task, now), q), r);
    if pick.Some? {
      PushFriHistory(Reserve(s1, q, pick.value.slot, pick.value.skip), q);
    }
  }

  lemma EndHistory(s: State, i: nat, msg: Message, r: nat)
    requires Shape(s) && i < |s.slots| && s.slots[i].execReq.Some? && Placed(s, s.slots[i].execReq.value)
    ensures Added(s, SlotEnd(s, i, msg), None, s.slots[i].execReq, r)
  {
    PullHistory(Release(s, i, msg), s.slots[i].execReq.value);
    NoticesAppend(s.hist.notices, Notice(s.slots[i].execReq.value, msg), r);
  }

  lemma {:induction false} PathConserves(s: State, ms: seq<Move>, s': State)
    requires Core(s) && Path(s, ms, s') && Conserved(s)
    ensures Conserved(s')
    decreases |ms|
  {
    if ms != [] {
      MoveKeeps(s, ms[0]);
      MoveConserves(s, ms[0]);
      PathConserves(Do(s, ms[0]), ms[1..], s');
    }
  }

  lemma StepConserves(s: State, e: Event)
    requires SchedEvents.Inv(s) && Conserved(s) && Enabled(s, e)
    ensures SchedEvents.Inv(SchedEvents.Step(s, e)) && Conserved(SchedEvents.Step(s, e))
  {
    StepKeeps(s, e);
    StepSameLayout(s, e);
    var ms := StepPath(s, e);
    PathConserves(s, ms, SchedEvents.Step(s, e));
  }

  lemma LiveStep(s: State, e: Event, r: nat)
    requires SchedEvents.Inv(s) && Conserved(s) && Enabled(s, e) && r < |s.reqs|
    ensures |SchedEvents.Step(s, e).reqs| == |s.reqs|
    ensures Nowhere(SchedEvents.Step(s, e), r) <==>
              if PushedBy(e) == Some(r) then false else Nowhere(s, r) || NotifiedBy(s, e) == Some(r)
  {
    StepConserves(s, e);
    StepHistory(s, e, r);
  }

  lemma NotifiedIsEnded(s: State, e: Event, r: nat)
    requires SchedEvents.Inv(s) && Enabled(s, e)
    ensures NotifiedBy(s, e) == Some(r) <==> EndsIt(s, e, r)
  {
    HandlerReady(s, e);
  }

  /** A request becomes live when pushed and ceases to be when its execution ends. */
  lemma StepLive(s: State, e: Event, r: nat)
    requires SchedEvents.Inv(s) && Conserved(s) && Enabled(s, e) && r < |s.reqs|
    ensures |SchedEvents.Step(s, e).reqs| == |s.reqs|
    ensures Nowhere(SchedEvents.Step(s, e), r) <==> !(e.Push? && e.req == r) && (Nowhere(s, r) || EndsIt(s, e, r))
  {
    LiveStep(s, e, r);
    NotifiedIsEnded(s, e, r);
  }

  // ------------------------------------------------------------------ system

  /** Where a client's thread is: not connected yet, between calls, blocked in
      fred_init or fred_bind, or gone. */
  datatype Call = Fresh | Out | Initing | Binding(id: nat) | Gone

  /** A client, its record in the server (`open` until freed) and the messages
      under way. */
  datatype Peer = Peer(call: Call, cli: Cli, srv: Srv, open: bool, up: seq<Request>, down: seq<Reply>)

  /** `ids` are the identifiers of the system's hw-tasks; client r embeds request
      r of the scheduler. */
  datatype System = System(ids: seq<nat>, peers: seq<Peer>, s: State)

  /** A client begins a library call, or receives what it is blocked for (`mem`:
      it can allocate memory). */
  datatype Step = Init | Bind(id: nat) | Accel(id: nat) | Free | Receive(mem: bool)

  /** Besides, the server handles a message or a hang-up, and hardware reports. */
  datatype Act =
    | Client(r: nat, step: Step)
    | Handle(r: nat, now: int, pick: Option<Pick>, alloc: bool)
    | HangUp(r: nat)
    | Hardware(e: Event)

  function NewPeer(): Peer {
    Peer(Fresh, Cli(CliError, []), Srv(ClientEmpty, []), true, [], [])
  }

  /** What the server does with the oldest message of a client; its answer can
      always be written. */
  function Verdict(y: System, r: nat, alloc: bool): (Srv, Action)
    requires r < |y.peers| && y.peers[r].up != []
  {
    Process(y.peers[r].srv, y.peers[r].up[0], y.ids, y.s.banned, Luck(alloc, true))
  }

  predicate Awaits(p: Peer) {
    p.call.Initing? || p.call.Binding? || (p.call.Out? && p.cli.state == CliAccel)
  }

  predicate ClientCan(p: Peer, c: Step) {
    match c
    case Init => p.call.Fresh?
    case Receive(_) => Awaits(p) && (p.down != [] || !p.open)
    case _ => p.call.Out?
  }

  /** A push asks only for a clock that does not run backwards and a legal slot
      search: that the request is not live is to be shown. */
  ghost predicate CanAct(y: System, a: Act)
    requires Shape(y.s)
  {
    match a
    case Client(r, c) => r < |y.peers| && ClientCan(y.peers[r], c)
    case Handle(r, now, pick, alloc) =>
      && r < |y.peers| && y.peers[r].open && y.peers[r].up != []
      && (Verdict(y, r, alloc).1.PushTask? ==>
            var t := Verdict(y, r, alloc).1.task;
            t < |y.s.lay.taskPart| && now >= y.s.clock && LegalPick(y.s, t, pick))
    case HangUp(r) => r < |y.peers| && y.peers[r].open && y.peers[r].call.Gone? && y.peers[r].up == []
    case Hardware(e) => !e.Push? && Enabled(y.s, e)
  }

  /** The client's side of a call or of the receipt of an answer. */
  function ClientNext(p: Peer, c: Step): Peer
    requires ClientCan(p, c)
  {
    match c
    case Init => p.(call := Initing, up := [InitMsg])
    case Bind(id) => if MayBind(p.cli) then p.(call := Binding(id), up := p.up + [BindMsg(id)]) else p
    case Accel(id) =>
      var (cli, code) := AfterAccel(p.cli, true);
      p.(cli := cli, up := if code == Success then p.up + [RunMsg(id)] else p.up)
    case Free => if MayFree(p.cli) then p.(call := Gone) else p
    case Receive(mem) =>
      var reply := if p.down == [] then None else Some(p.down[0]);
      var p1 := p.(call := Out, down := if p.down == [] then [] else p.down[1..]);
      if p.call.Initing? then p1.(cli := AfterInit(p.cli, reply).0)
      else if p.call.Binding? then p1.(cli := AfterBind(p.cli, p.call.id, reply, mem).0)
      else p1.(cli := AfterWait(p.cli, reply).0)
  }

  /** The server's side of a message. */
  function ServerNext(p: Peer, v: Srv, action: Action): Peer
    requires p.up != []
  {
    var p1 := p.(srv := v, up := p.up[1..]);
    match action
    case Send(reply) => p1.(down := p.down + [reply])
    case PushTask(_) => p1
    case Detach => p1.(open := false)
  }

  // -------------------------------------------------------------- invariant

  /** The two sides hold the same list of bound hw-tasks. */
  predicate Same(ids: seq<nat>, tasks: seq<nat>, names: seq<nat>) {
    && |tasks| == |names|
    && forall k | 0 <= k < |tasks| :: tasks[k] < |ids| && names[k] == ids[tasks[k]]
  }

  predicate Quiet(p: Peer) {
    p.up == [] && p.down == []
  }

  predicate Connected(p: Peer, ids: seq<nat>) {
    p.open && p.srv.state == ClientReady && Same(ids, p.srv.tasks, p.cli.tasks)
  }

  /** An acceleration is in exactly one of three places: the channel up, the
      scheduler, the channel down. */
  predicate Accelerating(p: Peer, live: bool) {
    || (|p.up| == 1 && p.up[0].RunMsg? && p.down == [] && !live)
    || (p.up == [] && p.down == [] && live)
    || (p.up == [] && |p.down| == 1 && p.down[0] in {ErrorMsg, DoneMsg, OverrunMsg} && !live)
  }

  predicate Bound(p: Peer, id: nat, ids: seq<nat>) {
    || (Connected(p, ids) && p.up == [BindMsg(id)] && p.down == [])
    || (Connected(p, ids) && p.up == [] && p.down == [ErrorMsg])
    || (p.open && p.srv.state == ClientReady && p.up == [] && p.down == [Buffs] && Same(ids, p.srv.tasks, p.cli.tasks + [id]))
    || (!p.open && Quiet(p))
  }

  predicate Initialising(p: Peer) {
    && p.open && p.cli == Cli(CliError, []) && p.srv.tasks == []
    && ((p.up == [InitMsg] && p.down == [] && p.srv.state == ClientEmpty)
        || (p.up == [] && p.down == [Ack] && p.srv.state == ClientReady))
  }

  predicate PeerOk(p: Peer, ids: seq<nat>, live: bool) {
    && |p.cli.tasks| <= |p.srv.tasks| < MAX_HW_TASKS
    && (forall k | 0 <= k < |p.srv.tasks| :: p.srv.tasks[k] < |ids|)
    && match p.call
       case Fresh => p == NewPeer() && !live
       case Initing => Initialising(p) && !live
       case Binding(id) => MayBind(p.cli) && Bound(p, id, ids) && !live
       case Gone => p.cli.state != CliAccel && Quiet(p) && !live
       case Out =>
         match p.cli.state
         case CliError => Quiet(p) && !live
         case CliAccel => Connected(p, ids) && Accelerating(p, live)
         case _ => Connected(p, ids) && Quiet(p) && !live
  }

  ghost predicate Whole(y: System) {
    && SchedEvents.Inv(y.s) && Conserved(y.s) && |y.peers| == |y.s.reqs| && |y.ids| == |y.s.lay.taskPart|
    && forall r | 0 <= r < |y.peers| :: PeerOk(y.peers[r], y.ids, !Nowhere(y.s, r))
  }

  /** The server never pushes a live request. */
  lemma NeverRepushed(y: System, r: nat, now: int, pick: Option<Pick>, alloc: bool)
    requires Whole(y) && CanAct(y, Handle(r, now, pick, alloc)) && Verdict(y, r, alloc).1.PushTask?
    ensures Nowhere(y.s, r) && Enabled(y.s, Push(r, Verdict(y, r, alloc).1.task, now, pick))
  {
    assert PeerOk(y.peers[r], y.ids, !Nowhere(y.s, r));
    NowhereIsNotLive(y.s, r);
  }

  /** The notice an event sends goes to a client whose record still exists. */
  lemma NoticeArrives(y: System, e: Event)
    requires Whole(y) && Enabled(y.s, e) && NotifiedBy(y.s, e).Some?
    ensures var r := NotifiedBy(y.s, e).value; r < |y.peers| && y.peers[r].open && !Nowhere(y.s, r)
  {
    HandlerReady(y.s, e);
    var r := NotifiedBy(y.s, e).value;
    assert y.s.slots[e.slot].state == Exec && y.s.slots[e.slot].execReq == Some(r);
    assert PeerOk(y.peers[r], y.ids, !Nowhere(y.s, r));
  }

  function Told(p: Peer, e: Event): Peer {
    p.(down := p.down + [ReplyTo(if e.SlotTimeout? then Overrun else Done)])
  }

  function Next(y: System, a: Act): System
    requires Whole(y) && CanAct(y, a)
  {
    match a
    case Client(r, c) => y.(peers := y.peers[r := ClientNext(y.peers[r], c)])
    case Handle(r, now, pick, alloc) =>
      var (v, action) := Verdict(y, r, alloc);
      var y1 := y.(peers := y.peers[r := ServerNext(y.peers[r], v, action)]);
      if action.PushTask? then
        NeverRepushed(y, r, now, pick, alloc);
        y1.(s := SchedEvents.Step(y.s, Push(r, action.task, now, pick)))
      else y1
    case HangUp(r) => y.(peers := y.peers[r := y.peers[r].(open := false)])
    case Hardware(e) =>
      var y1 := y.(s := SchedEvents.Step(y.s, e));
      var n := NotifiedBy(y.s, e);
      if n.Some? then
        NoticeArrives(y, e);
        y1.(peers := y.peers[n.value := Told(y.peers[n.value], e)])
      else y1
  }

  /** The scheduler's part in an act. */
  function EventOf(y: System, a: Act): Option<Event>
    requires a.Handle? ==> a.r < |y.peers| && y.peers[a.r].up != []
  {
    match a
    case Hardware(e) => Some(e)
    case Handle(r, now, pick, alloc) =>
      var action := Verdict(y, r, alloc).1;
      if action.PushTask? then Some(Push(r, action.task, now, pick)) else None
    case _ => None
  }

  lemma EventIsEnabled(y: System, a: Act)
    requires Whole(y) && CanAct(y, a)
    ensures match EventOf(y, a)
            case Some(e) => Enabled(y.s, e) && Next(y, a).s == SchedEvents.Step(y.s, e)
            case None => Next(y, a).s == y.s
  {
    if a.Handle? && Verdict(y, a.r, a.alloc).1.PushTask? {
      NeverRepushed(y, a.r, a.now, a.pick, a.alloc);
    }
  }

  // ------------------------------------------------------------ preservation

  lemma ClientKeeps(p: Peer, c: Step, ids: seq<nat>, live: bool)
    requires PeerOk(p, ids, live) && ClientCan(p, c)
    ensures PeerOk(ClientNext(p, c), ids, live)
  {
  }

  lemma SameGrows(ids: seq<nat>, tasks: seq<nat>, names: seq<nat>, t: nat)
    requires Same(ids, tasks, names) && t < |ids|
    ensures Same(ids, tasks + [t], names + [ids[t]])
  {
  }

  /** The server's handling keeps the peer, whose request is live afterwards if
      it was pushed. */
  lemma ServerKeeps(p: Peer, ids: seq<nat>, banned: set<nat>, alloc: bool, live: bool)
    requires PeerOk(p, ids, live) && p.open && p.up != []
    ensures var (v, action) := Process(p.srv, p.up[0], ids, banned, Luck(alloc, true));
      PeerOk(ServerNext(p, v, action), ids, live || action.PushTask?) && (action.PushTask? ==> !live)
  {
    if p.up[0].BindMsg? {
      var t := Lookup(ids, p.up[0].id);
      if t.Some? && Connected(p, ids) {
        SameGrows(ids, p.srv.tasks, p.cli.tasks, t.value);
      }
    }
  }

  lemma TellKeeps(p: Peer, e: Event, ids: seq<nat>)
    requires PeerOk(p, ids, true)
    ensures PeerOk(Told(p, e), ids, false) && p.call.Out? && p.cli.state == CliAccel
  {
  }

  lemma PeersWhole(y: System, y': System)
    requires Whole(y) && y'.ids == y.ids && y'.s.lay == y.s.lay && |y'.peers| == |y.peers| == |y'.s.reqs|
    requires SchedEvents.Inv(y'.s) && Conserved(y'.s)
    requires forall r | 0 <= r < |y.peers| :: PeerOk(y'.peers[r], y.ids, !Nowhere(y'.s, r))
    ensures Whole(y')
  {
  }

  lemma NextKeeps(y: System, a: Act)
    requires Whole(y) && CanAct(y, a)
    ensures Whole(Next(y, a))
  {
    var y' := Next(y, a);
    match a
    case Client(r, c) =>
      ClientKeeps(y.peers[r], c, y.ids, !Nowhere(y.s, r));
      PeersWhole(y, y');
    case Handle(r, now, pick, alloc) => HandleKeeps(y, r, now, pick, alloc);
    case HangUp(r) =>
      assert PeerOk(y.peers[r], y.ids, !Nowhere(y.s, r));
      PeersWhole(y, y');
    case Hardware(e) => HardwareKeeps(y, e);
  }

  /** Whether request `q` is live after an event. */
  ghost predicate LiveAfter(s: State, e: Event, q: nat) {
    PushedBy(e) == Some(q) || (!Nowhere(s, q) && NotifiedBy(s, e) != Some(q))
  }

  lemma StepLives(s: State, e: Event)
    requires SchedEvents.Inv(s) && Conserved(s) && Enabled(s, e)
    ensures var s' := SchedEvents.Step(s, e);
      && SchedEvents.Inv(s') && Conserved(s') && s'.lay == s.lay && |s'.reqs| == |s.reqs|
      && forall q: nat | q < |s.reqs| :: !Nowhere(s', q) <==> LiveAfter(s, e, q)
  {
    StepConserves(s, e);
    StepSameLayout(s, e);
    StepHistory(s, e, 0);
    var s' := SchedEvents.Step(s, e);
    forall q: nat | q < |s.reqs| ensures !Nowhere(s', q) <==> LiveAfter(s, e, q) {
      LiveStep(s, e, q);
    }
  }

  /** An event of the scheduler keeps the system when the peers change as it
      tells them. */
  lemma EventKeeps(y: System, e: Event, peers: seq<Peer>)
    requires Whole(y) && Enabled(y.s, e) && |peers| == |y.peers|
    requires forall q | 0 <= q < |peers| :: PeerOk(peers[q], y.ids, LiveAfter(y.s, e, q))
    ensures Whole(System(y.ids, peers, SchedEvents.Step(y.s, e)))
  {
    StepLives(y.s, e);
    PeersWhole(y, System(y.ids, peers, SchedEvents.Step(y.s, e)));
  }

  /** One peer changes: the one pushed for or told. */
  lemma PeerChanges(y: System, e: Event, r: nat, p: Peer)
    requires Whole(y) && Enabled(y.s, e) && r < |y.peers| && PeerOk(p, y.ids, LiveAfter(y.s, e, r))
    requires forall q | q != r :: PushedBy(e) != Some(q) && NotifiedBy(y.s, e) != Some(q)
    ensures Whole(System(y.ids, y.peers[r := p], SchedEvents.Step(y.s, e)))
  {
    forall q: nat | q < |y.peers| && q != r ensures PeerOk(y.peers[q], y.ids, LiveAfter(y.s, e, q)) {
      assert LiveAfter(y.s, e, q) == !Nowhere(y.s, q);
    }
    EventKeeps(y, e, y.peers[r := p]);
  }

  lemma HandleKeeps(y: System, r: nat, now: int, pick: Option<Pick>, alloc: bool)
    requires Whole(y) && CanAct(y, Handle(r, now, pick, alloc))
    ensures Whole(Next(y, Handle(r, now, pick, alloc)))
  {
    ServerKeeps(y.peers[r], y.ids, y.s.banned, alloc, !Nowhere(y.s, r));
    var (v, action) := Verdict(y, r, alloc);
    var peers := y.peers[r := ServerNext(y.peers[r], v, action)];
    if action.PushTask? {
      NeverRepushed(y, r, now, pick, alloc);
      PeerChanges(y, Push(r, action.task, now, pick), r, peers[r]);
    } else {
      PeersWhole(y, y.(peers := peers));
    }
  }

  lemma HardwareKeeps(y: System, e: Event)
    requires Whole(y) && CanAct(y, Hardware(e))
    ensures Whole(Next(y, Hardware(e)))
  {
    var n := NotifiedBy(y.s, e);
    if n.Some? {
      NoticeArrives(y, e);
      TellKeeps(y.peers[n.value], e, y.ids);
      PeerChanges(y, e, n.value, Told(y.peers[n.value], e));
    } else {
      EventKeeps(y, e, y.peers);
    }
  }

  // -------------------------------------------------------------------- runs

  function Boot(lay: Layout, ids: seq<nat>, clients: nat, now: int): System {
    System(ids, seq(clients, _ => NewPeer()), FredState.Init(lay, clients, now))
  }

  lemma BootWhole(lay: Layout, ids: seq<nat>, clients: nat, now: int)
    requires lay.Valid() && |ids| == |lay.taskPart|
    ensures Whole(Boot(lay, ids, clients, now))
  {
    InitKeeps(lay, clients, now);
    var s := FredState.Init(lay, clients, now);
    forall r: nat ensures Nowhere(s, r) {
    }
  }

  ghost function Boots(): System -> bool {
    (y: System) => exists lay: Layout, ids: seq<nat>, clients: nat, now: int ::
      lay.Valid() && |ids| == |lay.taskPart| && y == Boot(lay, ids, clients, now)
  }

  ghost function Takes(): (System, Act, System) -> bool {
    (y: System, a: Act, y': System) => Whole(y) && CanAct(y, a) && y' == Next(y, a)
  }

  /** Some interleaving leads to `y`. */
  ghost predicate Reachable(y: System) {
    Runs.Reachable(Boots(), Takes(), y)
  }

  ghost function Known(): System -> bool {
    (y: System) => Whole(y)
  }

  lemma KnownIsClosed()
    ensures Runs.Closed(Boots(), Takes(), Known())
  {
    var p := Known();
    forall y: System | Boots()(y) ensures p(y) {
      var lay: Layout, ids: seq<nat>, clients: nat, now: int :|
        lay.Valid() && |ids| == |lay.taskPart| && y == Boot(lay, ids, clients, now);
      BootWhole(lay, ids, clients, now);
    }
    forall y: System, a: Act, y': System | Takes()(y, a, y') && p(y) ensures p(y') {
      NextKeeps(y, a);
    }
  }

  lemma ReachableWhole(y: System)
    requires Reachable(y)
    ensures Whole(y)
  {
    KnownIsClosed();
    assert Known()(y);
  }

  // ---------------------------------------------------------------- theorems

  function RunsIn(up: seq<Request>): nat {
    if up == [] then 0 else (if up[0].RunMsg? then 1 else 0) + RunsIn(up[1..])
  }

  /** Answers to a RUN under way: all of them in CLI_ACCEL, otherwise only those
      nothing else is answered with. */
  function AnswersIn(down: seq<Reply>, accel: bool): nat {
    if down == [] then 0
    else (if accel || down[0] == DoneMsg || down[0] == OverrunMsg then 1 else 0) + AnswersIn(down[1..], accel)
  }

  lemma PeerAt(y: System, r: nat)
    requires Reachable(y) && r < |y.peers|
    ensures PeerOk(y.peers[r], y.ids, Live(y.s, r))
  {
    ReachableWhole(y);
    NowhereIsNotLive(y.s, r);
  }

  lemma PeerCounts(p: Peer, ids: seq<nat>, live: bool)
    requires PeerOk(p, ids, live)
    ensures var accel := p.cli.state == CliAccel;
      RunsIn(p.up) + (if live then 1 else 0) + AnswersIn(p.down, accel) == if accel then 1 else 0
  {
    assert |p.up| <= 1 && |p.down| <= 1;
    assert p.up != [] ==> p.up[1..] == [];
    assert p.down != [] ==> p.down[1..] == [];
  }

  /** A client is in CLI_ACCEL exactly when one of these exists: a RUN on its way
      to the server, its request live in the scheduler, an answer on its way
      back; and never two. */
  lemma AccelIsOneInFlight(y: System, r: nat)
    requires Reachable(y) && r < |y.peers|
    ensures var p := y.peers[r]; var accel := p.cli.state == CliAccel;
      RunsIn(p.up) + (if Live(y.s, r) then 1 else 0) + AnswersIn(p.down, accel) == if accel then 1 else 0
  {
    PeerAt(y, r);
    PeerCounts(y.peers[r], y.ids, Live(y.s, r));
  }

  /** So the server, whatever it reads, never pushes a live request. */
  lemma LiveIsNeverPushed(y: System, r: nat, now: int, pick: Option<Pick>, alloc: bool)
    requires Reachable(y) && Shape(y.s) && CanAct(y, Handle(r, now, pick, alloc)) && Verdict(y, r, alloc).1.PushTask?
    ensures !Live(y.s, r) && Enabled(y.s, Push(r, Verdict(y, r, alloc).1.task, now, pick))
  {
    ReachableWhole(y);
    NeverRepushed(y, r, now, pick, alloc);
    NowhereIsNotLive(y.s, r);
  }

  /** Nor does it ever push a request for a banned hw-task; and a ban stays. */
  lemma BannedIsNeverPushed(y: System, a: Act)
    requires Reachable(y) && Shape(y.s) && CanAct(y, a)
    ensures Whole(y) && y.s.banned <= Next(y, a).s.banned
    ensures a.Handle? && Verdict(y, a.r, a.alloc).1.PushTask? ==> Verdict(y, a.r, a.alloc).1.task !in y.s.banned
  {
    ReachableWhole(y);
    match a
    case Handle(r, now, pick, alloc) =>
      var action := Verdict(y, r, alloc).1;
      if action.PushTask? {
        NeverRepushed(y, r, now, pick, alloc);
        StepBans(y.s, Push(r, action.task, now, pick));
      }
    case Hardware(e) => StepBans(y.s, e);
    case _ =>
  }

  /** Between calls both sides hold the same list of hw-tasks, unless the client
      has failed; and the assertion fred_bind begins with always holds. */
  lemma SameBindings(y: System, r: nat)
    requires Reachable(y) && r < |y.peers|
    ensures var p := y.peers[r]; p.call.Out? && p.cli.state != CliError ==> Same(y.ids, p.srv.tasks, p.cli.tasks)
    ensures |y.peers[r].cli.tasks| < MAX_HW_TASKS
  {
    PeerAt(y, r);
  }

  /** A client's record is freed only when its request is not live: by a hang-up
      or by the server detaching it. */
  lemma FreedOnlyAtRest(y: System, r: nat)
    requires Reachable(y) && r < |y.peers|
    ensures !y.peers[r].open || y.peers[r].call.Gone? ==> !Live(y.s, r)
  {
    PeerAt(y, r);
  }

  /** A client outside CLI_ACCEL can leave, and nothing then keeps the server from
      freeing its record; inside, fred_free changes nothing. */
  lemma LeavesAndIsFreed(y: System, r: nat)
    requires Reachable(y) && r < |y.peers| && y.peers[r].call.Out?
    ensures Shape(y.s) && CanAct(y, Client(r, Step.Free)) && Whole(y)
    ensures var y1 := Next(y, Client(r, Step.Free));
      if y.peers[r].cli.state == CliAccel then y1 == y
      else
        && Whole(y1) && r < |y1.peers| && y1.peers[r].call == Gone
        && (y1.peers[r].open ==>
              CanAct(y1, HangUp(r)) && r < |Next(y1, HangUp(r)).peers| && !Next(y1, HangUp(r)).peers[r].open)
  {
    PeerAt(y, r);
    ReachableWhole(y);
    NextKeeps(y, Client(r, Step.Free));
    var y1 := Next(y, Client(r, Step.Free));
    assert PeerOk(y1.peers[r], y1.ids, !Nowhere(y1.s, r));
  }

  /** The search for a slot always has a legal answer. */
  lemma SomePick(s: State, task: nat) returns (pick: Option<Pick>)
    requires |s.lay.slotPart| == |s.slots| && task < |s.lay.taskPart|
    ensures LegalPick(s, task, pick)
  {
    pick := None;
    if i :| 0 <= i < |s.slots| && s.slots[i].Available() && s.lay.slotPart[i] == s.lay.taskPart[task] {
      pick := Some(Pick(i, false));
    }
  }

  /** A client blocked in a call is never stranded: it can receive its answer, or
      learn that the connection is closed; or the server can handle its message; or
      its request is live and some hardware event is due. */
  lemma WaitGoesOn(y: System, r: nat) returns (a: Act)
    requires Reachable(y) && y.s.lay.Served() && r < |y.peers|
    requires y.peers[r].call.Initing? || y.peers[r].call.Binding? || y.peers[r].cli.state == CliAccel
    ensures Shape(y.s) && CanAct(y, a)
    ensures a == Client(r, Receive(true)) || (a.Handle? && a.r == r) || (a.Hardware? && Live(y.s, r))
  {
    PeerAt(y, r);
    ReachableWhole(y);
    if y.peers[r].down != [] || !y.peers[r].open {
      a := Client(r, Receive(true));
    } else if y.peers[r].up != [] {
      a := CanHandle(y, r);
    } else {
      var e := LiveGoesOn(y.s, r);
      a := Hardware(e);
    }
  }

  lemma CanHandle(y: System, r: nat) returns (a: Act)
    requires Whole(y) && r < |y.peers| && y.peers[r].open && y.peers[r].up != []
    ensures a.Handle? && a.r == r && CanAct(y, a)
  {
    var pick := None;
    if Verdict(y, r, true).1.PushTask? {
      pick := SomePick(y.s, Verdict(y, r, true).1.task);
    }
    a := Handle(r, y.s.clock, pick, true);
  }

  lemma LiveGoesOn(s: State, r: nat) returns (e: Event)
    requires SchedEvents.Inv(s) && s.lay.Served() && r < |s.reqs| && Live(s, r)
    ensures !e.Push? && Enabled(s, e)
  {
    NowhereIsNotLive(s, r);
    D.EmptyIffNowhere(s);
    e := D.NeverStuck(s);
  }

  // ------------------------------------------------------- the hardware alone

  predicate HardwareOnly(acts: seq<Act>) {
    forall k | 0 <= k < |acts| :: acts[k].Hardware?
  }

  /** Nothing of the peers has changed but the answers on their way. */
  predicate OnlyTold(y: System, y1: System) {
    && y1.ids == y.ids && |y1.peers| == |y.peers|
    && forall r | 0 <= r < |y.peers| :: y1.peers[r] == y.peers[r].(down := y1.peers[r].down)
  }

  /** What acts of the hardware alone do, and how many there can be. */
  ghost predicate Ran(y: System, acts: seq<Act>, y1: System) {
    HardwareOnly(acts) ==>
      Whole(y1) && OnlyTold(y, y1) && y1.s.lay == y.s.lay && |acts| + D.Pending(y1.s) <= D.Pending(y.s)
  }

  ghost function RanFrom(y: System): (seq<Act>, System) -> bool {
    (acts: seq<Act>, y1: System) => Ran(y, acts, y1)
  }

  lemma HardwareTells(y: System, e: Event)
    requires Whole(y) && CanAct(y, Hardware(e))
    ensures OnlyTold(y, Next(y, Hardware(e))) && Next(y, Hardware(e)).s == SchedEvents.Step(y.s, e)
  {
    var n := NotifiedBy(y.s, e);
    if n.Some? {
      NoticeArrives(y, e);
      assert Next(y, Hardware(e)).peers == y.peers[n.value := Told(y.peers[n.value], e)];
    } else {
      assert Next(y, Hardware(e)).peers == y.peers;
    }
  }

  /** The client whose execution ends is told DONE on a completion and OVERRUN when
      the watchdog expired; nobody else is told anything. */
  lemma HardwareAnswers(y: System, e: Event, r: nat)
    requires Whole(y) && CanAct(y, Hardware(e)) && r < |y.peers|
    ensures |Next(y, Hardware(e)).peers| == |y.peers|
    ensures var down, down' := y.peers[r].down, Next(y, Hardware(e)).peers[r].down;
      && (EndsIt(y.s, e, r) && e.SlotDone? ==> down' == down + [DoneMsg])
      && (EndsIt(y.s, e, r) && e.SlotTimeout? ==> down' == down + [OverrunMsg])
      && (!EndsIt(y.s, e, r) ==> down' == down)
  {
    NotifiedIsEnded(y.s, e, r);
  }

  lemma HardwareStep(y: System, e: Event)
    requires Whole(y) && CanAct(y, Hardware(e))
    ensures var y1 := Next(y, Hardware(e));
      Whole(y1) && OnlyTold(y, y1) && y1.s.lay == y.s.lay && D.Pending(y1.s) < D.Pending(y.s)
  {
    HardwareKeeps(y, e);
    HardwareTells(y, e);
    StepSameLayout(y.s, e);
    D.EventCounts(y.s, e);
  }

  lemma StepRan(y: System, acts: seq<Act>, y1: System, a: Act)
    requires Ran(y, acts, y1) && Whole(y1) && CanAct(y1, a)
    ensures Ran(y, acts + [a], Next(y1, a))
  {
    if HardwareOnly(acts + [a]) {
      assert (acts + [a])[|acts|] == a;
      assert forall k | 0 <= k < |acts| :: acts[k] == (acts + [a])[k];
      HardwareStep(y1, a.e);
    }
  }

  lemma RanFollows(y: System)
    requires Whole(y)
    ensures Runs.Follows(y, Takes(), RanFrom(y))
  {
    var p := RanFrom(y);
    forall acts: seq<Act>, y1: System, a: Act, y2: System | Takes()(y1, a, y2) && p(acts, y1) ensures p(acts + [a], y2) {
      StepRan(y, acts, y1, a);
    }
  }
}
