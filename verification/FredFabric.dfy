/** Clients, scheduler and kernel together: what executes for a client is what its
    RUN named. */
module FredFabric {
  import opened Wrappers
  import opened FredState
  import opened SchedInv
  import opened SchedEvents
  import opened SchedMoves
  import opened FredClient
  import S = FredSystem
  import P = SchedRcfg
  import R = RcfgWorker
  import Runs

  // ------------------------------------------------- what an event does to the port

  /** The load of the request at the port. */
  function PortLoad(s: State): seq<Load> {
    if s.devcfg.Some? && Placed(s, s.devcfg.value)
    then [Load(s.reqs[s.devcfg.value].task, s.reqs[s.devcfg.value].slot.value)]
    else []
  }

  /** Serving the queue loads at most one bitstream, that of the request it leaves
      at the port. */
  lemma {:induction false} DrainPort(s: State)
    requires Shape(s)
    ensures Drain(s).reqs == s.reqs && (s.devcfg.Some? ==> Drain(s) == s)
    ensures s.devcfg.None? ==> Drain(s).hist.loads == s.hist.loads + PortLoad(Drain(s))
    decreases |s.fri|
  {
    if s.devcfg.None? && |s.fri| > 0 {
      DrainPort(ServeHead(s));
    }
  }

  /** A move other than a service, with the service of the queue after it. */
  ghost predicate PortAfter(s: State, s': State, done: bool) {
    if s.devcfg.Some? && !done then s'.devcfg == s.devcfg && s'.hist.loads == s.hist.loads
    else s'.hist.loads == s.hist.loads + PortLoad(s')
  }

  lemma MoveDrainPort(s: State, m: Move)
    requires Shape(s) && s.lay.Valid() && CanMove(s, m) && !m.Serve?
    ensures PortAfter(s, Drain(Do(s, m)), m.Finish?)
  {
    P.MovePort(s, m);
    DrainPort(Do(s, m));
  }

  /** So does a whole event. */
  lemma EventPort(s: State, e: Event)
    requires SchedEvents.Inv(s) && Enabled(s, e)
    ensures PortAfter(s, Step(s, e), e.ProgramDone?)
  {
    HandlerReady(s, e);
    match e
    case Push(r, task, now, pick) =>
      NowhereIsNotLive(s, r);
      PushMoves(s, r, task, now, pick);
      if pick.Some? {
        MoveDrainPort(s, Admit(r, task, now, pick.value.slot, pick.value.skip));
      }
    case ProgramDone => MoveDrainPort(s, Finish);
    case SlotDone(i) => EndPort(s, i, Done);
    case SlotTimeout(i) => EndPort(s, i, Overrun);
  }

  lemma EndPort(s: State, i: nat, msg: Message)
    requires SchedEvents.Inv(s) && i < |s.slots| && s.slots[i].state == Exec
    ensures s.slots[i].execReq.Some? && Placed(s, s.slots[i].execReq.value)
    ensures PortAfter(s, SlotEnd(s, i, msg), false)
  {
    HandlerReady(s, SlotDone(i));
    var s1 := Release(s, i, msg);
    PullAdvances(s1, i, s.slots[i].execReq.value);
    if |s1.parts[s.lay.slotPart[i]]| > 0 {
      MoveDrainPort(s1, Advance(i));
    }
  }

  ghost predicate Follows(s: State) {
    Core(s) && P.Tracked(s) && P.PortLast(s)
  }

  lemma {:induction false} PathFollows(s: State, ms: seq<Move>, s': State)
    requires Follows(s) && Path(s, ms, s')
    ensures Follows(s')
    decreases |ms|
  {
    if ms != [] {
      MoveKeeps(s, ms[0]);
      P.MoveTracked(s, ms[0]);
      P.MovePortLast(s, ms[0]);
      PathFollows(Do(s, ms[0]), ms[1..], s');
    }
  }

  lemma EventFollows(s: State, e: Event)
    requires SchedEvents.Inv(s) && Follows(s) && Enabled(s, e)
    ensures Follows(Step(s, e))
  {
    StepKeeps(s, e);
    StepSameLayout(s, e);
    var ms := StepPath(s, e);
    PathFollows(s, ms, Step(s, e));
  }

  // ----------------------------------------------- what an event does to requests

  lemma PushFriTasks(s: State, r: nat)
    requires Shape(s) && Placed(s, r)
    ensures PushFri(s, r).reqs == s.reqs
  {
    var s1 := Enter(s, r);
    if s.devcfg.None? && s1.fri[0] == r {
      DrainPort(ServeHead(s1));
    }
  }

  /** The hw-task of request `q` is what it was, but `task` if `q` was pushed. */
  predicate TaskAfter(s: State, s': State, pushed: Option<nat>, task: nat, q: nat) {
    |s'.reqs| == |s.reqs| && (q < |s.reqs| ==>
      s'.reqs[q].task == if pushed == Some(q) then Some(task) else s.reqs[q].task)
  }

  lemma PushTasks(s: State, r: nat, task: nat, now: int, pick: Option<Pick>, q: nat)
    requires Shape(s) && r < |s.reqs| && task < |s.lay.taskPart| && s.lay.taskPart[task] < |s.parts|
    requires (pick.Some? ==> pick.value.slot < |s.slots|) && r !in s.fri && s.devcfg != Some(r)
    ensures TaskAfter(s, PushReq(s, r, task, now, pick), Some(r), task, q)
  {
    if pick.Some? {
      PushFriTasks(Reserve(Arrive(Stamp(s, r, task, now), r), r, pick.value.slot, pick.value.skip), r);
    }
  }

  lemma EndTasks(s: State, i: nat, msg: Message, q: nat)
    requires Shape(s) && i < |s.slots| && s.slots[i].execReq.Some? && Placed(s, s.slots[i].execReq.value)
    ensures TaskAfter(s, SlotEnd(s, i, msg), None, 0, q)
  {
    var s1, done := Release(s, i, msg), s.slots[i].execReq.value;
    var p := PartOf(s1, done);
    if 0 <= p < |s1.parts| && |s1.parts[p]| > 0 {
      PushFriTasks(Reserve(Dequeue(s1, p), s1.parts[p][0], s1.reqs[done].slot.value, false), s1.parts[p][0]);
    }
  }

  lemma EventTasks(s: State, e: Event, q: nat)
    requires SchedEvents.Inv(s) && Enabled(s, e)
    ensures TaskAfter(s, Step(s, e), S.PushedBy(e), if e.Push? then e.task else 0, q)
  {
    HandlerReady(s, e);
    match e
    case Push(r, task, now, pick) => PushTasks(s, r, task, now, pick, q);
    case ProgramDone => DrainPort(Finished(s));
    case SlotDone(i) => EndTasks(s, i, Done, q);
    case SlotTimeout(i) => EndTasks(s, i, Overrun, q);
  }

  // ------------------------------------------------------------------ system

  /** `asked[r]` is the identifier in the last RUN client r has sent. */
  datatype Joint = Joint(y: S.System, asked: seq<Option<nat>>, l: R.Link)

  /** A client, the server, the hardware, or the kernel and the server's driver
      calls. */
  datatype Act = Sys(a: S.Act) | Kernel(k: R.Act)

  /** The server does one thing at a time: it handles nothing while it writes a
      reconfiguration to the kernel, and nothing more if it was refused. A
      programming ends on the kernel's notification. */
  ghost predicate CanAct(j: Joint, a: Act)
    requires Shape(j.y.s)
  {
    match a
    case Kernel(k) => (k.ServerStep? || k.WorkerStep?) && R.CanAct(j.l, k)
    case Sys(b) =>
      && S.CanAct(j.y, b)
      && (!b.Client? ==> j.l.srv.Idle? || j.l.srv.Prog?)
      && (b == S.Hardware(ProgramDone) ==> R.CanAct(j.l, R.TakeNote))
  }

  /** The driver takes the notification, if there is one to take. */
  function Noted(l: R.Link, done: bool): R.Link
    requires done ==> R.CanAct(l, R.TakeNote)
  {
    if done then R.Next(l, R.TakeNote) else l
  }

  /** And it is given the bitstream of the load that the event has added, if any. */
  function LinkNext(l: R.Link, done: bool, s: State, s': State, img: P.Images): R.Link
    requires done ==> R.CanAct(l, R.TakeNote)
    requires |s'.hist.loads| > |s.hist.loads| ==> Noted(l, done).srv.Idle?
  {
    if |s'.hist.loads| > |s.hist.loads|
    then R.Next(Noted(l, done), R.Submit(img(s'.hist.loads[|s.hist.loads|])))
    else Noted(l, done)
  }

  function AskedNext(j: Joint, a: S.Act): seq<Option<nat>>
    requires |j.asked| == |j.y.peers| && (a.Client? ==> a.r < |j.y.peers|)
  {
    if a.Client? && a.step.Accel? && j.y.peers[a.r].cli.state == CliIdle
    then j.asked[a.r := Some(a.step.id)]
    else j.asked
  }

  // -------------------------------------------------------------- invariant

  /** Request `r` is bound to the hw-task with identifier `id`. */
  predicate BoundToId(y: S.System, r: nat, id: Option<nat>) {
    && r < |y.s.reqs| && y.s.reqs[r].task.Some? && y.s.reqs[r].task.value < |y.ids|
    && id == Some(y.ids[y.s.reqs[r].task.value])
  }

  /** What was asked for is on its way to the server, or bound to the live request. */
  ghost predicate AskedOk(y: S.System, asked: Option<nat>, r: nat)
    requires r < |y.peers|
  {
    && (forall k | 0 <= k < |y.peers[r].up| && y.peers[r].up[k].RunMsg? :: asked == Some(y.peers[r].up[k].id))
    && (!Nowhere(y.s, r) ==> BoundToId(y, r, asked))
  }

  ghost predicate Inv(j: Joint, img: P.Images) {
    && S.Whole(j.y) && P.Inv(P.Coupled(j.y.s, j.l), img) && |j.asked| == |j.y.peers|
    && forall r | 0 <= r < |j.y.peers| :: AskedOk(j.y, j.asked[r], r)
  }

  /** The driver is idle when it is given a load. */
  lemma LinkReady(s: State, s': State, l: R.Link, done: bool, img: P.Images)
    requires PortAfter(s, s', done) && P.Sent(P.Coupled(s, l), img) && (done ==> R.CanAct(l, R.TakeNote))
    ensures |s'.hist.loads| > |s.hist.loads| ==> Noted(l, done).srv.Idle?
  {
  }

  lemma SysReady(j: Joint, a: S.Act, img: P.Images)
    requires Inv(j, img) && CanAct(j, Sys(a)) && S.EventOf(j.y, a).Some?
    ensures var done, s' := S.EventOf(j.y, a).value.ProgramDone?, S.Next(j.y, a).s;
      && (done ==> R.CanAct(j.l, R.TakeNote))
      && (|s'.hist.loads| > |j.y.s.hist.loads| ==> Noted(j.l, done).srv.Idle?)
  {
    S.EventIsEnabled(j.y, a);
    var e := S.EventOf(j.y, a).value;
    EventPort(j.y.s, e);
    LinkReady(j.y.s, S.Next(j.y, a).s, j.l, e.ProgramDone?, img);
  }

  function Next(j: Joint, a: Act, img: P.Images): Joint
    requires Inv(j, img) && CanAct(j, a)
  {
    match a
    case Kernel(k) => j.(l := R.Next(j.l, k))
    case Sys(b) =>
      var y' := S.Next(j.y, b);
      var e := S.EventOf(j.y, b);
      Joint(y', AskedNext(j, b),
            if e.None? then j.l
            else
              SysReady(j, b, img);
              LinkNext(j.l, e.value.ProgramDone?, j.y.s, y'.s, img))
  }

  // ------------------------------------------------------------ preservation

  lemma LinkKeeps(s: State, s': State, l: R.Link, done: bool, img: P.Images)
    requires PortAfter(s, s', done) && P.Sent(P.Coupled(s, l), img) && R.Inv(l)
    requires (l.srv.Idle? || l.srv.Prog?) && (done ==> R.CanAct(l, R.TakeNote))
    requires s'.devcfg.Some? ==> Placed(s', s'.devcfg.value)
    ensures |s'.hist.loads| > |s.hist.loads| ==> Noted(l, done).srv.Idle?
    ensures var l' := LinkNext(l, done, s, s', img); R.Inv(l') && P.Sent(P.Coupled(s', l'), img)
  {
    LinkReady(s, s', l, done, img);
    if done {
      R.NextKeeps(l, R.TakeNote);
    }
    var bs, bs' := P.ImagesOf(s.hist.loads, img), P.ImagesOf(s'.hist.loads, img);
    if |s'.hist.loads| > |s.hist.loads| {
      var b := img(s'.hist.loads[|s.hist.loads|]);
      assert bs' == bs + [b];
      R.NextKeeps(Noted(l, done), R.Submit(b));
    } else {
      assert bs' == bs;
    }
  }

  lemma SysCoupled(j: Joint, a: S.Act, img: P.Images)
    requires Inv(j, img) && CanAct(j, Sys(a))
    ensures P.Inv(P.Coupled(Next(j, Sys(a), img).y.s, Next(j, Sys(a), img).l), img)
  {
    S.EventIsEnabled(j.y, a);
    var e := S.EventOf(j.y, a);
    if e.Some? {
      EventFollows(j.y.s, e.value);
      EventPort(j.y.s, e.value);
      LinkKeeps(j.y.s, Step(j.y.s, e.value), j.l, e.value.ProgramDone?, img);
    }
  }

  /** A request that is live after an event was pushed by it or live before. */
  lemma EventBinds(y: S.System, y': S.System, e: Event, r: nat, id: Option<nat>)
    requires S.Whole(y) && Enabled(y.s, e) && y'.s == Step(y.s, e) && y'.ids == y.ids && r < |y.s.reqs|
    requires !Nowhere(y.s, r) ==> BoundToId(y, r, id)
    requires S.PushedBy(e) == Some(r) ==> e.task < |y.ids| && id == Some(y.ids[e.task])
    ensures !Nowhere(y'.s, r) ==> BoundToId(y', r, id)
  {
    EventTasks(y.s, e, r);
    S.StepLives(y.s, e);
  }

  lemma ClientAsked(j: Joint, r: nat, c: S.Step, q: nat)
    requires S.Whole(j.y) && |j.asked| == |j.y.peers| && S.CanAct(j.y, S.Client(r, c)) && q < |j.y.peers|
    requires AskedOk(j.y, j.asked[q], q)
    ensures AskedOk(S.Next(j.y, S.Client(r, c)), AskedNext(j, S.Client(r, c))[q], q)
  {
    assert S.PeerOk(j.y.peers[q], j.y.ids, !Nowhere(j.y.s, q));
  }

  lemma UpAfter(y: S.System, a: S.Act, q: nat)
    requires S.Whole(y) && S.CanAct(y, a) && !a.Client? && q < |y.peers|
    ensures var y' := S.Next(y, a);
      && y'.ids == y.ids && |y'.peers| == |y.peers|
      && y'.peers[q].up == if a.Handle? && a.r == q then y.peers[q].up[1..] else y.peers[q].up
  {
  }

  lemma ServerAsked(j: Joint, a: S.Act, q: nat)
    requires S.Whole(j.y) && |j.asked| == |j.y.peers| && S.CanAct(j.y, a) && !a.Client? && q < |j.y.peers|
    requires AskedOk(j.y, j.asked[q], q)
    ensures |S.Next(j.y, a).peers| == |j.y.peers| && AskedOk(S.Next(j.y, a), j.asked[q], q)
  {
    var y' := S.Next(j.y, a);
    UpAfter(j.y, a, q);
    S.EventIsEnabled(j.y, a);
    var e := S.EventOf(j.y, a);
    if e.Some? {
      EventBinds(j.y, y', e.value, q, j.asked[q]);
    }
  }

  lemma SysAsked(j: Joint, a: S.Act, q: nat)
    requires S.Whole(j.y) && |j.asked| == |j.y.peers| && S.CanAct(j.y, a) && q < |j.y.peers|
    requires AskedOk(j.y, j.asked[q], q)
    ensures |S.Next(j.y, a).peers| == |j.y.peers| && AskedOk(S.Next(j.y, a), AskedNext(j, a)[q], q)
  {
    if a.Client? {
      ClientAsked(j, a.r, a.step, q);
    } else {
      ServerAsked(j, a, q);
    }
  }

  lemma SamePeers(y: S.System, a: S.Act)
    requires S.Whole(y) && S.CanAct(y, a)
    ensures |S.Next(y, a).peers| == |y.peers|
  {
  }

  lemma AllAsked(j: Joint, a: S.Act, y': S.System)
    requires S.Whole(j.y) && |j.asked| == |j.y.peers| == |y'.peers| && S.CanAct(j.y, a) && y' == S.Next(j.y, a)
    requires forall r | 0 <= r < |j.y.peers| :: AskedOk(j.y, j.asked[r], r)
    ensures forall r | 0 <= r < |y'.peers| :: AskedOk(y', AskedNext(j, a)[r], r)
  {
    forall r: nat | r < |y'.peers| ensures AskedOk(y', AskedNext(j, a)[r], r) {
      SysAsked(j, a, r);
    }
  }

  lemma SysKeeps(j: Joint, a: S.Act, img: P.Images)
    requires Inv(j, img) && CanAct(j, Sys(a))
    ensures Inv(Next(j, Sys(a), img), img)
  {
    S.NextKeeps(j.y, a);
    SysCoupled(j, a, img);
    SamePeers(j.y, a);
    AllAsked(j, a, S.Next(j.y, a));
  }

  lemma NextKeeps(j: Joint, a: Act, img: P.Images)
    requires Inv(j, img) && CanAct(j, a)
    ensures Inv(Next(j, a, img), img)
  {
    match a
    case Kernel(k) => P.NextKeeps(P.Coupled(j.y.s, j.l), P.Kernel(k), img);
    case Sys(b) => SysKeeps(j, b, img);
  }

  // -------------------------------------------------------------------- runs

  function Boot(y: S.System, encrypted: bool): Joint {
    Joint(y, seq(|y.peers|, _ => None), R.Boot(encrypted))
  }

  lemma BootHolds(y: S.System, encrypted: bool, img: P.Images)
    requires S.Boots()(y)
    ensures Inv(Boot(y, encrypted), img)
  {
    var lay: Layout, ids: seq<nat>, clients: nat, now: int :|
      lay.Valid() && |ids| == |lay.taskPart| && y == S.Boot(lay, ids, clients, now);
    S.BootWhole(lay, ids, clients, now);
    P.BootHolds(lay, clients, now, encrypted, img);
  }

  ghost function Boots(): Joint -> bool {
    (j: Joint) => exists y: S.System, encrypted: bool :: S.Boots()(y) && j == Boot(y, encrypted)
  }

  ghost function Takes(img: P.Images): (Joint, Act, Joint) -> bool {
    (j: Joint, a: Act, j': Joint) => Inv(j, img) && CanAct(j, a) && j' == Next(j, a, img)
  }

  /** Some interleaving of clients, server, hardware and kernel leads to `j`. */
  ghost predicate Reachable(j: Joint, img: P.Images) {
    Runs.Reachable(Boots(), Takes(img), j)
  }

  ghost function Known(img: P.Images): Joint -> bool {
    (j: Joint) => Inv(j, img) && S.Reachable(j.y)
  }

  lemma KnownIsClosed(img: P.Images)
    ensures Runs.Closed(Boots(), Takes(img), Known(img))
  {
    forall j: Joint | Boots()(j) ensures Known(img)(j) {
      var y: S.System, encrypted: bool :| S.Boots()(y) && j == Boot(y, encrypted);
      BootHolds(y, encrypted, img);
      Runs.BootIsReachable(S.Boots(), S.Takes(), y);
    }
    forall j: Joint, a: Act, j': Joint | Takes(img)(j, a, j') && Known(img)(j) ensures Known(img)(j') {
      NextKeeps(j, a, img);
      if a.Sys? {
        assert S.Takes()(j.y, a.a, j'.y);
        Runs.StepIsReachable(S.Boots(), S.Takes(), j.y, a.a, j'.y);
      }
    }
  }

  // ---------------------------------------------------------------- theorems

  /** The three together are the clients and the server, and the scheduler and the
      kernel: all that is proved of either pair holds. */
  lemma JointHolds(j: Joint, img: P.Images)
    requires Reachable(j, img)
    ensures Inv(j, img) && S.Reachable(j.y)
  {
    KnownIsClosed(img);
    assert Known(img)(j);
  }

  /** Whatever slot executes, it does so for a client that waits for its
      acceleration, and the last bitstream loaded for it with success, load `k` of
      `n`, is that of the hw-task named in the client's last RUN. */
  lemma RunsWhatWasAsked(j: Joint, img: P.Images, i: nat) returns (r: nat, t: nat, n: nat, k: nat)
    requires Reachable(j, img) && i < |j.y.s.slots| && j.y.s.slots[i].state == Exec
    ensures j.y.s.slots[i].execReq == Some(r) && r < |j.y.peers| == |j.asked| && j.y.peers[r].cli.state == CliAccel
    ensures t < |j.y.ids| && j.asked[r] == Some(j.y.ids[t])
    ensures P.LoadedSo(j.l.tries, n, j.y.s.hist.loads, img) && P.LastAt(j.y.s.hist.loads, n, i, k)
    ensures j.l.tries[k] == R.Try(img(Load(Some(t), i)), R.Succeeded)
  {
    JointHolds(j, img);
    P.FabricHolds(P.Coupled(j.y.s, j.l), img, i);
    P.LoadsAreSo(P.Coupled(j.y.s, j.l), img);
    r := j.y.s.slots[i].execReq.value;
    assert !Nowhere(j.y.s, r) && S.PeerOk(j.y.peers[r], j.y.ids, true);
    assert AskedOk(j.y, j.asked[r], r);
    t, n := j.y.s.reqs[r].task.value, |j.l.Loads()|;
    k := P.LastForMeans(j.y.s.hist.loads, n, i);
  }
}
