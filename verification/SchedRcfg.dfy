/** The scheduler coupled with the reconfiguration worker: what the port believes
    and what the fabric has been loaded with. */
module SchedRcfg {
  import opened Wrappers
  import opened FredState
  import opened SchedInv
  import opened SchedMoves
  import R = RcfgWorker
  import Runs

  /** The server and the kernel. */
  datatype Coupled = Coupled(s: State, l: R.Link)

  /** The bitstream in memory for a hw-task on a slot. */
  type Images = Load -> R.Bits

  /** The scheduler moves between its driver calls: when a request is served with
      reconfiguration it submits the bitstream, and it finishes a programming only
      on a done notification. */
  datatype Act = Sched(m: Move) | Kernel(a: R.Act)

  predicate Programs(s: State, m: Move)
    requires Shape(s)
  {
    m.Serve? && |s.fri| > 0 && !s.reqs[s.fri[0]].skip
  }

  /** The load that the service of the queue's head asks for. */
  function HeadLoad(s: State): Load
    requires Shape(s) && |s.fri| > 0
  {
    Load(s.reqs[s.fri[0]].task, s.reqs[s.fri[0]].slot.value)
  }

  ghost predicate CanAct(c: Coupled, a: Act)
    requires Shape(c.s) && c.s.lay.Valid()
  {
    match a
    case Kernel(k) => (k.ServerStep? || k.WorkerStep?) && R.CanAct(c.l, k)
    case Sched(m) =>
      && CanMove(c.s, m) && (c.l.srv.Idle? || c.l.srv.Prog?)
      && (m.Finish? ==> R.CanAct(c.l, R.TakeNote))
      && (Programs(c.s, m) ==> c.l.srv.Idle?)
  }

  function Next(c: Coupled, a: Act, img: Images): Coupled
    requires Shape(c.s) && c.s.lay.Valid() && CanAct(c, a)
  {
    match a
    case Kernel(k) => c.(l := R.Next(c.l, k))
    case Sched(m) =>
      Coupled(Do(c.s, m),
              if m.Finish? then R.Next(c.l, R.TakeNote)
              else if Programs(c.s, m) then R.Next(c.l, R.Submit(img(HeadLoad(c.s))))
              else c.l)
  }

  // -------------------------------------------------------------- invariant

  /** The hw-task of the last load addressed to slot `i`. */
  function LastFor(loads: seq<Load>, i: int): Option<nat> {
    if loads == [] then None
    else if loads[|loads| - 1].slot == i then loads[|loads| - 1].task
    else LastFor(loads[..|loads| - 1], i)
  }

  /** Every slot is configured with the last load addressed to it. */
  ghost predicate Tracked(s: State) {
    forall i | 0 <= i < |s.slots| :: s.slots[i].hwTask == LastFor(s.hist.loads, i)
  }

  /** The load the port is busy with is the last of all. */
  ghost predicate PortLast(s: State) {
    s.devcfg.Some? ==>
      && Placed(s, s.devcfg.value) && |s.hist.loads| > 0
      && s.hist.loads[|s.hist.loads| - 1] == Load(s.reqs[s.devcfg.value].task, s.reqs[s.devcfg.value].slot.value)
  }

  function ImagesOf(loads: seq<Load>, img: Images): (bs: seq<R.Bits>)
    ensures |bs| == |loads| && forall k | 0 <= k < |bs| :: bs[k] == img(loads[k])
  {
    seq(|loads|, k requires 0 <= k < |loads| => img(loads[k]))
  }

  /** The driver has accepted the bitstreams of the scheduler's loads, except the
      one it is still submitting or was refused. */
  ghost predicate Sent(c: Coupled, img: Images) {
    var bs := ImagesOf(c.s.hist.loads, img);
    && (c.s.devcfg.None? <==> c.l.srv.Idle?)
    && match c.l.srv
       case Idle => c.l.accepted == bs
       case Complete(_) => c.l.accepted == bs
       case Prog => c.l.accepted == bs
       case Halted => |bs| > 0 && c.l.accepted == bs[..|bs| - 1]
       case _ => |bs| > 0 && c.l.accepted == bs[..|bs| - 1] && c.l.srv.b == bs[|bs| - 1]
  }

  ghost predicate Inv(c: Coupled, img: Images) {
    Core(c.s) && R.Inv(c.l) && Tracked(c.s) && PortLast(c.s) && Sent(c, img)
  }

  // ------------------------------------------------------------ preservation

  /** Only the service of a head that needs reconfiguration adds a load. */
  lemma MovePort(s: State, m: Move)
    requires Shape(s) && s.lay.Valid() && CanMove(s, m)
    ensures var s' := Do(s, m);
      && s'.hist.loads == s.hist.loads + (if Programs(s, m) then [HeadLoad(s)] else [])
      && s'.devcfg == (if m.Finish? then None else if Programs(s, m) then Some(s.fri[0]) else s.devcfg)
  {
  }

  /** And changes a slot's configuration. */
  lemma MoveConfigures(s: State, m: Move, i: nat)
    requires Shape(s) && s.lay.Valid() && CanMove(s, m) && i < |s.slots|
    ensures |Do(s, m).slots| == |s.slots|
    ensures Do(s, m).slots[i].hwTask ==
              if Programs(s, m) && HeadLoad(s).slot == i then HeadLoad(s).task else s.slots[i].hwTask
  {
  }

  /** The request at the port keeps its hw-task and slot. */
  lemma PortRequestStays(s: State, m: Move)
    requires Shape(s) && s.lay.Valid() && QueuesOwn(s) && CanMove(s, m) && s.devcfg.Some?
    ensures s.devcfg.value < |s.reqs| == |Do(s, m).reqs|
    ensures Do(s, m).reqs[s.devcfg.value].task == s.reqs[s.devcfg.value].task
    ensures Do(s, m).reqs[s.devcfg.value].slot == s.reqs[s.devcfg.value].slot
  {
  }

  lemma ServedRequestStays(s: State)
    requires Shape(s) && |s.fri| > 0
    ensures ServeHead(s).reqs == s.reqs
  {
  }

  lemma MoveTracked(s: State, m: Move)
    requires Shape(s) && s.lay.Valid() && CanMove(s, m) && Tracked(s)
    ensures Tracked(Do(s, m))
  {
    MovePort(s, m);
    if Programs(s, m) {
      assert (s.hist.loads + [HeadLoad(s)])[..|s.hist.loads|] == s.hist.loads;
    }
    forall i: nat | i < |Do(s, m).slots| ensures Do(s, m).slots[i].hwTask == LastFor(Do(s, m).hist.loads, i) {
      MoveConfigures(s, m, i);
    }
  }

  lemma MovePortLast(s: State, m: Move)
    requires Shape(s) && s.lay.Valid() && QueuesOwn(s) && CanMove(s, m) && PortLast(s)
    ensures PortLast(Do(s, m))
  {
    MovePort(s, m);
    if Programs(s, m) {
      ServedRequestStays(s);
    } else if s.devcfg.Some? {
      PortRequestStays(s, m);
    }
  }

  lemma SchedSent(c: Coupled, m: Move, img: Images)
    requires Shape(c.s) && c.s.lay.Valid() && CanAct(c, Sched(m)) && Sent(c, img)
    ensures Sent(Next(c, Sched(m), img), img)
  {
    MovePort(c.s, m);
    var bs := ImagesOf(c.s.hist.loads, img);
    var bs' := ImagesOf(Do(c.s, m).hist.loads, img);
    if Programs(c.s, m) {
      assert bs' == bs + [img(HeadLoad(c.s))];
    } else {
      assert bs' == bs;
    }
  }

  lemma KernelSent(c: Coupled, a: R.Act, img: Images)
    requires Shape(c.s) && c.s.lay.Valid() && CanAct(c, Kernel(a)) && Sent(c, img)
    ensures Sent(Next(c, Kernel(a), img), img)
  {
    if a.ServerStep? && c.l.srv.Mark? {
      var bs := ImagesOf(c.s.hist.loads, img);
      assert bs[..|bs| - 1] + [bs[|bs| - 1]] == bs;
    }
  }

  lemma NextKeeps(c: Coupled, a: Act, img: Images)
    requires Inv(c, img) && CanAct(c, a)
    ensures Inv(Next(c, a, img), img)
  {
    match a
    case Kernel(k) =>
      R.NextKeeps(c.l, k);
      KernelSent(c, k, img);
    case Sched(m) =>
      MoveKeeps(c.s, m);
      MoveTracked(c.s, m);
      MovePortLast(c.s, m);
      SchedSent(c, m, img);
      if m.Finish? {
        R.NextKeeps(c.l, R.TakeNote);
      } else if Programs(c.s, m) {
        R.NextKeeps(c.l, R.Submit(img(HeadLoad(c.s))));
      }
  }

  function Boot(lay: Layout, clients: nat, now: int, encrypted: bool): Coupled {
    Coupled(Init(lay, clients, now), R.Boot(encrypted))
  }

  lemma BootHolds(lay: Layout, clients: nat, now: int, encrypted: bool, img: Images)
    requires lay.Valid()
    ensures Inv(Boot(lay, clients, now, encrypted), img)
  {
  }

  ghost function Boots(): Coupled -> bool {
    (c: Coupled) => exists lay: Layout, clients: nat, now: int, encrypted: bool ::
      lay.Valid() && c == Boot(lay, clients, now, encrypted)
  }

  ghost function Takes(img: Images): (Coupled, Act, Coupled) -> bool {
    (c: Coupled, a: Act, c': Coupled) => Inv(c, img) && CanAct(c, a) && c' == Next(c, a, img)
  }

  /** Some interleaving leads to `c`. */
  ghost predicate Reachable(c: Coupled, img: Images) {
    Runs.Reachable(Boots(), Takes(img), c)
  }

  ghost function Known(img: Images): Coupled -> bool {
    (c: Coupled) => Inv(c, img)
  }

  lemma KnownIsClosed(img: Images)
    ensures Runs.Closed(Boots(), Takes(img), Known(img))
  {
    var p := Known(img);
    forall c: Coupled | Boots()(c) ensures p(c) {
      var lay: Layout, clients: nat, now: int, encrypted: bool :| lay.Valid() && c == Boot(lay, clients, now, encrypted);
      BootHolds(lay, clients, now, encrypted, img);
    }
    forall c: Coupled, a: Act, c': Coupled | Takes(img)(c, a, c') && p(c) ensures p(c') {
      NextKeeps(c, a, img);
    }
  }

  lemma ReachableInv(c: Coupled, img: Images)
    requires Reachable(c, img)
    ensures Inv(c, img)
  {
    KnownIsClosed(img);
    assert Known(img)(c);
  }

  // ---------------------------------------------------------------- theorems

  lemma SentLoads(c: Coupled, img: Images)
    requires R.Inv(c.l) && Sent(c, img)
    ensures var n, bs := |c.l.Loads()|, ImagesOf(c.s.hist.loads, img);
      n <= |bs| <= n + 1 && c.l.Loads() == bs[..n] && (c.s.devcfg.None? ==> n == |bs|)
  {
  }

  /** The firmware loads are the bitstreams the scheduler asked for, in order,
      missing at most the last; and none when the port is idle. */
  lemma LoadsInOrder(c: Coupled, img: Images)
    requires Reachable(c, img)
    ensures var n := |c.l.Loads()|;
      && n <= |c.s.hist.loads| <= n + 1
      && c.l.Loads() == ImagesOf(c.s.hist.loads[..n], img)
      && (c.s.devcfg.None? ==> n == |c.s.hist.loads|)
  {
    ReachableInv(c, img);
    SentLoads(c, img);
  }

  /** Load `k` is the last of the first `n` loads addressed to slot `i`. */
  predicate LastAt(loads: seq<Load>, n: nat, i: nat, k: nat) {
    k < n <= |loads| && loads[k].slot == i && forall m | k < m < n :: loads[m].slot != i
  }

  lemma {:induction false} LastForMeans(loads: seq<Load>, n: nat, i: nat) returns (k: nat)
    requires n <= |loads| && LastFor(loads[..n], i).Some?
    ensures LastAt(loads, n, i, k) && loads[k].task == LastFor(loads[..n], i)
  {
    if loads[n - 1].slot == i {
      k := n - 1;
    } else {
      assert loads[..n][..n - 1] == loads[..n - 1];
      k := LastForMeans(loads, n - 1, i);
    }
  }

  lemma FabricHolds(c: Coupled, img: Images, i: nat)
    requires Inv(c, img) && i < |c.s.slots| && c.s.slots[i].state == Exec
    ensures c.s.slots[i].execReq.Some? && c.s.slots[i].execReq.value < |c.s.reqs| && |c.l.Loads()| <= |c.s.hist.loads|
    ensures LastFor(c.s.hist.loads[..|c.l.Loads()|], i) == c.s.reqs[c.s.slots[i].execReq.value].task
    ensures c.l.Loads() == ImagesOf(c.s.hist.loads[..|c.l.Loads()|], img)
  {
    SentLoads(c, img);
    var loads := c.s.hist.loads;
    if |c.l.Loads()| < |loads| {
      assert loads[|loads| - 1].slot != i;
      assert loads[..|c.l.Loads()|] == loads[..|loads| - 1];
    } else {
      assert loads[..|c.l.Loads()|] == loads;
    }
  }

  /** What the worker has loaded with success: all it tried, but for the last try if
      that failed and stopped it. */
  predicate LoadedSo(tries: seq<R.Try>, n: nat, loads: seq<Load>, img: Images) {
    && n <= |loads| && n <= |tries| <= n + 1
    && (forall m | 0 <= m < n :: tries[m] == R.Try(img(loads[m]), R.Succeeded))
    && (|tries| > n ==> tries[n].out != R.Succeeded)
  }

  lemma LoadsAreSo(c: Coupled, img: Images)
    requires R.Inv(c.l) && Sent(c, img)
    ensures LoadedSo(c.l.tries, |c.l.Loads()|, c.s.hist.loads, img)
  {
    SentLoads(c, img);
    R.TriesAreLoads(c.l);
  }

  /** Whenever a slot executes, the last bitstream loaded for that slot with success
      is that of the hw-task its request asked for: `n` loads have succeeded, and `k`
      is the last of them that is for the slot. */
  lemma FabricIsRight(c: Coupled, img: Images, i: nat) returns (n: nat, k: nat)
    requires Reachable(c, img) && i < |c.s.slots| && c.s.slots[i].state == Exec
    ensures LoadedSo(c.l.tries, n, c.s.hist.loads, img) && LastAt(c.s.hist.loads, n, i, k)
    ensures c.s.slots[i].execReq.Some? && c.s.slots[i].execReq.value < |c.s.reqs|
    ensures c.s.hist.loads[k] == Load(c.s.reqs[c.s.slots[i].execReq.value].task, i)
  {
    ReachableInv(c, img);
    FabricHolds(c, img, i);
    LoadsAreSo(c, img);
    n := |c.l.Loads()|;
    assert PartOf(c.s, c.s.slots[i].execReq.value) >= 0;
    k := LastForMeans(c.s.hist.loads, n, i);
  }
}
