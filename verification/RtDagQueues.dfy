/** The threads of a DAG over their multi-queues, at every mutex and
    condition-variable step: one queue for each task's inputs, and at the place of
    the source, which has none, the start-time queue. */
module RtDagQueues {
  import opened Wrappers
  import opened RtDagGraph
  import opened RtDagRun
  import opened RtDagTheorems
  import Q = MultiQueue
  import M = MultiQueueThreads
  import Runs

  /** `a` is the DAG over one-place cells, moved on when a thread stores into a
      queue or takes from it; `qs[v]` are the queues. */
  datatype System = System(a: State, qs: seq<M.State>)

  /** The number of inputs of queue `v`. */
  function Inputs(d: Dag, v: nat): nat
    requires v < d.N()
  {
    if v == d.src then 1 else |d.g.ins[v]|
  }

  /** What a thread is to do on which queue. */
  datatype Want = Want(v: nat, op: M.Op)

  /** The queue operation of the next step of `t`, if it is one. */
  function Wants(d: Dag, a: State, t: nat): Option<Want>
    requires Shape(d, a) && t < d.N()
  {
    match Next(d, a, t)
    case Enter => if t == d.src then Some(Want(d.src, M.Push(0, d.startTime(a.iter[t])))) else Some(Want(t, M.Pop))
    case ReadIn(_) => None
    case WriteOut(_) => None
    case PushOut(k) => Some(Want(d.g.outs[t][k].dst, M.Push(d.g.outs[t][k].idx, 0)))
    case Leave => if t == d.sink then Some(Want(d.src, M.Pop)) else None
  }

  /** Cell j of queue v as the DAG sees it. */
  predicate Filled(d: Dag, a: State, v: nat, j: nat)
    requires Shape(d, a) && v < d.N() && j < Inputs(d, v)
  {
    if v == d.src then a.start.Some? else a.full[v][j]
  }

  function Init(d: Dag): System {
    System(RtDagRun.Init(d), seq(d.N(), v requires 0 <= v < d.N() => M.Init(seq(Inputs(d, v), _ => 0), d.N())))
  }

  // -------------------------------------------------------------- invariant

  /** The thread has yet to store or take. */
  predicate Before(pc: M.Pc) {
    pc.Lock? || pc.Test? || pc.Asleep? || pc.Awake? || pc.Again? || pc.Act?
  }

  ghost predicate Sized(d: Dag, x: System) {
    && d.g.Ends(d.src, d.sink) && Shape(d, x.a) && |x.qs| == d.N()
    && forall v | 0 <= v < d.N() :: M.Sized(x.qs[v]) && |x.qs[v].pc| == d.N() && x.qs[v].N() == Inputs(d, v)
  }

  /** Every queue is as MultiQueueThreads proves it. */
  ghost predicate Sound(x: System) {
    forall v | 0 <= v < |x.qs| :: M.Inv(x.qs[v])
  }

  /** A cell of the DAG is full exactly when the cell of the queue is. */
  ghost predicate CellsAgree(d: Dag, x: System)
    requires Sized(d, x)
  {
    forall v, j | 0 <= v < d.N() && 0 <= j < Inputs(d, v) ::
      Filled(d, x.a, v, j) <==> |x.qs[v].pushed[j]| > |x.qs[v].popped|
  }

  /** The start time waiting is the one in the queue. */
  ghost predicate StartAgrees(d: Dag, x: System)
    requires Sized(d, x)
  {
    x.a.start.Some? ==> |x.qs[d.src].q.elems| > 0 && x.qs[d.src].q.elems[0] == x.a.start.value
  }

  /** A thread is inside one queue at most; until it has stored or taken, that is
      its next step in the DAG. */
  ghost predicate ThreadsAgree(d: Dag, x: System)
    requires Sized(d, x)
  {
    && (forall t, v, w | 0 <= t < d.N() && 0 <= v < w < d.N() :: x.qs[v].pc[t].Out? || x.qs[w].pc[t].Out?)
    && (forall t, v | 0 <= t < d.N() && 0 <= v < d.N() && Before(x.qs[v].pc[t]) ::
          x.a.iter[t] < d.iters && Wants(d, x.a, t) == Some(Want(v, x.qs[v].pc[t].op)))
  }

  ghost predicate Agree(d: Dag, x: System) {
    Sized(d, x) && Sound(x) && CellsAgree(d, x) && StartAgrees(d, x) && ThreadsAgree(d, x)
  }

  // ------------------------------------------------------------------ steps

  /** A thread outside the queues reads, writes or leaves; begins a queue
      operation; takes a step of one (`w` is whom it wakes); or wakes by itself. */
  datatype Act = Local(t: nat) | Begin(t: nat) | Queue(v: nat, t: nat, w: nat) | Spurious(v: nat, t: nat)

  ghost predicate Outside(x: System, t: nat) {
    forall v | 0 <= v < |x.qs| :: t < |x.qs[v].pc| && x.qs[v].pc[t].Out?
  }

  ghost predicate CanAct(d: Dag, x: System, act: Act)
    requires Sized(d, x)
  {
    match act
    case Local(t) => t < d.N() && x.a.iter[t] < d.iters && Outside(x, t) && Wants(d, x.a, t).None?
    case Begin(t) => t < d.N() && x.a.iter[t] < d.iters && Outside(x, t) && Wants(d, x.a, t).Some?
    case Queue(v, t, w) => v < d.N() && M.Enabled(x.qs[v], M.Go(t, w))
    case Spurious(v, t) => v < d.N() && M.Enabled(x.qs[v], M.Spurious(t))
  }

  lemma LocalEnabled(d: Dag, a: State, t: nat)
    requires Shape(d, a) && d.g.Ends(d.src, d.sink) && t < d.N() && a.iter[t] < d.iters && Wants(d, a, t).None?
    ensures Enabled(d, a, t)
  {
  }

  /** An operation the queue does not block is a step the DAG can take. */
  lemma UnblockedEnabled(d: Dag, x: System, t: nat, v: nat, op: M.Op)
    requires Sized(d, x) && CellsAgree(d, x) && t < d.N() && v < d.N() && M.Masked(x.qs[v]) && x.a.iter[t] < d.iters
    requires Wants(d, x.a, t) == Some(Want(v, op)) && !M.Blocked(x.qs[v].q, op)
    ensures Enabled(d, x.a, t)
  {
    if op.Push? {
      M.MaskMeans(x.qs[v], op.i);
    } else {
      forall j: nat | j < Inputs(d, v) ensures Filled(d, x.a, v, j) {
        M.MaskMeans(x.qs[v], j);
      }
      if v != d.src {
        forall j | 0 <= j < |d.g.ins[v]| ensures x.a.full[v][j] {
          assert Filled(d, x.a, v, j);
        }
      } else {
        assert Filled(d, x.a, v, 0);
      }
    }
  }

  /** So a thread about to store or take is about to take its step in the DAG. */
  lemma ActEnabled(d: Dag, x: System, v: nat, t: nat)
    requires Sized(d, x) && CellsAgree(d, x) && ThreadsAgree(d, x) && v < d.N() && t < d.N() && x.qs[v].pc[t].Act?
    requires M.Masked(x.qs[v]) && M.Locked(x.qs[v])
    ensures Enabled(d, x.a, t) && Wants(d, x.a, t) == Some(Want(v, x.qs[v].pc[t].op))
  {
    assert Before(x.qs[v].pc[t]);
    UnblockedEnabled(d, x, t, v, x.qs[v].pc[t].op);
  }

  lemma SoundAct(d: Dag, x: System, v: nat, t: nat)
    requires Agree(d, x) && v < d.N() && t < d.N() && x.qs[v].pc[t].Act?
    ensures Enabled(d, x.a, t) && Wants(d, x.a, t) == Some(Want(v, x.qs[v].pc[t].op))
  {
    assert M.Inv(x.qs[v]);
    ActEnabled(d, x, v, t);
  }

  lemma CallEnabled(d: Dag, x: System, t: nat)
    requires Sized(d, x) && CanAct(d, x, Begin(t))
    ensures var w := Wants(d, x.a, t).value; w.v < d.N() && M.Enabled(x.qs[w.v], M.Call(t, w.op))
  {
  }

  function Take(d: Dag, x: System, act: Act): System
    requires Agree(d, x) && CanAct(d, x, act)
  {
    match act
    case Local(t) => LocalEnabled(d, x.a, t); x.(a := Step(d, x.a, t))
    case Begin(t) =>
      CallEnabled(d, x, t);
      var w := Wants(d, x.a, t).value;
      x.(qs := x.qs[w.v := M.Step(x.qs[w.v], M.Call(t, w.op))])
    case Queue(v, t, w) =>
      var x1 := x.(qs := x.qs[v := M.Step(x.qs[v], M.Go(t, w))]);
      if x.qs[v].pc[t].Act? then SoundAct(d, x, v, t); x1.(a := Step(d, x.a, t)) else x1
    case Spurious(v, t) => x.(qs := x.qs[v := M.Step(x.qs[v], M.Spurious(t))])
  }

  // ------------------------------------------------------------ preservation

  /** A queue step other than a store or a take changes no contents, and threads
      keep their operations. */
  predicate SameOps(q: M.State, q': M.State) {
    && |q'.pc| == |q.pc|
    && forall u | 0 <= u < |q.pc| ::
         && (q.pc[u].Out? ==> q'.pc[u].Out?)
         && (Before(q'.pc[u]) ==> Before(q.pc[u]) && q'.pc[u].op == q.pc[u].op)
  }

  predicate SameContents(q: M.State, q': M.State) {
    q'.pushed == q.pushed && q'.popped == q.popped && q'.q.elems == q.q.elems
  }

  lemma GoKeepsOps(q: M.State, t: nat, w: nat)
    requires M.Sized(q) && M.Enabled(q, M.Go(t, w))
    ensures SameOps(q, M.Step(q, M.Go(t, w)))
    ensures !q.pc[t].Act? ==> SameContents(q, M.Step(q, M.Go(t, w)))
  {
  }

  lemma SpuriousKeepsOps(q: M.State, t: nat)
    requires M.Sized(q) && M.Enabled(q, M.Spurious(t))
    ensures SameOps(q, M.Step(q, M.Spurious(t))) && SameContents(q, M.Step(q, M.Spurious(t)))
  {
  }

  /** A step of the DAG changes only its own thread's next step. */
  lemma StepWants(d: Dag, a: State, t: nat, u: nat)
    requires Shape(d, a) && Enabled(d, a, t) && u < d.N() && u != t
    ensures Shape(d, Step(d, a, t)) && Step(d, a, t).iter[u] == a.iter[u] && Wants(d, Step(d, a, t), u) == Wants(d, a, u)
  {
    StepShape(d, a, t);
  }

  /** Queue `v` becomes `q`. */
  function With(x: System, v: nat, q: M.State): System
    requires v < |x.qs|
  {
    x.(qs := x.qs[v := q])
  }

  ghost predicate Fits(d: Dag, v: nat, q: M.State)
    requires v < d.N()
  {
    M.Sized(q) && |q.pc| == d.N() && q.N() == Inputs(d, v)
  }

  lemma WithSized(d: Dag, x: System, v: nat, q: M.State)
    requires Sized(d, x) && v < d.N() && Fits(d, v, q)
    ensures Sized(d, With(x, v, q))
  {
  }

  lemma WithSound(x: System, v: nat, q: M.State)
    requires Sound(x) && v < |x.qs| && M.Inv(q)
    ensures Sound(With(x, v, q))
  {
  }

  lemma WithCells(d: Dag, x: System, v: nat, q: M.State)
    requires Sized(d, x) && CellsAgree(d, x) && StartAgrees(d, x) && v < d.N() && Fits(d, v, q)
    requires SameContents(x.qs[v], q)
    ensures Sized(d, With(x, v, q)) && CellsAgree(d, With(x, v, q)) && StartAgrees(d, With(x, v, q))
  {
  }

  lemma WithThreads(d: Dag, x: System, v: nat, q: M.State)
    requires Sized(d, x) && ThreadsAgree(d, x) && v < d.N() && Fits(d, v, q) && SameOps(x.qs[v], q)
    ensures Sized(d, With(x, v, q)) && ThreadsAgree(d, With(x, v, q))
  {
  }

  /** A queue changes, but neither its contents nor the threads' operations. */
  lemma QueueKeeps(d: Dag, x: System, v: nat, q: M.State)
    requires Agree(d, x) && v < d.N() && M.Inv(q) && Fits(d, v, q)
    requires SameOps(x.qs[v], q) && SameContents(x.qs[v], q)
    ensures Agree(d, With(x, v, q))
  {
    WithSound(x, v, q);
    WithCells(d, x, v, q);
    WithThreads(d, x, v, q);
  }

  /** A thread outside enters a queue with its next operation. */
  lemma BeginThreads(d: Dag, x: System, t: nat, v: nat, op: M.Op, q: M.State)
    requires Sized(d, x) && ThreadsAgree(d, x) && t < d.N() && Outside(x, t) && x.a.iter[t] < d.iters
    requires Wants(d, x.a, t) == Some(Want(v, op)) && v < d.N() && Fits(d, v, q)
    requires q.pc == x.qs[v].pc[t := M.Lock(op)]
    ensures Sized(d, With(x, v, q)) && ThreadsAgree(d, With(x, v, q))
  {
    WithSized(d, x, v, q);
    var x' := With(x, v, q);
    forall u, w1, w2 | 0 <= u < d.N() && 0 <= w1 < w2 < d.N() ensures x'.qs[w1].pc[u].Out? || x'.qs[w2].pc[u].Out? {
      assert x.qs[w1].pc[u].Out? || x.qs[w2].pc[u].Out?;
      assert u == t ==> x.qs[w1].pc[u].Out? && x.qs[w2].pc[u].Out?;
    }
    forall u, w | 0 <= u < d.N() && 0 <= w < d.N() && Before(x'.qs[w].pc[u])
      ensures x.a.iter[u] < d.iters && Wants(d, x.a, u) == Some(Want(w, x'.qs[w].pc[u].op))
    {
      assert u == t || w != v ==> (u == t && w == v) || Before(x.qs[w].pc[u]);
    }
  }

  lemma CallIs(q: M.State, t: nat, op: M.Op)
    requires M.Sized(q) && M.Enabled(q, M.Call(t, op))
    ensures M.Step(q, M.Call(t, op)) == q.(pc := q.pc[t := M.Lock(op)])
  {
  }

  lemma BeginKeeps(d: Dag, x: System, t: nat)
    requires Agree(d, x) && CanAct(d, x, Begin(t))
    ensures Agree(d, Take(d, x, Begin(t)))
  {
    CallEnabled(d, x, t);
    var w := Wants(d, x.a, t).value;
    var q := M.Step(x.qs[w.v], M.Call(t, w.op));
    assert M.Inv(x.qs[w.v]);
    M.StepKeeps(x.qs[w.v], M.Call(t, w.op));
    CallIs(x.qs[w.v], t, w.op);
    WithSound(x, w.v, q);
    WithCells(d, x, w.v, q);
    BeginThreads(d, x, t, w.v, w.op, q);
  }

  lemma SpuriousKeeps(d: Dag, x: System, v: nat, t: nat)
    requires Agree(d, x) && CanAct(d, x, Spurious(v, t))
    ensures Agree(d, Take(d, x, Spurious(v, t)))
  {
    assert M.Inv(x.qs[v]);
    M.StepKeeps(x.qs[v], M.Spurious(t));
    SpuriousKeepsOps(x.qs[v], t);
    QueueKeeps(d, x, v, M.Step(x.qs[v], M.Spurious(t)));
  }

  /** A step of the DAG that is no queue operation. */
  lemma LocalKeeps(d: Dag, x: System, t: nat)
    requires Agree(d, x) && CanAct(d, x, Local(t))
    ensures Agree(d, Take(d, x, Local(t)))
  {
    LocalEnabled(d, x.a, t);
    LocalSized(d, x, t);
    LocalThreads(d, x, t);
  }

  lemma LocalSized(d: Dag, x: System, t: nat)
    requires Sized(d, x) && CellsAgree(d, x) && StartAgrees(d, x) && CanAct(d, x, Local(t)) && Enabled(d, x.a, t)
    ensures var x' := x.(a := Step(d, x.a, t)); Sized(d, x') && CellsAgree(d, x') && StartAgrees(d, x')
  {
    StepShape(d, x.a, t);
  }

  lemma LocalThreads(d: Dag, x: System, t: nat)
    requires Sized(d, x) && ThreadsAgree(d, x) && t < d.N() && Outside(x, t) && Enabled(d, x.a, t)
    ensures var x' := x.(a := Step(d, x.a, t)); Sized(d, x') && ThreadsAgree(d, x')
  {
    StepShape(d, x.a, t);
    forall u, v | 0 <= u < d.N() && 0 <= v < d.N() && Before(x.qs[v].pc[u])
      ensures Step(d, x.a, t).iter[u] < d.iters && Wants(d, Step(d, x.a, t), u) == Some(Want(v, x.qs[v].pc[u].op))
    {
      StepWants(d, x.a, t, u);
    }
  }

  /** The DAG's cells after operation `op` on queue `v`: a push fills one, a pop
      empties all of them. */
  ghost predicate CellsAfter(d: Dag, a: State, a': State, v: nat, op: M.Op)
    requires Shape(d, a) && Shape(d, a')
  {
    && (forall u, j | 0 <= u < d.N() && 0 <= j < Inputs(d, u) ::
          Filled(d, a', u, j) ==
            if u != v then Filled(d, a, u, j) else op.Push? && (j == op.i || Filled(d, a, u, j)))
    && (v != d.src ==> a'.start == a.start)
    && (v == d.src ==> a'.start == if op.Push? then Some(op.x) else None)
  }

  /** Likewise the queue's own. */
  ghost predicate ContentsAfter(q: M.State, q': M.State, op: M.Op)
  {
    && |q'.pushed| == |q.pushed|
    && (forall j | 0 <= j < |q.pushed| ::
          |q'.pushed[j]| > |q'.popped| <==> op.Push? && (j == op.i || |q.pushed[j]| > |q.popped|))
    && (op.Push? ==> op.i < |q.q.elems| && q'.q.elems == q.q.elems[op.i := op.x])
  }

  lemma StepFills(d: Dag, a: State, t: nat, v: nat, op: M.Op)
    requires Shape(d, a) && d.g.Ends(d.src, d.sink) && Enabled(d, a, t) && Wants(d, a, t) == Some(Want(v, op)) && v < d.N()
    ensures Shape(d, Step(d, a, t)) && CellsAfter(d, a, Step(d, a, t), v, op)
  {
    StepShape(d, a, t);
  }

  lemma ActFills(q: M.State, t: nat, w: nat)
    requires M.Sized(q) && M.Cells(q) && M.Masked(q) && M.Locked(q) && M.Enabled(q, M.Go(t, w)) && q.pc[t].Act?
    ensures ContentsAfter(q, M.Step(q, M.Go(t, w)), q.pc[t].op)
  {
    if q.pc[t].op.Push? {
      M.MaskMeans(q, q.pc[t].op.i);
    }
  }

  lemma ActCells(d: Dag, x: System, v: nat, q: M.State, a: State, op: M.Op)
    requires Sized(d, x) && CellsAgree(d, x) && StartAgrees(d, x) && v < d.N() && Fits(d, v, q) && Shape(d, a)
    requires CellsAfter(d, x.a, a, v, op) && ContentsAfter(x.qs[v], q, op)
    ensures var x' := With(x, v, q).(a := a); Sized(d, x') && CellsAgree(d, x') && StartAgrees(d, x')
  {
  }

  lemma ActThreads(d: Dag, x: System, v: nat, t: nat, q: M.State)
    requires Sized(d, x) && ThreadsAgree(d, x) && t < d.N() && v < d.N() && Fits(d, v, q) && SameOps(x.qs[v], q)
    requires Enabled(d, x.a, t) && !x.qs[v].pc[t].Out? && !Before(q.pc[t])
    ensures var x' := With(x, v, q).(a := Step(d, x.a, t)); Sized(d, x') && ThreadsAgree(d, x')
  {
    StepShape(d, x.a, t);
    WithThreads(d, x, v, q);
    var x1 := With(x, v, q);
    forall u, w | 0 <= u < d.N() && 0 <= w < d.N() && Before(x1.qs[w].pc[u])
      ensures Step(d, x.a, t).iter[u] < d.iters && Wants(d, Step(d, x.a, t), u) == Some(Want(w, x1.qs[w].pc[u].op))
    {
      assert u != t;
      StepWants(d, x.a, t, u);
    }
  }

  lemma ActAgrees(d: Dag, x: System, v: nat, t: nat, q: M.State, op: M.Op)
    requires Sized(d, x) && CellsAgree(d, x) && StartAgrees(d, x) && ThreadsAgree(d, x) && t < d.N() && v < d.N()
    requires Enabled(d, x.a, t) && Wants(d, x.a, t) == Some(Want(v, op)) && !x.qs[v].pc[t].Out?
    requires Fits(d, v, q) && q.pc[t].Ring? && ContentsAfter(x.qs[v], q, op) && SameOps(x.qs[v], q)
    ensures var x' := With(x, v, q).(a := Step(d, x.a, t));
            Sized(d, x') && CellsAgree(d, x') && StartAgrees(d, x') && ThreadsAgree(d, x')
  {
    StepFills(d, x.a, t, v, op);
    ActCells(d, x, v, q, Step(d, x.a, t), op);
    ActThreads(d, x, v, t, q);
  }

  lemma ActKeeps(d: Dag, x: System, v: nat, t: nat, w: nat)
    requires Agree(d, x) && CanAct(d, x, Queue(v, t, w)) && x.qs[v].pc[t].Act?
    ensures Agree(d, Take(d, x, Queue(v, t, w)))
  {
    var q' := M.Step(x.qs[v], M.Go(t, w));
    SoundAct(d, x, v, t);
    ActSound(x, v, t, w);
    WithSound(x, v, q');
    ActAgrees(d, x, v, t, q', x.qs[v].pc[t].op);
  }

  lemma ActSound(x: System, v: nat, t: nat, w: nat)
    requires Sound(x) && v < |x.qs| && M.Sized(x.qs[v]) && M.Enabled(x.qs[v], M.Go(t, w)) && x.qs[v].pc[t].Act?
    ensures var q, q' := x.qs[v], M.Step(x.qs[v], M.Go(t, w));
      && M.Inv(q') && |q'.pc| == |q.pc| && q'.N() == q.N() && q'.pc[t].Ring?
      && ContentsAfter(q, q', q.pc[t].op) && SameOps(q, q')
  {
    assert M.Inv(x.qs[v]);
    M.StepKeeps(x.qs[v], M.Go(t, w));
    GoKeepsOps(x.qs[v], t, w);
    ActFills(x.qs[v], t, w);
  }

  lemma TakeKeeps(d: Dag, x: System, act: Act)
    requires Agree(d, x) && CanAct(d, x, act)
    ensures Agree(d, Take(d, x, act))
  {
    match act
    case Local(t) => LocalKeeps(d, x, t);
    case Begin(t) => BeginKeeps(d, x, t);
    case Spurious(v, t) => SpuriousKeeps(d, x, v, t);
    case Queue(v, t, w) =>
      if x.qs[v].pc[t].Act? {
        ActKeeps(d, x, v, t, w);
      } else {
        assert M.Inv(x.qs[v]);
        M.StepKeeps(x.qs[v], M.Go(t, w));
        GoKeepsOps(x.qs[v], t, w);
        QueueKeeps(d, x, v, M.Step(x.qs[v], M.Go(t, w)));
      }
  }

  lemma InitQueue(n: nat, threads: nat)
    requires n > 0
    ensures var q := M.Init(seq(n, _ => 0), threads);
      && M.Inv(q) && |q.pc| == threads && q.N() == n && q.popped == [] && |q.pushed| == n
      && (forall j | 0 <= j < n :: q.pushed[j] == []) && (forall t | 0 <= t < threads :: q.pc[t] == M.Out)
  {
    M.InitHolds(seq(n, _ => 0), threads);
  }

  lemma InitSound(d: Dag, v: nat)
    requires d.g.Sized() && d.g.Ends(d.src, d.sink) && v < d.N()
    ensures var q := Init(d).qs[v];
      && M.Inv(q) && Fits(d, v, q) && q.popped == [] && |q.pushed| == Inputs(d, v)
      && (forall j | 0 <= j < Inputs(d, v) :: q.pushed[j] == []) && (forall t | 0 <= t < d.N() :: q.pc[t] == M.Out)
  {
    InitQueue(Inputs(d, v), d.N());
  }

  lemma InitSized(d: Dag)
    requires d.g.Sized() && d.g.Ends(d.src, d.sink) && Shape(d, RtDagRun.Init(d))
    ensures Sized(d, Init(d)) && Sound(Init(d))
    ensures forall v | 0 <= v < d.N() :: var q := Init(d).qs[v];
      && q.popped == [] && |q.pushed| == Inputs(d, v)
      && (forall j | 0 <= j < Inputs(d, v) :: q.pushed[j] == []) && (forall t | 0 <= t < d.N() :: q.pc[t] == M.Out)
  {
    forall v: nat | v < d.N()
      ensures var q := Init(d).qs[v];
        && M.Inv(q) && Fits(d, v, q) && q.popped == [] && |q.pushed| == Inputs(d, v)
        && (forall j | 0 <= j < Inputs(d, v) :: q.pushed[j] == []) && (forall t | 0 <= t < d.N() :: q.pc[t] == M.Out)
    {
      InitSound(d, v);
    }
  }

  lemma InitAgrees(d: Dag)
    requires d.g.Sized() && d.g.Ends(d.src, d.sink) && Shape(d, RtDagRun.Init(d))
    ensures Agree(d, Init(d))
  {
    InitSized(d);
  }

  // -------------------------------------------------------------------- runs

  ghost function Boots(d: Dag): System -> bool {
    (x: System) => x == Init(d)
  }

  ghost function Takes(d: Dag): (System, Act, System) -> bool {
    (x: System, act: Act, x': System) => Agree(d, x) && CanAct(d, x, act) && x' == Take(d, x, act)
  }

  /** Some interleaving of mutex, condition-variable and task steps leads to `x`. */
  ghost predicate Reachable(d: Dag, x: System) {
    Runs.Reachable(Boots(d), Takes(d), x)
  }

  /** Some interleaving of the DAG over one-place cells leads to `a`. */
  ghost predicate Led(d: Dag, a: State) {
    exists ts: seq<nat> :: Leads(d, ts, a)
  }

  ghost function Known(d: Dag): System -> bool {
    (x: System) => Agree(d, x) && Led(d, x.a) && PushesFlow(d, x)
  }

  lemma LedOn(d: Dag, a: State, t: nat)
    requires d.Valid() && Led(d, a) && Shape(d, a) && Enabled(d, a, t)
    ensures Led(d, Step(d, a, t))
  {
    var ts: seq<nat> :| Leads(d, ts, a);
    LeadsKeeps(d, ts, a);
    assert RtDagTheorems.Takes(d)(a, t, Step(d, a, t));
    Runs.LeadsOn(RtDagRun.Init(d), RtDagTheorems.Takes(d), ts, a, t, Step(d, a, t));
    assert Leads(d, ts + [t], Step(d, a, t));
  }

  /** Every act is a step of the DAG or none. */
  lemma TakeLed(d: Dag, x: System, act: Act)
    requires d.Valid() && Agree(d, x) && CanAct(d, x, act) && Led(d, x.a)
    ensures Led(d, Take(d, x, act).a)
  {
    match act
    case Local(t) =>
      LocalEnabled(d, x.a, t);
      LedOn(d, x.a, t);
    case Begin(t) =>
    case Spurious(v, t) =>
    case Queue(v, t, w) =>
      if x.qs[v].pc[t].Act? {
        SoundAct(d, x, v, t);
        LedOn(d, x.a, t);
      }
  }

  /** The thread is inside the wait of a push. */
  predicate PushWaits(pc: M.Pc) {
    (pc.Asleep? || pc.Awake? || pc.Again?) && pc.op.Push?
  }

  /** Nobody waits to push a message; the start-time queue is another matter. */
  ghost predicate PushesFlow(d: Dag, x: System)
    requires Sized(d, x)
  {
    forall v, t | 0 <= v < d.N() && v != d.src && 0 <= t < d.N() :: !PushWaits(x.qs[v].pc[t])
  }

  /** A thread that tests whether it may push its message finds that it may. */
  lemma PushIsUnblocked(d: Dag, x: System, v: nat, t: nat)
    requires d.Valid() && Agree(d, x) && Led(d, x.a) && v < d.N() && v != d.src && t < d.N()
    requires x.qs[v].pc[t].Test? && x.qs[v].pc[t].op.Push?
    ensures !M.Blocked(x.qs[v].q, x.qs[v].pc[t].op)
  {
    assert M.Inv(x.qs[v]) && Before(x.qs[v].pc[t]);
    LedInside(d, x.a, t);
    EnabledUnblocked(d, x, t, v, x.qs[v].pc[t].op);
  }

  lemma LedInside(d: Dag, a: State, t: nat)
    requires d.Valid() && Led(d, a) && t < d.N()
    ensures Shape(d, a) && (a.pos[t] > 0 ==> Enabled(d, a, t))
  {
    var ts: seq<nat> :| Leads(d, ts, a);
    LeadsKeeps(d, ts, a);
    if a.pos[t] > 0 {
      InsideGoesOn(d, a, t);
    }
  }

  /** In a queue, only a test that fails begins a wait. */
  lemma WaitBegins(q: M.State, t: nat, w: nat, u: nat)
    requires M.Sized(q) && M.Enabled(q, M.Go(t, w)) && u < |q.pc|
    ensures u < |M.Step(q, M.Go(t, w)).pc|
    ensures PushWaits(M.Step(q, M.Go(t, w)).pc[u]) ==>
              PushWaits(q.pc[u]) || (u == t && q.pc[t].Test? && q.pc[t].op.Push? && M.Blocked(q.q, q.pc[t].op))
  {
  }

  lemma GoFlows(d: Dag, x: System, v: nat, t: nat, w: nat, u: nat)
    requires d.Valid() && Agree(d, x) && Led(d, x.a) && PushesFlow(d, x) && v < d.N() && v != d.src && u < d.N()
    requires M.Enabled(x.qs[v], M.Go(t, w))
    ensures u < |M.Step(x.qs[v], M.Go(t, w)).pc| && !PushWaits(M.Step(x.qs[v], M.Go(t, w)).pc[u])
  {
    WaitBegins(x.qs[v], t, w, u);
    if x.qs[v].pc[t].Test? && x.qs[v].pc[t].op.Push? {
      PushIsUnblocked(d, x, v, t);
    }
  }

  /** The queues after an act. */
  lemma QueuesAfter(d: Dag, x: System, act: Act)
    requires Agree(d, x) && CanAct(d, x, act)
    ensures act.Local? ==> Take(d, x, act).qs == x.qs
    ensures act.Begin? ==> Wants(d, x.a, act.t).Some? && var w := Wants(d, x.a, act.t).value;
              && w.v < d.N() && M.Enabled(x.qs[w.v], M.Call(act.t, w.op))
              && Take(d, x, act).qs == x.qs[w.v := M.Step(x.qs[w.v], M.Call(act.t, w.op))]
    ensures act.Queue? ==> Take(d, x, act).qs == x.qs[act.v := M.Step(x.qs[act.v], M.Go(act.t, act.w))]
    ensures act.Spurious? ==> Take(d, x, act).qs == x.qs[act.v := M.Step(x.qs[act.v], M.Spurious(act.t))]
  {
    if act.Begin? {
      CallEnabled(d, x, act.t);
    }
  }

  /** No act but a step in the queue begins a wait there. */
  lemma OthersFlow(d: Dag, x: System, act: Act, v: nat, u: nat)
    requires Agree(d, x) && CanAct(d, x, act) && v < d.N() && u < d.N() && !PushWaits(x.qs[v].pc[u])
    ensures var q := Take(d, x, act).qs;
      && |q| == d.N() && (act.Queue? && act.v == v ==> q[v] == M.Step(x.qs[v], M.Go(act.t, act.w)))
      && (!(act.Queue? && act.v == v) ==> u < |q[v].pc| && !PushWaits(q[v].pc[u]))
  {
    QueuesAfter(d, x, act);
  }

  lemma TakeFlows(d: Dag, x: System, act: Act)
    requires d.Valid() && Agree(d, x) && CanAct(d, x, act) && Led(d, x.a) && PushesFlow(d, x)
    ensures Agree(d, Take(d, x, act)) && PushesFlow(d, Take(d, x, act))
  {
    TakeKeeps(d, x, act);
    forall v, u | 0 <= v < d.N() && v != d.src && 0 <= u < d.N() ensures !PushWaits(Take(d, x, act).qs[v].pc[u]) {
      OthersFlow(d, x, act, v, u);
      if act.Queue? && act.v == v {
        GoFlows(d, x, v, act.t, act.w, u);
      }
    }
  }


  lemma KnownIsClosed(d: Dag)
    requires d.Valid()
    ensures Runs.Closed(Boots(d), Takes(d), Known(d))
  {
    forall x: System | Boots(d)(x) ensures Known(d)(x) {
      InitShape(d);
      InitAgrees(d);
      Runs.LeadsStart(RtDagRun.Init(d), RtDagTheorems.Takes(d));
      assert Leads(d, [], RtDagRun.Init(d));
    }
    forall x: System, act: Act, x': System | Takes(d)(x, act, x') && Known(d)(x) ensures Known(d)(x') {
      TakeFlows(d, x, act);
      TakeLed(d, x, act);
    }
  }

  lemma ReachableAgrees(d: Dag, x: System)
    requires d.Valid() && Reachable(d, x)
    ensures Agree(d, x) && Led(d, x.a) && PushesFlow(d, x)
  {
    KnownIsClosed(d);
    assert Known(d)(x);
  }

  // ---------------------------------------------------------------- theorems

  /** The DAG over its multi-queues refines the DAG over one-place cells: some run
      of the latter leads to the same state, and each cell is full exactly when its
      bit is set. */
  lemma QueuesRefineCells(d: Dag, x: System) returns (ts: seq<nat>)
    requires d.Valid() && Reachable(d, x)
    ensures Leads(d, ts, x.a) && Sized(d, x)
    ensures forall v, j | 0 <= v < d.N() && 0 <= j < Inputs(d, v) :: Filled(d, x.a, v, j) <==> Q.Bit(x.qs[v].q.mask, j)
  {
    ReachableAgrees(d, x);
    ts :| Leads(d, ts, x.a);
    forall v, j | 0 <= v < d.N() && 0 <= j < Inputs(d, v)
      ensures Filled(d, x.a, v, j) <==> Q.Bit(x.qs[v].q.mask, j)
    {
      assert M.Inv(x.qs[v]);
      M.MaskMeans(x.qs[v], j);
    }
  }

  lemma {:induction false} NoneWait(pc: seq<M.Pc>, j: nat)
    requires forall t | 0 <= t < |pc| :: !PushWaits(pc[t])
    ensures M.Waiters(pc, j) == 0
  {
    if pc != [] {
      NoneWait(pc[..|pc| - 1], j);
    }
  }

  /** No push of a message ever waits, at any mutex or condition-variable step: none
      of a task's producers is in a wait, so none is counted, and one that tests its
      cell finds it empty. */
  lemma PushesNeverWait(d: Dag, x: System, v: nat, t: nat)
    requires d.Valid() && Reachable(d, x) && v < d.N() && v != d.src && t < d.N()
    ensures Sized(d, x) && !PushWaits(x.qs[v].pc[t])
    ensures forall j | 0 <= j < Inputs(d, v) :: x.qs[v].q.waiting[j] == 0
    ensures x.qs[v].pc[t].Test? && x.qs[v].pc[t].op.Push? ==> !M.Blocked(x.qs[v].q, x.qs[v].pc[t].op)
  {
    ReachableAgrees(d, x);
    assert M.Inv(x.qs[v]);
    forall j: nat | j < Inputs(d, v) ensures x.qs[v].q.waiting[j] == 0 {
      NoneWait(x.qs[v].pc, j);
    }
    if x.qs[v].pc[t].Test? && x.qs[v].pc[t].op.Push? {
      PushIsUnblocked(d, x, v, t);
    }
  }

  /** And buffers stay free of races: while a thread has an input still to read, its
      pop of that iteration done, the input's producer is not at the write of the
      buffer. */
  lemma RaceFreeOverQueues(d: Dag, x: System, v: nat, j: nat)
    requires d.Valid() && Reachable(d, x) && v < d.N() && j < |d.g.ins[v]|
    ensures Sized(d, x)
    ensures !(Next(d, x.a, v) == ReadIn(j) && Next(d, x.a, d.g.ins[v][j]) == WriteOut(d.g.back[v][j]))
  {
    var ts := QueuesRefineCells(d, x);
    RaceFree(d, ts, x.a, v, j);
  }

  /** Any act but a spurious wakeup. */
  ghost predicate Progress(d: Dag, x: System, act: Act)
    requires Sized(d, x)
  {
    !act.Spurious? && CanAct(d, x, act)
  }

  ghost predicate AllOut(d: Dag, x: System)
    requires Sized(d, x)
  {
    forall t | 0 <= t < d.N() :: Outside(x, t)
  }

  /** A thread inside a queue and not asleep lets someone go on. */
  lemma InsideGoesOnInQueue(d: Dag, x: System, v: nat, t: nat) returns (act: Act)
    requires Sized(d, x) && Sound(x) && v < d.N() && t < d.N() && !x.qs[v].pc[t].Out? && !x.qs[v].pc[t].Asleep?
    ensures Progress(d, x, act)
  {
    assert M.Inv(x.qs[v]);
    var e := M.SomeoneGoesOn(x.qs[v], t);
    act := Queue(v, e.t, e.w);
  }

  /** So does a sleeper whose step the DAG could take. */
  lemma SleeperGoesOn(d: Dag, x: System, v: nat, t: nat) returns (act: Act)
    requires Agree(d, x) && v < d.N() && t < d.N() && x.qs[v].pc[t].Asleep? && Enabled(d, x.a, t)
    ensures Progress(d, x, act)
  {
    assert M.Inv(x.qs[v]);
    var op := x.qs[v].pc[t].op;
    assert Before(x.qs[v].pc[t]);
    EnabledUnblocked(d, x, t, v, op);
    assert M.Wanted(x.qs[v].q, M.CvOf(op));
    var u :| 0 <= u < |x.qs[v].pc| && M.Helps(x.qs[v].pc[u], M.CvOf(op));
    act := InsideGoesOnInQueue(d, x, v, u);
  }

  /** A queue does not block an operation the DAG can take. */
  lemma EnabledUnblocked(d: Dag, x: System, t: nat, v: nat, op: M.Op)
    requires Sized(d, x) && CellsAgree(d, x) && t < d.N() && v < d.N() && M.Masked(x.qs[v]) && M.Cells(x.qs[v])
    requires Enabled(d, x.a, t) && Wants(d, x.a, t) == Some(Want(v, op))
    ensures !M.Blocked(x.qs[v].q, op)
  {
    if op.Push? {
      M.MaskMeans(x.qs[v], op.i);
      assert !Filled(d, x.a, v, op.i);
    } else {
      AllFilled(d, x, t, v);
      Q.MaskFull(M.Filled(x.qs[v]));
    }
  }

  lemma AllFilled(d: Dag, x: System, t: nat, v: nat)
    requires Sized(d, x) && CellsAgree(d, x) && t < d.N() && v < d.N()
    requires Enabled(d, x.a, t) && Wants(d, x.a, t) == Some(Want(v, M.Pop))
    ensures forall j | 0 <= j < Inputs(d, v) :: M.Filled(x.qs[v])[j]
  {
    forall j | 0 <= j < Inputs(d, v) ensures M.Filled(x.qs[v])[j] {
      assert Filled(d, x.a, v, j);
    }
  }

  /** No deadlock at any level: unless every thread has done all its iterations and
      is out of every queue, some thread can take a step other than waking up. */
  lemma SomeThreadGoesOn(d: Dag, x: System) returns (act: Act)
    requires d.Valid() && Reachable(d, x) && Sized(d, x) && !(Finished(d, x.a) && AllOut(d, x))
    ensures Progress(d, x, act)
  {
    ReachableAgrees(d, x);
    if t, v :| 0 <= t < d.N() && 0 <= v < d.N() && !x.qs[v].pc[t].Out? && !x.qs[v].pc[t].Asleep? {
      act := InsideGoesOnInQueue(d, x, v, t);
    } else {
      SleepersAreUnfinished(d, x);
      var t := LedGoesOn(d, x.a);
      act := EnabledGoesOn(d, x, t);
    }
  }

  lemma LedGoesOn(d: Dag, a: State) returns (t: nat)
    requires d.Valid() && Led(d, a) && |a.iter| == d.N() && !Finished(d, a)
    ensures Shape(d, a) && Enabled(d, a, t)
  {
    var ts: seq<nat> :| Leads(d, ts, a);
    LeadsKeeps(d, ts, a);
    t := NoDeadlock(d, a);
  }

  /** Whoever sleeps has iterations to do. */
  lemma SleepersAreUnfinished(d: Dag, x: System)
    requires Sized(d, x) && ThreadsAgree(d, x) && !(Finished(d, x.a) && AllOut(d, x))
    requires forall u, v | 0 <= u < d.N() && 0 <= v < d.N() :: x.qs[v].pc[u].Out? || x.qs[v].pc[u].Asleep?
    ensures !Finished(d, x.a)
  {
    if t, v :| 0 <= t < d.N() && 0 <= v < d.N() && !x.qs[v].pc[t].Out? {
      assert Before(x.qs[v].pc[t]);
      assert x.a.iter[t] < d.iters;
    } else {
      assert AllOut(d, x);
    }
  }

  lemma EnabledGoesOn(d: Dag, x: System, t: nat) returns (act: Act)
    requires Agree(d, x) && Enabled(d, x.a, t)
    requires forall u, v | 0 <= u < d.N() && 0 <= v < d.N() :: x.qs[v].pc[u].Out? || x.qs[v].pc[u].Asleep?
    ensures Progress(d, x, act)
  {
    if v :| 0 <= v < d.N() && !x.qs[v].pc[t].Out? {
      act := SleeperGoesOn(d, x, v, t);
    } else {
      act := if Wants(d, x.a, t).None? then Local(t) else Begin(t);
    }
  }

  lemma DoneStops(d: Dag, x: System, act: Act)
    requires Sized(d, x) && Finished(d, x.a) && AllOut(d, x)
    ensures !Progress(d, x, act)
  {
    if act.Queue? && act.t < d.N() {
      assert Outside(x, act.t);
    }
  }

  /** And then none can. */
  lemma AllDone(d: Dag, x: System)
    requires d.Valid() && Reachable(d, x)
    ensures Sized(d, x)
    ensures (forall act :: !Progress(d, x, act)) <==> Finished(d, x.a) && AllOut(d, x)
  {
    ReachableAgrees(d, x);
    if !(Finished(d, x.a) && AllOut(d, x)) {
      var act := SomeThreadGoesOn(d, x);
    } else {
      forall act ensures !Progress(d, x, act) {
        DoneStops(d, x, act);
      }
    }
  }
}
