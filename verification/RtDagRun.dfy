/** The threads of a DAG, interleaved step by step over one-place input cells,
    shared message buffers and the one-place start-time queue. */
module RtDagRun {
  import opened Wrappers
  import opened RtDagGraph

  /** What a buffer holds: nothing, or what a producer wrote in one of its
      iterations. */
  datatype Message = Blank | Message(src: nat, iter: nat)

  /** Task `task`, in its iteration `iter`, has read `msg` from an input. */
  datatype Read = Read(task: nat, input: nat, iter: nat, msg: Message)

  /** A DAG to run for `iters` iterations; `cpu(t)` says that t is a CPU task and
      not a FRED one; `startTime(k)` is the clock value the source takes in
      iteration k. */
  datatype Dag = Dag(g: Graph, src: nat, sink: nat, cpu: nat -> bool, iters: nat, startTime: nat -> nat) {
    ghost predicate Valid() {
      g.Wired() && g.Acyclic() && g.Ends(src, sink) && cpu(src) && cpu(sink)
    }

    /** What task `u` puts in its buffers in iteration `i`: a FRED task leaves
        them alone. */
    function Sent(u: nat, i: nat): Message {
      if cpu(u) then Message(u, i) else Blank
    }

    function N(): nat {
      |g.ins|
    }

    // A thread's iteration is a row of positions: enter, read each input, write
    // and push each output, leave.

    function FirstWrite(t: nat): nat
      requires t < |g.ins|
    {
      1 + |g.ins[t]|
    }

    function Last(t: nat): nat
      requires t < |g.ins| == |g.outs|
    {
      FirstWrite(t) + 2 * |g.outs[t]|
    }
  }

  /** `full[v][j]` and `buf[v][j]` are the cell and the buffer of input j of v.
      `seen` and `resp` record every message read and every start time the sink
      has popped. */
  datatype State = State(iter: seq<nat>, pos: seq<nat>, full: seq<seq<bool>>, buf: seq<seq<Message>>,
                         start: Option<nat>, seen: seq<Read>, resp: seq<nat>)

  function Init(d: Dag): State {
    State(seq(d.N(), _ => 0), seq(d.N(), _ => 0),
          seq(d.N(), v requires 0 <= v < |d.g.ins| => seq(|d.g.ins[v]|, _ => false)),
          seq(d.N(), v requires 0 <= v < |d.g.ins| => seq(|d.g.ins[v]|, _ => Blank)),
          None, [], [])
  }

  ghost predicate Shape(d: Dag, s: State) {
    && d.g.Sized() && d.src < d.N() && d.sink < d.N() && |s.iter| == |s.pos| == |s.full| == |s.buf| == d.N()
    && (forall v | 0 <= v < d.N() :: |s.full[v]| == |s.buf[v]| == |d.g.ins[v]|)
    && (forall t | 0 <= t < d.N() :: s.pos[t] <= d.Last(t) && s.iter[t] <= d.iters)
    && (forall t | 0 <= t < d.N() && s.pos[t] > 0 :: s.iter[t] < d.iters)
  }

  // ------------------------------------------------------------------ steps

  datatype Act = Enter | ReadIn(input: nat) | WriteOut(output: nat) | PushOut(output: nat) | Leave

  /** What thread `t` does next. */
  function Next(d: Dag, s: State, t: nat): (a: Act)
    requires Shape(d, s) && t < d.N()
    ensures a.Enter? <==> s.pos[t] == 0
    ensures a.ReadIn? ==> a.input < |d.g.ins[t]| && s.pos[t] == 1 + a.input
    ensures a.WriteOut? ==> a.output < |d.g.outs[t]| && s.pos[t] == d.FirstWrite(t) + 2 * a.output
    ensures a.PushOut? ==> a.output < |d.g.outs[t]| && s.pos[t] == d.FirstWrite(t) + 2 * a.output + 1
    ensures a.Leave? <==> s.pos[t] == d.Last(t)
  {
    var p := s.pos[t];
    if p == 0 then Enter
    else if p < d.FirstWrite(t) then ReadIn(p - 1)
    else if p == d.Last(t) then Leave
    else
      var k := p - d.FirstWrite(t);
      if k % 2 == 0 then WriteOut(k / 2) else PushOut(k / 2)
  }

  /** A thread waits in three places: entering, for its input cells to fill (the
      source: for the start-time queue to be empty); pushing, for the cell to be
      empty; leaving, if it is the sink, for a start time. */
  ghost predicate Enabled(d: Dag, s: State, t: nat)
    requires Shape(d, s)
  {
    && t < d.N() && s.iter[t] < d.iters
    && match Next(d, s, t)
       case Enter => if d.g.ins[t] == [] then s.start.None? else forall j | 0 <= j < |d.g.ins[t]| :: s.full[t][j]
       case ReadIn(_) => true
       case WriteOut(_) => true
       case PushOut(k) => var l := d.g.outs[t][k]; !s.full[l.dst][l.idx]
       case Leave => d.g.outs[t] == [] ==> s.start.Some?
  }

  function Step(d: Dag, s: State, t: nat): State
    requires Shape(d, s) && Enabled(d, s, t)
  {
    var s1 := s.(pos := s.pos[t := s.pos[t] + 1]);
    match Next(d, s, t)
    case Enter =>
      if d.g.ins[t] == [] then s1.(start := Some(d.startTime(s.iter[t])))
      else s1.(full := s.full[t := seq(|d.g.ins[t]|, _ => false)])
    case ReadIn(j) => s1.(seen := s.seen + [Read(t, j, s.iter[t], s.buf[t][j])])
    case WriteOut(k) =>
      var l := d.g.outs[t][k];
      if d.cpu(t) then s1.(buf := s.buf[l.dst := s.buf[l.dst][l.idx := Message(t, s.iter[t])]]) else s1
    case PushOut(k) =>
      var l := d.g.outs[t][k];
      s1.(full := s.full[l.dst := s.full[l.dst][l.idx := true]])
    case Leave =>
      var s2 := s.(pos := s.pos[t := 0], iter := s.iter[t := s.iter[t] + 1]);
      if d.g.outs[t] == [] then s2.(start := None, resp := s.resp + [s.start.value]) else s2
  }

  // --------------------------------------------------------------- counters

  /** Iterations thread `t` has entered. */
  function Entered(d: Dag, s: State, t: nat): nat
    requires t < |s.iter| == |s.pos|
  {
    s.iter[t] + (if s.pos[t] > 0 then 1 else 0)
  }

  /** Messages written to, and tokens pushed on, output `k` of thread `u`. */
  function Writes(d: Dag, s: State, u: nat, k: nat): nat
    requires u < |s.iter| == |s.pos| == |d.g.ins|
  {
    s.iter[u] + (if s.pos[u] > d.FirstWrite(u) + 2 * k then 1 else 0)
  }

  function Pushes(d: Dag, s: State, u: nat, k: nat): nat
    requires u < |s.iter| == |s.pos| == |d.g.ins|
  {
    s.iter[u] + (if s.pos[u] > d.FirstWrite(u) + 2 * k + 1 then 1 else 0)
  }

  // -------------------------------------------------------------- invariant

  /** A cell is full exactly when one more token was pushed than popped. */
  ghost predicate Cells(d: Dag, s: State)
    requires Shape(d, s)
  {
    forall v, j | 0 <= v < d.N() && 0 <= j < |d.g.ins[v]| ::
      Pushes(d, s, d.g.ins[v][j], d.g.back[v][j]) == Entered(d, s, v) + (if s.full[v][j] then 1 else 0)
  }

  /** So is the start-time queue; it holds, and the sink has taken, the start
      times in order. */
  ghost predicate StartQueue(d: Dag, s: State)
    requires Shape(d, s)
  {
    && Entered(d, s, d.src) == s.iter[d.sink] + (if s.start.Some? then 1 else 0)
    && (s.start.Some? ==> s.start.value == d.startTime(s.iter[d.sink]))
    && |s.resp| == s.iter[d.sink] && (forall k | 0 <= k < |s.resp| :: s.resp[k] == d.startTime(k))
  }

  /** A buffer holds the last message sent through it. */
  ghost predicate Buffers(d: Dag, s: State)
    requires Shape(d, s)
  {
    forall v, j | 0 <= v < d.N() && 0 <= j < |d.g.ins[v]| ::
      var u := d.g.ins[v][j]; var w := Writes(d, s, u, d.g.back[v][j]);
      if w > 0 then s.buf[v][j] == d.Sent(u, w - 1) else s.buf[v][j] == Blank
  }

  /** Every message read so far was the one its producer wrote in the reader's
      iteration. */
  ghost predicate ReadsRight(d: Dag, s: State) {
    forall i | 0 <= i < |s.seen| ::
      var r := s.seen[i];
      r.task < |d.g.ins| && r.input < |d.g.ins[r.task]| && r.msg == d.Sent(d.g.ins[r.task][r.input], r.iter)
  }

  /** And every input of every iteration gone through was read. */
  ghost predicate ReadsAll(d: Dag, s: State)
    requires Shape(d, s)
  {
    forall v, j, i: nat | 0 <= v < d.N() && 0 <= j < |d.g.ins[v]| && ReadBy(s, v, j, i) ::
      Read(v, j, i, d.Sent(d.g.ins[v][j], i)) in s.seen
  }

  predicate ReadBy(s: State, v: nat, j: nat, i: nat)
    requires v < |s.iter| == |s.pos|
  {
    i < s.iter[v] || (i == s.iter[v] && s.pos[v] > 1 + j)
  }

  ghost predicate Inv(d: Dag, s: State) {
    d.Valid() && Shape(d, s) && Cells(d, s) && StartQueue(d, s) && Buffers(d, s) && ReadsRight(d, s) && ReadsAll(d, s)
  }

  // --------------------------------------------------------------- lockstep

  /** The started iterations of all threads lie between the sink's finished ones
      and one more. */
  lemma Lockstep(d: Dag, s: State, t: nat)
    requires d.Valid() && Shape(d, s) && Cells(d, s) && StartQueue(d, s) && t < d.N()
    ensures s.iter[d.sink] <= Entered(d, s, d.sink) <= Entered(d, s, t) <= Entered(d, s, d.src) <= s.iter[d.sink] + 1
  {
    var f := seq(d.N(), i requires 0 <= i < d.N() => Entered(d, s, i));
    forall v, j | 0 <= v < |d.g.ins| && 0 <= j < |d.g.ins[v]| ensures d.g.ins[v][j] < d.N() && f[v] <= f[d.g.ins[v][j]] {
      var u := d.g.ins[v][j];
      assert Pushes(d, s, u, d.g.back[v][j]) <= Entered(d, s, u);
    }
    Between(d.g, d.src, d.sink, f, t);
  }

  /** The cell that output `k` of `u` feeds. */
  lemma CellOfOutput(d: Dag, s: State, u: nat, k: nat)
    requires d.Valid() && Shape(d, s) && Cells(d, s) && u < d.N() && k < |d.g.outs[u]|
    ensures d.g.outs[u][k].dst < d.N() && d.g.outs[u][k].idx < |s.full[d.g.outs[u][k].dst]|
    ensures var l := d.g.outs[u][k];
            Pushes(d, s, u, k) == Entered(d, s, l.dst) + (if s.full[l.dst][l.idx] then 1 else 0)
  {
    var l := d.g.outs[u][k];
    assert d.g.ins[l.dst][l.idx] == u && d.g.back[l.dst][l.idx] == k;
  }

  /** A data push never finds its cell full. */
  lemma PushNeverBlocks(d: Dag, s: State, t: nat)
    requires d.Valid() && Shape(d, s) && Cells(d, s) && StartQueue(d, s) && t < d.N() && Next(d, s, t).PushOut?
    ensures var l := d.g.outs[t][Next(d, s, t).output]; !s.full[l.dst][l.idx]
  {
    var k := Next(d, s, t).output;
    CellOfOutput(d, s, t, k);
    Lockstep(d, s, t);
    Lockstep(d, s, d.g.outs[t][k].dst);
  }

  /** A thread that has not yet pushed in its iteration is not ahead of the sink. */
  lemma NotAhead(d: Dag, s: State, v: nat)
    requires d.Valid() && Shape(d, s) && Cells(d, s) && StartQueue(d, s) && v < d.N() && s.pos[v] <= d.FirstWrite(v)
    ensures s.iter[d.sink] <= s.iter[v]
  {
    if v != d.sink {
      CellOfOutput(d, s, v, 0);
      Lockstep(d, s, d.g.outs[v][0].dst);
    }
  }

  /** No thread reads a buffer while another writes it: as long as a consumer is
      at its read of an input, however long the copy takes, the producer of that
      input is not at the matching write. */
  lemma NoOverlap(d: Dag, s: State, v: nat, j: nat)
    requires d.Valid() && Shape(d, s) && Cells(d, s) && StartQueue(d, s) && v < d.N() && j < |d.g.ins[v]|
    requires Next(d, s, v) == ReadIn(j)
    ensures Next(d, s, d.g.ins[v][j]) != WriteOut(d.g.back[v][j])
  {
    var u, k := d.g.ins[v][j], d.g.back[v][j];
    Lockstep(d, s, u);
    NotAhead(d, s, v);
    assert Pushes(d, s, u, k) >= Entered(d, s, v);
  }

  /** A consumer that has entered an iteration and not begun to write reads from
      each buffer what its producer wrote in the same iteration. */
  lemma ReadIsFresh(d: Dag, s: State, v: nat, j: nat)
    requires d.Valid() && Shape(d, s) && Cells(d, s) && StartQueue(d, s) && Buffers(d, s)
    requires v < d.N() && Next(d, s, v) == ReadIn(j)
    ensures var u := d.g.ins[v][j]; s.buf[v][j] == if d.cpu(u) then Message(u, s.iter[v]) else Blank
  {
    var u, k := d.g.ins[v][j], d.g.back[v][j];
    Lockstep(d, s, u);
    NotAhead(d, s, v);
    assert Writes(d, s, u, k) <= Entered(d, s, u);
    assert Pushes(d, s, u, k) <= Writes(d, s, u, k);
    assert Pushes(d, s, u, k) >= Entered(d, s, v);
  }
}
