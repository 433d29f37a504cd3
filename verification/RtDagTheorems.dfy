/** What holds in every interleaving of a DAG's threads: lockstep, race-free
    buffers, no deadlock, and one final state. */
module RtDagTheorems {
  import opened Wrappers
  import opened RtDagGraph
  import opened RtDagRun
  import Runs

  // -------------------------------------------------------- one step keeps it

  lemma InitShape(d: Dag)
    requires d.g.Sized() && d.src < d.N() && d.sink < d.N()
    ensures Shape(d, Init(d)) && Cells(d, Init(d)) && Buffers(d, Init(d))
  {
    var s := Init(d);
    forall v | 0 <= v < d.N()
      ensures s.iter[v] == s.pos[v] == 0 && |s.full[v]| == |s.buf[v]| == |d.g.ins[v]|
      ensures forall j | 0 <= j < |d.g.ins[v]| :: !s.full[v][j]
    {
    }
  }

  lemma InitHolds(d: Dag)
    requires d.Valid()
    ensures Inv(d, Init(d))
  {
    InitShape(d);
  }

  lemma StepShape(d: Dag, s: State, t: nat)
    requires Shape(d, s) && Enabled(d, s, t)
    ensures Shape(d, Step(d, s, t))
  {
  }

  /** What one step adds to the counters of a thread. */
  lemma StepCounts(d: Dag, s: State, t: nat, u: nat)
    requires Shape(d, s) && Enabled(d, s, t) && u < d.N()
    ensures var s' := Step(d, s, t); var a := Next(d, s, t);
            && |s'.iter| == |s'.pos| == d.N()
            && Entered(d, s', u) == Entered(d, s, u) + (if u == t && a.Enter? then 1 else 0)
            && (forall k | 0 <= k < |d.g.outs[u]| ::
                  Pushes(d, s', u, k) == Pushes(d, s, u, k) + (if u == t && a == PushOut(k) then 1 else 0))
            && (forall k | 0 <= k < |d.g.outs[u]| ::
                  Writes(d, s', u, k) == Writes(d, s, u, k) + (if u == t && a == WriteOut(k) then 1 else 0))
  {
  }

  lemma StepCells(d: Dag, s: State, t: nat)
    requires d.g.Wired() && Shape(d, s) && Cells(d, s) && Enabled(d, s, t)
    ensures Shape(d, Step(d, s, t)) && Cells(d, Step(d, s, t))
  {
    StepShape(d, s, t);
    var s' := Step(d, s, t);
    forall v, j | 0 <= v < d.N() && 0 <= j < |d.g.ins[v]|
      ensures Pushes(d, s', d.g.ins[v][j], d.g.back[v][j]) == Entered(d, s', v) + (if s'.full[v][j] then 1 else 0)
    {
      StepCounts(d, s, t, d.g.ins[v][j]);
      StepCounts(d, s, t, v);
      assert d.g.outs[d.g.ins[v][j]][d.g.back[v][j]] == Link(v, j);
    }
  }

  lemma StepStart(d: Dag, s: State, t: nat)
    requires d.g.Ends(d.src, d.sink) && Shape(d, s) && StartQueue(d, s) && Enabled(d, s, t)
    ensures Shape(d, Step(d, s, t)) && StartQueue(d, Step(d, s, t))
  {
    StepShape(d, s, t);
    StepCounts(d, s, t, d.src);
  }

  /** What one step does to a buffer. */
  lemma StepBuffer(d: Dag, s: State, t: nat, v: nat, j: nat)
    requires Shape(d, s) && Enabled(d, s, t) && v < d.N() && j < |d.g.ins[v]|
    ensures var s' := Step(d, s, t); var a := Next(d, s, t);
      && |s'.buf| == |s.buf| && |s'.buf[v]| == |s.buf[v]|
      && s'.buf[v][j] == (if a.WriteOut? && d.g.outs[t][a.output] == Link(v, j) && d.cpu(t) then d.Sent(t, s.iter[t])
                          else s.buf[v][j])
      && (a.WriteOut? ==> Writes(d, s, t, a.output) == s.iter[t])
  {
  }

  /** Only one output feeds input j of v. */
  lemma OneFeeder(d: Dag, v: nat, j: nat, t: nat, k: nat)
    requires d.g.Wired() && v < d.N() && j < |d.g.ins[v]| && t < d.N() && k < |d.g.outs[t]|
    ensures d.g.back[v][j] < |d.g.outs[d.g.ins[v][j]]|
    ensures d.g.outs[t][k] == Link(v, j) <==> t == d.g.ins[v][j] && k == d.g.back[v][j]
  {
  }

  lemma StepBuffers(d: Dag, s: State, t: nat)
    requires d.g.Wired() && Shape(d, s) && Buffers(d, s) && Enabled(d, s, t)
    ensures Shape(d, Step(d, s, t)) && Buffers(d, Step(d, s, t))
  {
    StepShape(d, s, t);
    var s' := Step(d, s, t);
    forall v, j | 0 <= v < d.N() && 0 <= j < |d.g.ins[v]|
      ensures var u := d.g.ins[v][j]; var w := Writes(d, s', u, d.g.back[v][j]);
              if w > 0 then s'.buf[v][j] == d.Sent(u, w - 1) else s'.buf[v][j] == Blank
    {
      var u, a := d.g.ins[v][j], Next(d, s, t);
      StepCounts(d, s, t, u);
      StepBuffer(d, s, t, v, j);
      OneFeeder(d, v, j, u, d.g.back[v][j]);
      if a.WriteOut? {
        OneFeeder(d, v, j, t, a.output);
      }
    }
  }

  lemma StepReadsRight(d: Dag, s: State, t: nat)
    requires Shape(d, s) && ReadsRight(d, s) && Enabled(d, s, t)
    requires Next(d, s, t).ReadIn? ==>
               s.buf[t][Next(d, s, t).input] == d.Sent(d.g.ins[t][Next(d, s, t).input], s.iter[t])
    ensures ReadsRight(d, Step(d, s, t))
  {
  }

  lemma StepReadsAll(d: Dag, s: State, t: nat)
    requires Shape(d, s) && ReadsAll(d, s) && Enabled(d, s, t)
    requires Next(d, s, t).ReadIn? ==>
               s.buf[t][Next(d, s, t).input] == d.Sent(d.g.ins[t][Next(d, s, t).input], s.iter[t])
    ensures Shape(d, Step(d, s, t)) && ReadsAll(d, Step(d, s, t))
  {
    StepShape(d, s, t);
    var s' := Step(d, s, t);
    forall v, j, i: nat | 0 <= v < d.N() && 0 <= j < |d.g.ins[v]| && ReadBy(s', v, j, i)
      ensures Read(v, j, i, d.Sent(d.g.ins[v][j], i)) in s'.seen
    {
      if !ReadBy(s, v, j, i) {
        assert v == t && Next(d, s, t) == ReadIn(j) && i == s.iter[t];
      }
    }
  }

  lemma StepKeeps(d: Dag, s: State, t: nat)
    requires Inv(d, s) && Enabled(d, s, t)
    ensures Inv(d, Step(d, s, t))
  {
    StepCells(d, s, t);
    StepStart(d, s, t);
    StepBuffers(d, s, t);
    if Next(d, s, t).ReadIn? {
      ReadIsFresh(d, s, t, Next(d, s, t).input);
    }
    StepReadsRight(d, s, t);
    StepReadsAll(d, s, t);
  }

  // ------------------------------------------------------------- no deadlock

  /** A thread inside an iteration can always go on. */
  lemma InsideGoesOn(d: Dag, s: State, t: nat)
    requires d.Valid() && Shape(d, s) && Cells(d, s) && StartQueue(d, s) && t < d.N() && s.pos[t] > 0
    ensures Enabled(d, s, t)
  {
    if Next(d, s, t).PushOut? {
      PushNeverBlocks(d, s, t);
    } else if Next(d, s, t).Leave? && d.g.outs[t] == [] {
      Lockstep(d, s, t);
    }
  }

  /** Among the tasks where `f` is `c`, one has no producer where it is. */
  lemma {:induction false} Lowest(g: Graph, f: seq<int>, c: int, w: seq<nat>) returns (v: nat)
    requires g.Sized() && g.Acyclic() && |f| == |g.ins| && g.Walk(w) && f[w[0]] == c
    ensures v < |g.ins| && f[v] == c && forall j | 0 <= j < |g.ins[v]| :: f[g.ins[v][j]] != c
    decreases |g.ins| - |w|
  {
    v := w[0];
    if j :| 0 <= j < |g.ins[v]| && f[g.ins[v][j]] == c {
      var u := g.ins[v][j];
      WalkFrom(g, u, w);
      WalkDistinct(g, [u] + w);
      v := Lowest(g, f, c, [u] + w);
    }
  }

  ghost predicate Resting(d: Dag, s: State)
    requires |s.pos| == d.N()
  {
    forall t | 0 <= t < d.N() :: s.pos[t] == 0
  }

  /** Between iterations, a task one behind all its producers has all inputs. */
  lemma BehindIsFed(d: Dag, s: State, v: nat)
    requires d.g.Wired() && Shape(d, s) && Cells(d, s) && Resting(d, s) && v < d.N() && d.g.ins[v] != []
    requires s.iter[v] < d.iters && forall j | 0 <= j < |d.g.ins[v]| :: s.iter[d.g.ins[v][j]] == s.iter[v] + 1
    ensures Enabled(d, s, v)
  {
    forall j | 0 <= j < |d.g.ins[v]| ensures s.full[v][j] {
      assert Pushes(d, s, d.g.ins[v][j], d.g.back[v][j]) == s.iter[v] + 1;
    }
  }

  lemma RestingGoesOn(d: Dag, s: State) returns (t: nat)
    requires d.Valid() && Shape(d, s) && Cells(d, s) && StartQueue(d, s) && Resting(d, s)
    requires s.iter[d.sink] < d.iters
    ensures Enabled(d, s, t)
  {
    var c := s.iter[d.sink];
    if s.start.None? {
      t := d.src;
    } else {
      var f := seq(d.N(), i requires 0 <= i < |s.iter| => s.iter[i]);
      assert d.g.Walk([d.sink]);
      t := Lowest(d.g, f, c, [d.sink]);
      Lockstep(d, s, d.src);
      assert d.g.ins[t] != [];
      forall j | 0 <= j < |d.g.ins[t]| ensures s.iter[d.g.ins[t][j]] == s.iter[t] + 1 {
        assert f[d.g.ins[t][j]] != c;
        Lockstep(d, s, d.g.ins[t][j]);
      }
      BehindIsFed(d, s, t);
    }
  }

  ghost predicate Finished(d: Dag, s: State)
    requires |s.iter| == d.N()
  {
    forall t | 0 <= t < d.N() :: s.iter[t] == d.iters
  }

  /** Until every thread has done all its iterations, some thread can go on. */
  lemma NoDeadlock(d: Dag, s: State) returns (t: nat)
    requires Inv(d, s) && !Finished(d, s)
    ensures Enabled(d, s, t)
  {
    if i :| 0 <= i < d.N() && s.pos[i] > 0 {
      InsideGoesOn(d, s, i);
      t := i;
    } else if s.iter[d.sink] < d.iters {
      t := RestingGoesOn(d, s);
    } else {
      var i :| 0 <= i < d.N() && s.iter[i] != d.iters;
      Lockstep(d, s, i);
      assert false;
    }
  }

  // ------------------------------------------------------------- termination

  function Times(a: nat, b: nat): nat {
    a * b
  }

  /** Steps thread `t` has still to take. */
  function LeftOf(d: Dag, s: State, t: nat): nat
    requires Shape(d, s) && t < d.N()
  {
    if s.iter[t] == d.iters then 0
    else Times(d.iters - s.iter[t] - 1, d.Last(t) + 1) + (d.Last(t) + 1 - s.pos[t])
  }

  function Left(d: Dag, s: State, n: nat): (k: nat)
    requires Shape(d, s) && n <= d.N()
  {
    if n == 0 then 0 else Left(d, s, n - 1) + LeftOf(d, s, n - 1)
  }

  /** Steps in all the iterations of the first `n` threads. */
  function Work(d: Dag, n: nat): nat
    requires d.g.Sized() && n <= d.N()
  {
    if n == 0 then 0 else Work(d, n - 1) + Times(d.iters, 2 + |d.g.ins[n - 1]| + 2 * |d.g.outs[n - 1]|)
  }

  lemma StepLeftOf(d: Dag, s: State, t: nat, u: nat)
    requires Shape(d, s) && Enabled(d, s, t) && u < d.N()
    ensures Shape(d, Step(d, s, t))
    ensures LeftOf(d, Step(d, s, t), u) == LeftOf(d, s, u) - (if u == t then 1 else 0)
  {
    StepShape(d, s, t);
    var more, len := d.iters - s.iter[t] - 1, d.Last(t) + 1;
    assert more > 0 ==> Times(more - 1, len) == Times(more, len) - len;
    assert Times(0, len) == 0;
  }

  lemma {:induction false} StepLeft(d: Dag, s: State, t: nat, n: nat)
    requires Shape(d, s) && Enabled(d, s, t) && n <= d.N()
    ensures Shape(d, Step(d, s, t))
    ensures Left(d, Step(d, s, t), n) == Left(d, s, n) - (if t < n then 1 else 0)
  {
    StepShape(d, s, t);
    if n > 0 {
      StepLeft(d, s, t, n - 1);
      StepLeftOf(d, s, t, n - 1);
    }
  }

  lemma InitLeftOf(d: Dag, s: State, t: nat)
    requires Shape(d, s) && t < d.N() && s.iter[t] == s.pos[t] == 0
    ensures LeftOf(d, s, t) == Times(d.iters, 2 + |d.g.ins[t]| + 2 * |d.g.outs[t]|)
  {
    var n, len := d.iters, d.Last(t) + 1;
    assert n > 0 ==> Times(n - 1, len) == Times(n, len) - len;
    assert Times(0, len) == 0;
  }

  lemma {:induction false} InitLeft(d: Dag, n: nat)
    requires d.g.Sized() && d.src < d.N() && d.sink < d.N() && n <= d.N()
    ensures Shape(d, Init(d)) && Left(d, Init(d), n) == Work(d, n)
  {
    InitShape(d);
    if n > 0 {
      InitLeft(d, n - 1);
      InitLeftOf(d, Init(d), n - 1);
    }
  }

  lemma {:induction false} NoneLeft(d: Dag, s: State, n: nat)
    requires Shape(d, s) && Finished(d, s) && n <= d.N()
    ensures Left(d, s, n) == 0
  {
    if n > 0 {
      NoneLeft(d, s, n - 1);
    }
  }

  // -------------------------------------------------------------------- runs

  /** A step of thread `t`. */
  ghost function Takes(d: Dag): (State, nat, State) -> bool {
    (s: State, t: nat, s': State) => Inv(d, s) && Enabled(d, s, t) && s' == Step(d, s, t)
  }

  /** The threads `ts`, taking one step each in that order, lead from the start to
      `s`. */
  ghost predicate Leads(d: Dag, ts: seq<nat>, s: State) {
    Runs.Leads(Init(d), Takes(d), ts, s)
  }

  /** The invariant holds, and every step taken was one of the work to do. */
  ghost predicate Kept(d: Dag, ts: seq<nat>, s: State) {
    Inv(d, s) && Left(d, s, d.N()) + |ts| == Work(d, d.N())
  }

  ghost function KeptFrom(d: Dag): (seq<nat>, State) -> bool {
    (ts: seq<nat>, s: State) => Kept(d, ts, s)
  }

  lemma StepKept(d: Dag, ts: seq<nat>, s: State, t: nat)
    requires Kept(d, ts, s) && Enabled(d, s, t)
    ensures Kept(d, ts + [t], Step(d, s, t))
  {
    StepKeeps(d, s, t);
    StepLeft(d, s, t, d.N());
  }

  lemma KeptFollows(d: Dag)
    requires d.Valid()
    ensures Runs.Follows(Init(d), Takes(d), KeptFrom(d))
  {
    InitHolds(d);
    InitLeft(d, d.N());
    var p := KeptFrom(d);
    forall ts: seq<nat>, s: State, t: nat, s': State | Takes(d)(s, t, s') && p(ts, s) ensures p(ts + [t], s') {
      StepKept(d, ts, s, t);
    }
  }

  lemma LeadsKeeps(d: Dag, ts: seq<nat>, s: State)
    requires d.Valid() && Leads(d, ts, s)
    ensures Inv(d, s) && Left(d, s, d.N()) + |ts| == Work(d, d.N())
  {
    KeptFollows(d);
    assert KeptFrom(d)(ts, s);
  }

  // ---------------------------------------------------------------- theorems

  /** In every interleaving: started iterations differ by at most one; once the
      source has pushed `k` start times every edge has been pushed and popped at
      least k-1 times; and a thread about to push finds its cell empty. */
  lemma AlwaysLockstep(d: Dag, ts: seq<nat>, s: State, t: nat, u: nat)
    requires d.Valid() && Leads(d, ts, s) && t < d.N() && u < d.N()
    ensures Inv(d, s)
    ensures Entered(d, s, t) <= Entered(d, s, u) + 1
    ensures Entered(d, s, d.src) <= Entered(d, s, u) + 1
    ensures forall k | 0 <= k < |d.g.outs[u]| :: Entered(d, s, d.src) <= Pushes(d, s, u, k) + 1
    ensures s.pos[t] > 0 ==> Enabled(d, s, t)
  {
    LeadsKeeps(d, ts, s);
    Lockstep(d, s, t);
    Lockstep(d, s, u);
    forall k | 0 <= k < |d.g.outs[u]| ensures Entered(d, s, d.src) <= Pushes(d, s, u, k) + 1 {
      CellOfOutput(d, s, u, k);
      Lockstep(d, s, d.g.outs[u][k].dst);
    }
    if s.pos[t] > 0 {
      InsideGoesOn(d, s, t);
    }
  }

  /** Iterations in which thread `t` has pushed all it has to. */
  function Completed(d: Dag, s: State, t: nat): nat
    requires Shape(d, s) && t < d.N()
  {
    s.iter[t] + (if s.pos[t] == d.Last(t) then 1 else 0)
  }

  lemma CompletedWithSink(d: Dag, s: State, u: nat)
    requires d.Valid() && Shape(d, s) && Cells(d, s) && StartQueue(d, s) && u < d.N()
    ensures s.iter[d.sink] <= Completed(d, s, u) <= Entered(d, s, u)
  {
    if u != d.sink {
      var k := |d.g.outs[u]| - 1;
      CellOfOutput(d, s, u, k);
      Lockstep(d, s, d.g.outs[u][k].dst);
    }
  }

  /** Completed iterations differ by at most one, too. The loop counters of two
      threads differ by two exactly while the sink's counter lies between them;
      and a thread whose counter is below the sink's is one behind it, with nothing
      left to do in its iteration but to leave it. */
  lemma CountersDiffer(d: Dag, ts: seq<nat>, s: State, t: nat, u: nat)
    requires d.Valid() && Leads(d, ts, s) && t < d.N() && u < d.N()
    ensures Inv(d, s) && Completed(d, s, t) <= Completed(d, s, u) + 1
    ensures s.iter[t] <= s.iter[u] + 2
    ensures s.iter[t] == s.iter[u] + 2 <==> s.iter[u] < s.iter[d.sink] < s.iter[t]
    ensures s.iter[u] < s.iter[d.sink] ==> Next(d, s, u) == Leave && s.iter[u] + 1 == s.iter[d.sink]
  {
    LeadsKeeps(d, ts, s);
    Lockstep(d, s, t);
    CompletedWithSink(d, s, t);
    CompletedWithSink(d, s, u);
  }

  /** In no interleaving does a thread stand at the read of an input, however long
      it takes, while the input's producer stands at the write of its buffer. */
  lemma RaceFree(d: Dag, ts: seq<nat>, s: State, v: nat, j: nat)
    requires d.Valid() && Leads(d, ts, s) && v < d.N() && j < |d.g.ins[v]|
    ensures Inv(d, s) && !(Next(d, s, v) == ReadIn(j) && Next(d, s, d.g.ins[v][j]) == WriteOut(d.g.back[v][j]))
  {
    LeadsKeeps(d, ts, s);
    if Next(d, s, v) == ReadIn(j) {
      NoOverlap(d, s, v, j);
    }
  }

  /** So a copy may count as one step, and whatever a task reads in its iteration i
      is the message of iteration i of that input's producer, although nothing stops
      a producer from overwriting a buffer before its push. A FRED task writes none. */
  lemma ReadsWhatWasSent(d: Dag, ts: seq<nat>, s: State, r: Read)
    requires d.Valid() && Leads(d, ts, s) && r in s.seen
    ensures r.task < d.N() && r.input < |d.g.ins[r.task]|
    ensures var u := d.g.ins[r.task][r.input]; r.msg == if d.cpu(u) then Message(u, r.iter) else Blank
  {
    LeadsKeeps(d, ts, s);
    var i :| 0 <= i < |s.seen| && s.seen[i] == r;
  }

  /** The k-th start time the sink pops is the k-th the source pushed. */
  lemma ResponseUsesItsStart(d: Dag, ts: seq<nat>, s: State, k: nat)
    requires d.Valid() && Leads(d, ts, s) && k < |s.resp|
    ensures s.resp[k] == d.startTime(k)
  {
    LeadsKeeps(d, ts, s);
  }

  /** An interleaving stops exactly when all iterations are done, which takes the
      same number of steps whatever the order. */
  lemma AllRunsEnd(d: Dag, ts: seq<nat>, s: State)
    requires d.Valid() && Leads(d, ts, s)
    ensures |ts| <= Work(d, d.N())
    ensures Inv(d, s) && (Finished(d, s) <==> forall t: nat :: !Enabled(d, s, t))
    ensures Finished(d, s) ==> |ts| == Work(d, d.N())
  {
    LeadsKeeps(d, ts, s);
    if !Finished(d, s) {
      var t := NoDeadlock(d, s);
    } else {
      NoneLeft(d, s, d.N());
    }
  }

  /** Task `v` has read, in iteration `i` from input `j`, the message the producer
      sends in that iteration: its own if it is a CPU task, none otherwise. */
  ghost predicate HasRead(d: Dag, s: State, v: nat, j: nat, i: nat)
    requires v < |d.g.ins| && j < |d.g.ins[v]|
  {
    if d.cpu(d.g.ins[v][j])
    then Read(v, j, i, Message(d.g.ins[v][j], i)) in s.seen
    else Read(v, j, i, Blank) in s.seen
  }

  /** An input gone past has been read. */
  lemma WasRead(d: Dag, s: State, v: nat, j: nat, i: nat)
    requires Shape(d, s) && ReadsAll(d, s) && v < d.N() && j < |d.g.ins[v]| && i < s.iter[v]
    ensures HasRead(d, s, v, j, i)
  {
    assert ReadBy(s, v, j, i);
  }

  /** At the end every queue is empty, every input of every iteration has been
      read, and the sink has popped the start times in order. */
  lemma EndsClean(d: Dag, ts: seq<nat>, s: State)
    requires d.Valid() && Leads(d, ts, s) && |s.iter| == d.N() && Finished(d, s)
    ensures Inv(d, s)
    ensures s.start.None? && s.resp == seq(d.iters, k requires 0 <= k => d.startTime(k))
    ensures forall v, j | 0 <= v < d.N() && 0 <= j < |d.g.ins[v]| :: !s.full[v][j]
    ensures forall v, j, i: nat | 0 <= v < d.N() && 0 <= j < |d.g.ins[v]| && i < d.iters :: HasRead(d, s, v, j, i)
  {
    LeadsKeeps(d, ts, s);
    assert Entered(d, s, d.src) == d.iters;
    forall v, j | 0 <= v < d.N() && 0 <= j < |d.g.ins[v]| ensures !s.full[v][j] {
      assert Pushes(d, s, d.g.ins[v][j], d.g.back[v][j]) == d.iters;
    }
    forall v, j, i: nat | 0 <= v < d.N() && 0 <= j < |d.g.ins[v]| && i < d.iters ensures HasRead(d, s, v, j, i) {
      WasRead(d, s, v, j, i);
    }
  }
}
