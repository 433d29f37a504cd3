/** A run of a chain of three tasks after which two loop counters differ by two. */
module RtDagGap {
  import opened RtDagGraph
  import opened RtDagRun
  import opened RtDagTheorems
  import opened Wrappers
  import Runs

  /** The rows of the chain 0 -> 1 -> 2. */
  predicate ChainRows(g: Graph) {
    && |g.ins| == |g.outs| == |g.back| == 3
    && g.ins[0] == [] && g.ins[1] == [0] && g.ins[2] == [1]
    && g.outs[0] == [Link(1, 0)] && g.outs[1] == [Link(2, 0)] && g.outs[2] == []
    && g.back[0] == [] && g.back[1] == [0] && g.back[2] == [0]
  }

  lemma {:induction false} ChainWalk(g: Graph, w: seq<nat>, i: nat)
    requires ChainRows(g) && g.Walk(w) && i < |w|
    ensures w[i] == w[0] + i
  {
    if i > 0 {
      ChainWalk(g, w, i - 1);
      assert w[i - 1] in g.ins[w[i]];
    }
  }

  lemma ChainAcyclic(g: Graph)
    requires ChainRows(g)
    ensures g.Acyclic()
  {
    forall w | g.Walk(w) ensures !Returns(w) {
      ChainWalk(g, w, |w| - 1);
    }
  }

  lemma ChainWired(g: Graph)
    requires ChainRows(g)
    ensures g.Wired() && g.Ends(0, 2)
  {
  }

  /** The dag is a chain of CPU tasks. */
  predicate IsChain(d: Dag) {
    ChainRows(d.g) && d.src == 0 && d.sink == 2 && d.cpu(0) && d.cpu(2)
  }

  lemma ChainValid(d: Dag)
    requires IsChain(d)
    ensures d.Valid()
  {
    ChainAcyclic(d.g);
    ChainWired(d.g);
  }

  // ---------------------------------------------------------------- one step

  /** Loop counters, positions, whether the cells of tasks 1 and 2 are full, and
      whether a start time waits. */
  datatype Look = Look(iter: seq<nat>, pos: seq<nat>, full1: bool, full2: bool, start: bool) {
    predicate Three() {
      |iter| == 3 && |pos| == 3
    }

    function At(t: nat, p: nat): Look
      requires t < |pos|
    {
      this.(pos := pos[t := p])
    }

    function Round(t: nat): Look
      requires t < |pos| && t < |iter|
    {
      this.(pos := pos[t := 0], iter := iter[t := iter[t] + 1])
    }
  }

  ghost predicate Looks(d: Dag, s: State, k: Look) {
    && IsChain(d) && Shape(d, s) && k.Three() && s.iter == k.iter && s.pos == k.pos
    && s.full[1][0] == k.full1 && s.full[2][0] == k.full2 && s.start.Some? == k.start
  }

  /** Some interleaving leads to a state that looks so. */
  ghost predicate Gets(d: Dag, k: Look) {
    exists ts: seq<nat>, s: State :: Leads(d, ts, s) && Looks(d, s, k)
  }

  lemma Go(d: Dag, ts: seq<nat>, s: State, t: nat)
    requires IsChain(d) && Leads(d, ts, s) && Shape(d, s) && Enabled(d, s, t)
    ensures Leads(d, ts + [t], Step(d, s, t))
  {
    ChainValid(d);
    LeadsKeeps(d, ts, s);
    assert Takes(d)(s, t, Step(d, s, t));
    Runs.LeadsOn(Init(d), Takes(d), ts, s, t, Step(d, s, t));
  }

  lemma SourceEnters(d: Dag, k: Look)
    requires Gets(d, k) && k.Three() && k.pos[0] == 0 && k.iter[0] < d.iters && !k.start
    ensures Gets(d, k.At(0, 1).(start := true))
  {
    var ts: seq<nat>, s: State :| Leads(d, ts, s) && Looks(d, s, k);
    Go(d, ts, s, 0);
    StepShape(d, s, 0);
    assert Looks(d, Step(d, s, 0), k.At(0, 1).(start := true));
  }

  lemma SourceWrites(d: Dag, k: Look)
    requires Gets(d, k) && k.Three() && k.pos[0] == 1
    ensures Gets(d, k.At(0, 2))
  {
    var ts: seq<nat>, s: State :| Leads(d, ts, s) && Looks(d, s, k);
    Go(d, ts, s, 0);
    StepShape(d, s, 0);
    assert Looks(d, Step(d, s, 0), k.At(0, 2));
  }

  lemma SourcePushes(d: Dag, k: Look)
    requires Gets(d, k) && k.Three() && k.pos[0] == 2 && !k.full1
    ensures Gets(d, k.At(0, 3).(full1 := true))
  {
    var ts: seq<nat>, s: State :| Leads(d, ts, s) && Looks(d, s, k);
    Go(d, ts, s, 0);
    StepShape(d, s, 0);
    assert Looks(d, Step(d, s, 0), k.At(0, 3).(full1 := true));
  }

  lemma SourceLeaves(d: Dag, k: Look)
    requires Gets(d, k) && k.Three() && k.pos[0] == 3
    ensures Gets(d, k.Round(0))
  {
    var ts: seq<nat>, s: State :| Leads(d, ts, s) && Looks(d, s, k);
    Go(d, ts, s, 0);
    StepShape(d, s, 0);
    assert Looks(d, Step(d, s, 0), k.Round(0));
  }

  lemma MiddleEnters(d: Dag, k: Look)
    requires Gets(d, k) && k.Three() && k.pos[1] == 0 && k.iter[1] < d.iters && k.full1
    ensures Gets(d, k.At(1, 1).(full1 := false))
  {
    var ts: seq<nat>, s: State :| Leads(d, ts, s) && Looks(d, s, k);
    Go(d, ts, s, 1);
    StepShape(d, s, 1);
    assert Looks(d, Step(d, s, 1), k.At(1, 1).(full1 := false));
  }

  lemma MiddleCopies(d: Dag, k: Look)
    requires Gets(d, k) && k.Three() && (k.pos[1] == 1 || k.pos[1] == 2)
    ensures Gets(d, k.At(1, k.pos[1] + 1))
  {
    var ts: seq<nat>, s: State :| Leads(d, ts, s) && Looks(d, s, k);
    Go(d, ts, s, 1);
    StepShape(d, s, 1);
    assert Looks(d, Step(d, s, 1), k.At(1, k.pos[1] + 1));
  }

  lemma MiddlePushes(d: Dag, k: Look)
    requires Gets(d, k) && k.Three() && k.pos[1] == 3 && !k.full2
    ensures Gets(d, k.At(1, 4).(full2 := true))
  {
    var ts: seq<nat>, s: State :| Leads(d, ts, s) && Looks(d, s, k);
    Go(d, ts, s, 1);
    StepShape(d, s, 1);
    assert Looks(d, Step(d, s, 1), k.At(1, 4).(full2 := true));
  }

  lemma SinkEnters(d: Dag, k: Look)
    requires Gets(d, k) && k.Three() && k.pos[2] == 0 && k.iter[2] < d.iters && k.full2
    ensures Gets(d, k.At(2, 1).(full2 := false))
  {
    var ts: seq<nat>, s: State :| Leads(d, ts, s) && Looks(d, s, k);
    Go(d, ts, s, 2);
    StepShape(d, s, 2);
    assert Looks(d, Step(d, s, 2), k.At(2, 1).(full2 := false));
  }

  lemma SinkReads(d: Dag, k: Look)
    requires Gets(d, k) && k.Three() && k.pos[2] == 1
    ensures Gets(d, k.At(2, 2))
  {
    var ts: seq<nat>, s: State :| Leads(d, ts, s) && Looks(d, s, k);
    Go(d, ts, s, 2);
    StepShape(d, s, 2);
    assert Looks(d, Step(d, s, 2), k.At(2, 2));
  }

  lemma SinkLeaves(d: Dag, k: Look)
    requires Gets(d, k) && k.Three() && k.pos[2] == 2 && k.start
    ensures Gets(d, k.Round(2).(start := false))
  {
    var ts: seq<nat>, s: State :| Leads(d, ts, s) && Looks(d, s, k);
    Go(d, ts, s, 2);
    StepShape(d, s, 2);
    assert Looks(d, Step(d, s, 2), k.Round(2).(start := false));
  }

  // ----------------------------------------------------------------- the run

  /** The source's loop: enter, write, push, leave. */
  lemma SourceLoop(d: Dag, k: Look) returns (k': Look)
    requires Gets(d, k) && k.Three() && k.pos[0] == 0 && k.iter[0] < d.iters && !k.start && !k.full1
    ensures k'.Three() && Gets(d, k') && k' == k.(iter := k.iter[0 := k.iter[0] + 1], start := true, full1 := true)
  {
    k' := k;
    SourceEnters(d, k');
    k' := k'.At(0, 1).(start := true);
    SourceWrites(d, k');
    k' := k'.At(0, 2);
    SourcePushes(d, k');
    k' := k'.At(0, 3).(full1 := true);
    SourceLeaves(d, k');
    k' := k'.Round(0);
    assert k'.pos == k.pos;
  }

  /** The middle task's loop but for leaving it: enter, read, write, push. */
  lemma MiddleUpToLeave(d: Dag, k: Look) returns (k': Look)
    requires Gets(d, k) && k.Three() && k.pos[1] == 0 && k.iter[1] < d.iters && k.full1 && !k.full2
    ensures k'.Three() && Gets(d, k') && k' == k.(pos := k.pos[1 := 4], full1 := false, full2 := true)
  {
    k' := k;
    MiddleEnters(d, k');
    k' := k'.At(1, 1).(full1 := false);
    MiddleCopies(d, k');
    k' := k'.At(1, 2);
    MiddleCopies(d, k');
    k' := k'.At(1, 3);
    MiddlePushes(d, k');
    k' := k'.At(1, 4).(full2 := true);
    assert k'.pos == k.pos[1 := 4];
  }

  /** The sink's loop: enter, read, leave. */
  lemma SinkLoop(d: Dag, k: Look) returns (k': Look)
    requires Gets(d, k) && k.Three() && k.pos[2] == 0 && k.iter[2] < d.iters && k.full2 && k.start
    ensures k'.Three() && Gets(d, k') && k' == k.(iter := k.iter[2 := k.iter[2] + 1], full2 := false, start := false)
  {
    k' := k;
    SinkEnters(d, k');
    k' := k'.At(2, 1).(full2 := false);
    SinkReads(d, k');
    k' := k'.At(2, 2);
    SinkLeaves(d, k');
    k' := k'.Round(2).(start := false);
    assert k'.pos == k.pos;
  }

  lemma StartLooks(d: Dag)
    requires IsChain(d) && Shape(d, Init(d))
    ensures Looks(d, Init(d), Look([0, 0, 0], [0, 0, 0], false, false, false))
  {
    var s := Init(d);
    assert s.iter == [0, 0, 0] && s.pos == [0, 0, 0];
  }

  lemma Starts(d: Dag)
    requires IsChain(d) && Shape(d, Init(d))
    ensures Gets(d, Look([0, 0, 0], [0, 0, 0], false, false, false))
  {
    StartLooks(d);
    Runs.LeadsStart(Init(d), Takes(d));
    assert Leads(d, [], Init(d));
  }

  /** In a chain run for at least two iterations some interleaving leaves the
      source's counter two ahead of the middle task's. */
  lemma CountersTwoApart(d: Dag) returns (ts: seq<nat>, s: State)
    requires IsChain(d) && d.iters >= 2
    ensures d.Valid() && Leads(d, ts, s) && s.iter == [2, 0, 1]
  {
    ChainValid(d);
    InitShape(d);
    Starts(d);
    var k := ChainRun(d);
    ts, s :| Leads(d, ts, s) && Looks(d, s, k);
  }

  lemma ChainRun(d: Dag) returns (k: Look)
    requires Gets(d, Look([0, 0, 0], [0, 0, 0], false, false, false)) && d.iters >= 2
    ensures Gets(d, k) && k.iter == [2, 0, 1]
  {
    k := Look([0, 0, 0], [0, 0, 0], false, false, false);
    k := SourceLoop(d, k);
    k := MiddleUpToLeave(d, k);
    k := SinkLoop(d, k);
    k := SourceLoop(d, k);
  }

  /** There is such a chain. */
  lemma ChainExists(iters: nat, startTime: nat -> nat) returns (d: Dag)
    ensures IsChain(d) && d.iters == iters && d.startTime == startTime
  {
    d := Dag(Graph([[], [0], [1]], [[Link(1, 0)], [Link(2, 0)], []], [[], [0], [0]]), 0, 2, _ => true, iters, startTime);
  }
}
