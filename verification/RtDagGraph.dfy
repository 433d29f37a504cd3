/** The task graph of an rt-dag: how TaskSet wires its edges from the adjacency
    matrix, and what acyclicity with one source and one sink gives. */
module RtDagGraph {

  /** adj[s][d] is the size of the message task s sends to task d, 0 for none. */
  type Matrix = seq<seq<nat>>

  predicate Square(adj: Matrix) {
    forall i | 0 <= i < |adj| :: |adj[i]| == |adj|
  }

  /** The predecessors of `t` among the first `c` tasks, ascending. */
  function Preds(adj: Matrix, t: nat, c: nat): (v: seq<nat>)
    requires Square(adj) && t < |adj| && c <= |adj|
    ensures forall k | 0 <= k < |v| :: v[k] < c
  {
    if c == 0 then [] else Preds(adj, t, c - 1) + (if adj[c - 1][t] != 0 then [c - 1] else [])
  }

  /** The successors of `t` among the first `c` tasks, ascending. */
  function Succs(adj: Matrix, t: nat, c: nat): (v: seq<nat>)
    requires Square(adj) && t < |adj| && c <= |adj|
    ensures forall k | 0 <= k < |v| :: v[k] < c
  {
    if c == 0 then [] else Succs(adj, t, c - 1) + (if adj[t][c - 1] != 0 then [c - 1] else [])
  }

  method GetInputTasks(adj: Matrix, t: nat) returns (v: seq<nat>)
    requires Square(adj) && t < |adj|
    ensures v == Preds(adj, t, |adj|)
  {
    v := [];
    for c := 0 to |adj|
      invariant v == Preds(adj, t, c)
    {
      if adj[c][t] != 0 {
        v := v + [c];
      }
    }
  }

  method GetOutputTasks(adj: Matrix, t: nat) returns (v: seq<nat>)
    requires Square(adj) && t < |adj|
    ensures v == Succs(adj, t, |adj|)
  {
    v := [];
    for c := 0 to |adj|
      invariant v == Succs(adj, t, c)
    {
      if adj[t][c] != 0 {
        v := v + [c];
      }
    }
  }

  /** Position in an ascending list is the number of members below. */
  lemma {:induction false} PredAt(adj: Matrix, t: nat, c: nat, s: nat)
    requires Square(adj) && t < |adj| && s < c <= |adj| && adj[s][t] != 0
    ensures |Preds(adj, t, s)| < |Preds(adj, t, c)| && Preds(adj, t, c)[|Preds(adj, t, s)|] == s
  {
    if s < c - 1 {
      PredAt(adj, t, c - 1, s);
    }
  }

  lemma {:induction false} SuccAt(adj: Matrix, t: nat, c: nat, d: nat)
    requires Square(adj) && t < |adj| && d < c <= |adj| && adj[t][d] != 0
    ensures |Succs(adj, t, d)| < |Succs(adj, t, c)| && Succs(adj, t, c)[|Succs(adj, t, d)|] == d
  {
    if d < c - 1 {
      SuccAt(adj, t, c - 1, d);
    }
  }

  lemma {:induction false} PredIs(adj: Matrix, t: nat, c: nat, j: nat)
    requires Square(adj) && t < |adj| && c <= |adj| && j < |Preds(adj, t, c)|
    ensures var s := Preds(adj, t, c)[j]; s < c && adj[s][t] != 0 && |Preds(adj, t, s)| == j
  {
    if j < |Preds(adj, t, c - 1)| {
      PredIs(adj, t, c - 1, j);
    }
  }

  lemma {:induction false} SuccIs(adj: Matrix, t: nat, c: nat, k: nat)
    requires Square(adj) && t < |adj| && c <= |adj| && k < |Succs(adj, t, c)|
    ensures var d := Succs(adj, t, c)[k]; d < c && adj[t][d] != 0 && |Succs(adj, t, d)| == k
  {
    if k < |Succs(adj, t, c - 1)| {
      SuccIs(adj, t, c - 1, k);
    }
  }

  // ----------------------------------------------------------------- wiring

  /** An edge: from `src` to input number `idx` of `dst`, carrying `size` bytes. */
  datatype Edge = Edge(src: nat, dst: nat, idx: nat, size: nat)

  function EdgeOf(adj: Matrix, s: nat, d: nat): Edge
    requires Square(adj) && s < |adj| && d < |adj|
  {
    Edge(s, d, |Preds(adj, d, s)|, adj[s][d])
  }

  /** The edges into `d` from the first `c` tasks, in ascending order. */
  function InEdges(adj: Matrix, d: nat, c: nat): (es: seq<Edge>)
    requires Square(adj) && d < |adj| && c <= |adj|
    ensures |es| == |Preds(adj, d, c)|
    ensures forall j | 0 <= j < |es| :: es[j].src == Preds(adj, d, c)[j] && es[j].dst == d && es[j].idx == j
  {
    if c == 0 then [] else InEdges(adj, d, c - 1) + (if adj[c - 1][d] != 0 then [EdgeOf(adj, c - 1, d)] else [])
  }

  /** The edges out of `s` into the first `c` tasks, in ascending order. */
  function OutEdges(adj: Matrix, s: nat, c: nat): (es: seq<Edge>)
    requires Square(adj) && s < |adj| && c <= |adj|
    ensures |es| == |Succs(adj, s, c)|
    ensures forall k | 0 <= k < |es| :: es[k].src == s && es[k].dst == Succs(adj, s, c)[k]
  {
    if c == 0 then [] else OutEdges(adj, s, c - 1) + (if adj[s][c - 1] != 0 then [EdgeOf(adj, s, c - 1)] else [])
  }

  /** All input lists once the first `i` destinations are wired. */
  function InsUpTo(adj: Matrix, i: nat): (es: seq<seq<Edge>>)
    requires Square(adj) && i <= |adj|
    ensures |es| == |adj| && forall t | 0 <= t < |adj| :: es[t] == if t < i then InEdges(adj, t, |adj|) else []
  {
    seq(|adj|, t requires 0 <= t < |adj| => if t < i then InEdges(adj, t, |adj|) else [])
  }

  /** And all output lists. */
  function OutsUpTo(adj: Matrix, i: nat): (es: seq<seq<Edge>>)
    requires Square(adj) && i <= |adj|
    ensures |es| == |adj| && forall t | 0 <= t < |adj| :: es[t] == OutEdges(adj, t, i)
  {
    seq(|adj|, t requires 0 <= t < |adj| => OutEdges(adj, t, i))
  }

  lemma NoneWired(adj: Matrix)
    requires Square(adj)
    ensures InsUpTo(adj, 0) == OutsUpTo(adj, 0) == seq(|adj|, _ => [])
  {
    forall t | 0 <= t < |adj| ensures OutsUpTo(adj, 0)[t] == [] {
      assert OutEdges(adj, t, 0) == [];
    }
  }

  lemma NextWired(adj: Matrix, i: nat)
    requires Square(adj) && i < |adj|
    ensures InsUpTo(adj, i)[i] == []
    ensures InsUpTo(adj, i)[i := InEdges(adj, i, |adj|)] == InsUpTo(adj, i + 1)
  {
  }

  /** The edges of the tasks, as the TaskSet constructor wires them: destination
      by destination, each edge numbered by its place in the destination's input
      list and appended to its source's output list. */
  class TaskSet {
    var inBuffers: seq<seq<Edge>>
    var outBuffers: seq<seq<Edge>>

    constructor (adj: Matrix)
      requires Square(adj)
      ensures |inBuffers| == |outBuffers| == |adj|
      ensures forall t | 0 <= t < |adj| :: inBuffers[t] == InEdges(adj, t, |adj|)
      ensures forall t | 0 <= t < |adj| :: outBuffers[t] == OutEdges(adj, t, |adj|)
    {
      inBuffers := seq(|adj|, _ => []);
      outBuffers := seq(|adj|, _ => []);
      new;
      NoneWired(adj);
      for i := 0 to |adj|
        invariant inBuffers == InsUpTo(adj, i) && outBuffers == OutsUpTo(adj, i)
      {
        NextWired(adj, i);
        WireInputs(adj, i);
      }
    }

    /** The inner loop: the edges into task `i`. */
    method WireInputs(adj: Matrix, i: nat)
      requires Square(adj) && i < |adj| == |inBuffers| && inBuffers[i] == [] && outBuffers == OutsUpTo(adj, i)
      modifies this
      ensures inBuffers == old(inBuffers)[i := InEdges(adj, i, |adj|)]
      ensures outBuffers == OutsUpTo(adj, i + 1)
    {
      var inTasks := GetInputTasks(adj, i);
      for j := 0 to |inTasks|
        invariant |inBuffers| == |outBuffers| == |adj|
        invariant inBuffers == old(inBuffers)[i := InEdges(adj, i, |adj|)[..j]]
        invariant forall t | 0 <= t < |adj| :: outBuffers[t] == OutSoFar(adj, t, i, j)
      {
        var s := inTasks[j];
        var edge := Edge(s, i, j, adj[s][i]);
        NextFed(adj, i, j);
        inBuffers := inBuffers[i := inBuffers[i] + [edge]];
        outBuffers := outBuffers[s := outBuffers[s] + [edge]];
      }
      AllFed(adj, i);
      assert InEdges(adj, i, |adj|)[..|inTasks|] == InEdges(adj, i, |adj|);
    }
  }

  /** Task `t` is among the first `j` predecessors of `i`. */
  predicate Fed(adj: Matrix, t: nat, i: nat, j: nat)
    requires Square(adj) && t < |adj| && i < |adj|
  {
    adj[t][i] != 0 && |Preds(adj, i, t)| < j
  }

  /** The edges out of `t` once the first `j` edges into `i` are wired. */
  function OutSoFar(adj: Matrix, t: nat, i: nat, j: nat): seq<Edge>
    requires Square(adj) && t < |adj| && i < |adj|
  {
    OutEdges(adj, t, i) + (if Fed(adj, t, i, j) then [EdgeOf(adj, t, i)] else [])
  }

  /** Only predecessor number `j` is fed by the edge wired j-th. */
  lemma FedOne(adj: Matrix, i: nat, j: nat, t: nat)
    requires Square(adj) && i < |adj| && j < |Preds(adj, i, |adj|)| && t < |adj|
    ensures Preds(adj, i, |adj|)[j] < |adj|
    ensures Fed(adj, t, i, j + 1) <==> Fed(adj, t, i, j) || t == Preds(adj, i, |adj|)[j]
    ensures t == Preds(adj, i, |adj|)[j] ==> !Fed(adj, t, i, j) && EdgeOf(adj, t, i) == Edge(t, i, j, adj[t][i])
  {
    PredIs(adj, i, |adj|, j);
    if adj[t][i] != 0 {
      PredAt(adj, i, |adj|, t);
    }
  }

  lemma NextFed(adj: Matrix, i: nat, j: nat)
    requires Square(adj) && i < |adj| && j < |Preds(adj, i, |adj|)|
    ensures var s := Preds(adj, i, |adj|)[j]; var edge := Edge(s, i, j, adj[s][i]);
            && InEdges(adj, i, |adj|)[..j + 1] == InEdges(adj, i, |adj|)[..j] + [edge]
            && (forall t | 0 <= t < |adj| && t != s :: OutSoFar(adj, t, i, j + 1) == OutSoFar(adj, t, i, j))
            && OutSoFar(adj, s, i, j + 1) == OutSoFar(adj, s, i, j) + [edge]
  {
    InEdgeAt(adj, i, |adj|, j);
    forall t: nat | t < |adj| ensures Fed(adj, t, i, j + 1) <==> Fed(adj, t, i, j) || t == Preds(adj, i, |adj|)[j] {
      FedOne(adj, i, j, t);
    }
    FedOne(adj, i, j, Preds(adj, i, |adj|)[j]);
  }

  lemma AllFed(adj: Matrix, i: nat)
    requires Square(adj) && i < |adj|
    ensures forall t | 0 <= t < |adj| :: OutSoFar(adj, t, i, |Preds(adj, i, |adj|)|) == OutEdges(adj, t, i + 1)
  {
    forall t | 0 <= t < |adj| && adj[t][i] != 0 ensures |Preds(adj, i, t)| < |Preds(adj, i, |adj|)| {
      PredAt(adj, i, |adj|, t);
    }
  }

  lemma {:induction false} InEdgeAt(adj: Matrix, d: nat, c: nat, j: nat)
    requires Square(adj) && d < |adj| && c <= |adj| && j < |InEdges(adj, d, c)|
    ensures InEdges(adj, d, c)[j] == EdgeOf(adj, Preds(adj, d, c)[j], d)
  {
    if j < |Preds(adj, d, c - 1)| {
      InEdgeAt(adj, d, c - 1, j);
    }
  }

  lemma {:induction false} OutEdgeAt(adj: Matrix, s: nat, c: nat, k: nat)
    requires Square(adj) && s < |adj| && c <= |adj| && k < |OutEdges(adj, s, c)|
    ensures OutEdges(adj, s, c)[k] == EdgeOf(adj, s, Succs(adj, s, c)[k])
  {
    if k < |Succs(adj, s, c - 1)| {
      OutEdgeAt(adj, s, c - 1, k);
    }
  }

  // ------------------------------------------------------------------ graph

  datatype Link = Link(dst: nat, idx: nat)

  /** The wired graph: `ins[v][j]` is the producer of input j of v; `outs[u][k]`
      is the input fed by output k of u; `back[v][j]` is the number of the output
      that feeds input j of v. */
  datatype Graph = Graph(ins: seq<seq<nat>>, outs: seq<seq<Link>>, back: seq<seq<nat>>) {
    // Every link names an input and every producer a task.
    ghost predicate Sized() {
      && |ins| == |outs| == |back|
      && (forall u, k | 0 <= u < |outs| && 0 <= k < |outs[u]| ::
            outs[u][k].dst < |ins| && outs[u][k].idx < |ins[outs[u][k].dst]|)
      && (forall v | 0 <= v < |ins| :: |back[v]| == |ins[v]|)
      && (forall v, j | 0 <= v < |ins| && 0 <= j < |ins[v]| :: ins[v][j] < |ins|)
    }

    // Inputs and outputs name each other.
    ghost predicate Wired() {
      && Sized()
      && (forall u, k | 0 <= u < |outs| && 0 <= k < |outs[u]| ::
            var l := outs[u][k]; ins[l.dst][l.idx] == u && back[l.dst][l.idx] == k)
      && (forall v, j | 0 <= v < |ins| && 0 <= j < |ins[v]| ::
            back[v][j] < |outs[ins[v][j]]| && outs[ins[v][j]][back[v][j]] == Link(v, j))
    }

    /** A walk along edges. */
    ghost predicate Walk(w: seq<nat>) {
      && |w| > 0
      && (forall i | 0 <= i < |w| :: w[i] < |ins|)
      && (forall i | 0 < i < |w| :: w[i] < |ins| && w[i - 1] in ins[w[i]])
    }

    ghost predicate Acyclic() {
      forall w | Walk(w) :: !Returns(w)
    }

    /** The only task without inputs is `src`, the only one without outputs is
        `sink`. */
    ghost predicate Ends(src: nat, sink: nat) {
      && |ins| == |outs| && src < |ins| && sink < |ins|
      && (forall t | 0 <= t < |ins| :: ins[t] == [] <==> t == src)
      && (forall t | 0 <= t < |outs| :: outs[t] == [] <==> t == sink)
    }
  }

  /** The walk ends where it began. */
  predicate Returns(w: seq<nat>) {
    |w| > 1 && w[0] == w[|w| - 1]
  }

  function GraphOf(adj: Matrix): Graph
    requires Square(adj)
  {
    Graph(seq(|adj|, t requires 0 <= t < |adj| => Preds(adj, t, |adj|)),
          seq(|adj|, t requires 0 <= t < |adj| => LinksOf(OutEdges(adj, t, |adj|))),
          seq(|adj|, t requires 0 <= t < |adj| => BackOf(adj, t, |adj|)))
  }

  function LinksOf(es: seq<Edge>): (ls: seq<Link>)
    ensures |ls| == |es| && forall k | 0 <= k < |es| :: ls[k] == Link(es[k].dst, es[k].idx)
  {
    if es == [] then [] else [Link(es[0].dst, es[0].idx)] + LinksOf(es[1..])
  }

  function BackOf(adj: Matrix, d: nat, c: nat): (ks: seq<nat>)
    requires Square(adj) && d < |adj| && c <= |adj|
    ensures |ks| == |Preds(adj, d, c)|
    ensures forall j | 0 <= j < |ks| :: Preds(adj, d, c)[j] < |adj| && ks[j] == |Succs(adj, Preds(adj, d, c)[j], d)|
  {
    if c == 0 then [] else BackOf(adj, d, c - 1) + (if adj[c - 1][d] != 0 then [|Succs(adj, c - 1, d)|] else [])
  }

  /** The constructor's wiring is consistent: every output feeds one input, every
      input is fed by one output, and they name each other. */
  lemma WiredAsBuilt(adj: Matrix)
    requires Square(adj)
    ensures GraphOf(adj).Wired()
  {
    var g := GraphOf(adj);
    forall u, k | 0 <= u < |g.outs| && 0 <= k < |g.outs[u]|
      ensures var l := g.outs[u][k];
              l.dst < |g.ins| && l.idx < |g.ins[l.dst]| && g.ins[l.dst][l.idx] == u
              && l.idx < |g.back[l.dst]| && g.back[l.dst][l.idx] == k
    {
      OutEdgeAt(adj, u, |adj|, k);
      SuccIs(adj, u, |adj|, k);
      PredAt(adj, Succs(adj, u, |adj|)[k], |adj|, u);
    }
    forall v, j | 0 <= v < |g.ins| && 0 <= j < |g.ins[v]|
      ensures g.ins[v][j] < |g.ins| && g.back[v][j] < |g.outs[g.ins[v][j]]|
              && g.outs[g.ins[v][j]][g.back[v][j]] == Link(v, j)
    {
      PredIs(adj, v, |adj|, j);
      var u := g.ins[v][j];
      SuccAt(adj, u, |adj|, v);
      OutEdgeAt(adj, u, |adj|, g.back[v][j]);
    }
  }

  // ---------------------------------------------------------------- reaching

  /** Distinct numbers below n are at most n. */
  lemma {:induction false} DistinctBound(w: seq<nat>, n: nat)
    requires forall i | 0 <= i < |w| :: w[i] < n
    requires forall i, j | 0 <= i < j < |w| :: w[i] != w[j]
    ensures |w| <= n
  {
    assert |w| == 0 || w[0] < n;
    if n > 0 {
      if i :| 0 <= i < |w| && w[i] == n - 1 {
        var w' := w[..i] + w[i + 1..];
        assert forall k | 0 <= k < |w'| :: w'[k] == w[if k < i then k else k + 1];
        DistinctBound(w', n - 1);
      } else {
        DistinctBound(w, n - 1);
      }
    }
  }

  lemma WalkDistinct(g: Graph, w: seq<nat>)
    requires g.Acyclic() && g.Walk(w)
    ensures forall i, j | 0 <= i < j < |w| :: w[i] != w[j]
    ensures |w| <= |g.ins|
  {
    forall i, j | 0 <= i < j < |w| ensures w[i] != w[j] {
      assert g.Walk(w[i..j + 1]);
    }
    DistinctBound(w, |g.ins|);
  }

  lemma WalkOn(g: Graph, w: seq<nat>, v: nat)
    requires g.Walk(w) && v < |g.ins| && w[|w| - 1] in g.ins[v]
    ensures g.Walk(w + [v])
  {
  }

  lemma WalkFrom(g: Graph, u: nat, w: seq<nat>)
    requires g.Walk(w) && u < |g.ins| && u in g.ins[w[0]]
    ensures g.Walk([u] + w)
  {
    var w' := [u] + w;
    forall i | 0 < i < |w'| ensures w'[i] < |g.ins| && w'[i - 1] in g.ins[w'[i]] {
      if i > 1 { assert w'[i] == w[i - 1] && w'[i - 1] == w[i - 2]; }
    }
  }

  /** Every task but the sink feeds another. */
  lemma Feeds(g: Graph, src: nat, sink: nat, t: nat) returns (v: nat)
    requires g.Wired() && g.Ends(src, sink) && t < |g.ins| && t != sink
    ensures v < |g.ins| && t in g.ins[v]
  {
    var l := g.outs[t][0];
    assert g.ins[l.dst][l.idx] == t;
    v := l.dst;
  }

  /** `f` never grows along an edge. */
  ghost predicate Falling(g: Graph, f: seq<int>) {
    && |f| == |g.ins|
    && forall v, j | 0 <= v < |g.ins| && 0 <= j < |g.ins[v]| :: g.ins[v][j] < |g.ins| && f[v] <= f[g.ins[v][j]]
  }

  /** Then it is smallest at the sink. */
  lemma {:induction false} DownToSink(g: Graph, src: nat, sink: nat, f: seq<int>, w: seq<nat>)
    requires g.Wired() && g.Acyclic() && g.Ends(src, sink) && Falling(g, f) && g.Walk(w)
    ensures f[w[|w| - 1]] >= f[sink]
    decreases |g.ins| - |w|
  {
    var t := w[|w| - 1];
    if t != sink {
      var v := Feeds(g, src, sink, t);
      WalkOn(g, w, v);
      WalkDistinct(g, w + [v]);
      DownToSink(g, src, sink, f, w + [v]);
    }
  }

  /** And largest at the source. */
  lemma {:induction false} UpToSource(g: Graph, src: nat, sink: nat, f: seq<int>, w: seq<nat>)
    requires g.Acyclic() && g.Ends(src, sink) && Falling(g, f) && g.Walk(w)
    ensures f[w[0]] <= f[src]
    decreases |g.ins| - |w|
  {
    var t := w[0];
    if t != src {
      var u := g.ins[t][0];
      assert f[t] <= f[u];
      WalkFrom(g, u, w);
      WalkDistinct(g, [u] + w);
      UpToSource(g, src, sink, f, [u] + w);
    }
  }

  /** With one source and one sink, such a quantity lies between their values. */
  lemma Between(g: Graph, src: nat, sink: nat, f: seq<int>, t: nat)
    requires g.Wired() && g.Acyclic() && g.Ends(src, sink) && Falling(g, f) && t < |g.ins|
    ensures f[sink] <= f[t] <= f[src]
  {
    assert g.Walk([t]);
    DownToSink(g, src, sink, f, [t]);
    UpToSource(g, src, sink, f, [t]);
  }
}
