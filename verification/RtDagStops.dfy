/** The threads of a DAG over their multi-queues come to a stop: a bound on the
    steps of every run, from the work to do and the spurious wakeups. */
module RtDagStops {
  import opened Wrappers
  import opened RtDagGraph
  import opened RtDagRun
  import opened RtDagTheorems
  import M = MultiQueueThreads
  import Q = RtDagQueues
  import Runs

  // ------------------------------------------------------------------ costs

  /** At most so many steps are left of an operation on a queue of `n` inputs.
      Four are set aside for each signal still to come: the signal itself, and the
      three steps that take the thread it wakes back to sleep. */
  function Cost(n: nat, pc: M.Pc): nat {
    match pc
    case Out => 0
    case Unlock(_) => 1
    case Ring(op, k) => if op.Pop? && k < n then 4 * (n - k) + 5 else 5
    case Act(op) => ActCost(n, op)
    case Asleep(op) => ActCost(n, op)
    case Test(op) => ActCost(n, op) + 1
    case Again(op) => ActCost(n, op) + 2
    case Lock(op) => ActCost(n, op) + 2
    case Awake(op) => ActCost(n, op) + 3
  }

  function ActCost(n: nat, op: M.Op): nat {
    if op.Pop? then 4 * n + 6 else 6
  }

  function Widest(d: Dag, n: nat): (w: nat)
    requires n <= d.N()
    ensures forall v | 0 <= v < n :: Q.Inputs(d, v) <= w
  {
    if n == 0 then 0
    else var w := Widest(d, n - 1); if Q.Inputs(d, n - 1) > w then Q.Inputs(d, n - 1) else w
  }

  /** One step of the DAG costs at most so many. */
  function Price(d: Dag): nat {
    4 * Widest(d, d.N()) + 9
  }

  /** What thread `t` still costs in queue `v`, less the price of the step of the
      DAG it takes there. */
  function DueAt(d: Dag, x: Q.System, t: nat, v: nat): int
    requires Q.Sized(d, x) && t < d.N() && v < d.N()
  {
    Cost(x.qs[v].N(), x.qs[v].pc[t]) - (if Q.Before(x.qs[v].pc[t]) then Price(d) else 0)
  }

  function Due(d: Dag, x: Q.System, t: nat, n: nat): int
    requires Q.Sized(d, x) && t < d.N() && n <= d.N()
  {
    if n == 0 then 0 else Due(d, x, t, n - 1) + DueAt(d, x, t, n - 1)
  }

  /** What thread `t` still costs in all. */
  function ThreadCost(d: Dag, x: Q.System, t: nat): int
    requires Q.Sized(d, x) && t < d.N()
  {
    Times(Price(d), LeftOf(d, x.a, t)) + Due(d, x, t, d.N())
  }

  function Owed(d: Dag, x: Q.System, n: nat): int
    requires Q.Sized(d, x) && n <= d.N()
  {
    if n == 0 then 0 else Owed(d, x, n - 1) + ThreadCost(d, x, n - 1)
  }

  // ------------------------------------------------------- never below zero

  /** Before the thread's step of the DAG in queue `v`, its price is due there;
      elsewhere nothing is. */
  lemma {:induction false} DueLow(d: Dag, x: Q.System, t: nat, n: nat)
    requires Q.Sized(d, x) && Q.ThreadsAgree(d, x) && t < d.N() && n <= d.N()
    ensures Due(d, x, t, n) + (if exists v :: 0 <= v < n && Q.Before(x.qs[v].pc[t]) then Price(d) else 0) >= 0
  {
    if n > 0 {
      DueLow(d, x, t, n - 1);
      if v :| 0 <= v < n - 1 && Q.Before(x.qs[v].pc[t]) {
        assert x.qs[n - 1].pc[t].Out?;
      }
    }
  }

  lemma SomeLeft(d: Dag, a: State, t: nat)
    requires Shape(d, a) && t < d.N() && a.iter[t] < d.iters
    ensures LeftOf(d, a, t) > 0
  {
  }

  lemma TimesGrows(k: nat, n: nat)
    requires n > 0
    ensures Times(k, n) == Times(k, n - 1) + k && Times(k, n) >= k
  {
  }

  lemma ThreadCostLow(d: Dag, x: Q.System, t: nat)
    requires Q.Sized(d, x) && Q.ThreadsAgree(d, x) && t < d.N()
    ensures ThreadCost(d, x, t) >= 0
  {
    DueLow(d, x, t, d.N());
    if v :| 0 <= v < d.N() && Q.Before(x.qs[v].pc[t]) {
      SomeLeft(d, x.a, t);
      TimesGrows(Price(d), LeftOf(d, x.a, t));
    }
  }

  lemma {:induction false} OwedLow(d: Dag, x: Q.System, n: nat)
    requires Q.Sized(d, x) && Q.ThreadsAgree(d, x) && n <= d.N()
    ensures Owed(d, x, n) >= 0
  {
    if n > 0 {
      OwedLow(d, x, n - 1);
      ThreadCostLow(d, x, n - 1);
    }
  }

  // ---------------------------------------------------------- what steps pay

  /** What a step in a queue does to a thread's cost there: the thread that steps
      pays, four if it may wake another, which then costs three more. */
  lemma GoPays(q: M.State, t: nat, w: nat, u: nat)
    requires M.Sized(q) && M.Enabled(q, M.Go(t, w)) && u < |q.pc|
    ensures var q' := M.Step(q, M.Go(t, w));
      && |q'.pc| == |q.pc| && q'.N() == q.N()
      && (q.pc[t].Act? && u == t ==> Q.Before(q.pc[t]) && !Q.Before(q'.pc[t]))
      && (!(q.pc[t].Act? && u == t) ==> (Q.Before(q'.pc[u]) <==> Q.Before(q.pc[u])))
      && Cost(q.N(), q'.pc[u]) <= Cost(q.N(), q.pc[u])
           - (if u != t then 0 else if q.pc[t].Ring? then 4 else 1)
           + (if q.pc[t].Ring? && u == w && u != t then 3 else 0)
  {
  }

  lemma {:induction false} DueWith(d: Dag, x: Q.System, v: nat, q: M.State, t: nat, n: nat)
    requires Q.Sized(d, x) && v < d.N() && Q.Fits(d, v, q) && t < d.N() && n <= d.N()
    ensures Q.Sized(d, Q.With(x, v, q))
    ensures Due(d, Q.With(x, v, q), t, n)
            == Due(d, x, t, n) + (if v < n then DueAt(d, Q.With(x, v, q), t, v) - DueAt(d, x, t, v) else 0)
  {
    if n > 0 {
      DueWith(d, x, v, q, t, n - 1);
    }
  }

  /** The steps of the DAG do not matter to what is due in the queues. */
  lemma {:induction false} DueSame(d: Dag, x: Q.System, y: Q.System, t: nat, n: nat)
    requires Q.Sized(d, x) && Q.Sized(d, y) && y.qs == x.qs && t < d.N() && n <= d.N()
    ensures Due(d, y, t, n) == Due(d, x, t, n)
  {
    if n > 0 {
      DueSame(d, x, y, t, n - 1);
    }
  }

  /** What an act may add to the cost of thread `u`: the thread that acts pays. */
  function Extra(x: Q.System, act: Q.Act, u: nat): int {
    match act
    case Spurious(_, t) => if u == t then 3 else 0
    case Queue(v, t, w) =>
      if v < |x.qs| && t < |x.qs[v].pc| && x.qs[v].pc[t].Ring? then (if u == t then -4 else if u == w then 3 else 0)
      else if u == t then -1 else 0
    case _ => if u == act.t then -1 else 0
  }

  /** A step of the DAG alone saves its price. */
  lemma DagPays(d: Dag, x: Q.System, t: nat, u: nat)
    requires Q.Sized(d, x) && Enabled(d, x.a, t) && u < d.N() && Q.Sized(d, x.(a := Step(d, x.a, t)))
    ensures ThreadCost(d, x.(a := Step(d, x.a, t)), u) == ThreadCost(d, x, u) - (if u == t then Price(d) else 0)
  {
    DueSame(d, x, x.(a := Step(d, x.a, t)), u, d.N());
    StepLeftOf(d, x.a, t, u);
    if u == t {
      SomeLeft(d, x.a, t);
      TimesGrows(Price(d), LeftOf(d, x.a, t));
    }
  }

  lemma LocalPays(d: Dag, x: Q.System, t: nat, u: nat)
    requires Q.Agree(d, x) && Q.CanAct(d, x, Q.Local(t)) && u < d.N()
    ensures Q.Sized(d, Q.Take(d, x, Q.Local(t)))
    ensures ThreadCost(d, Q.Take(d, x, Q.Local(t)), u) <= ThreadCost(d, x, u) + Extra(x, Q.Local(t), u)
  {
    Q.LocalEnabled(d, x.a, t);
    StepShape(d, x.a, t);
    DagPays(d, x, t, u);
  }

  /** A step in queue `v` that is none of the DAG. */
  lemma QueuePays(d: Dag, x: Q.System, v: nat, q: M.State, u: nat, extra: int)
    requires Q.Sized(d, x) && v < d.N() && Q.Fits(d, v, q) && u < d.N() && Q.Sized(d, Q.With(x, v, q))
    requires DueAt(d, Q.With(x, v, q), u, v) <= DueAt(d, x, u, v) + extra
    ensures ThreadCost(d, Q.With(x, v, q), u) <= ThreadCost(d, x, u) + extra
  {
    DueWith(d, x, v, q, u, d.N());
  }

  lemma CallPaysDue(d: Dag, x: Q.System, v: nat, t: nat, op: M.Op, u: nat)
    requires Q.Sized(d, x) && v < d.N() && t < d.N() && u < d.N() && M.Enabled(x.qs[v], M.Call(t, op))
    ensures var q := M.Step(x.qs[v], M.Call(t, op));
      && Q.Fits(d, v, q) && Q.Sized(d, Q.With(x, v, q))
      && DueAt(d, Q.With(x, v, q), u, v) <= DueAt(d, x, u, v) + (if u == t then -1 else 0)
  {
    M.StepSized(x.qs[v], M.Call(t, op));
  }

  lemma BeginPays(d: Dag, x: Q.System, t: nat, u: nat)
    requires Q.Agree(d, x) && Q.CanAct(d, x, Q.Begin(t)) && u < d.N()
    ensures Q.Sized(d, Q.Take(d, x, Q.Begin(t)))
    ensures ThreadCost(d, Q.Take(d, x, Q.Begin(t)), u) <= ThreadCost(d, x, u) + Extra(x, Q.Begin(t), u)
  {
    Q.CallEnabled(d, x, t);
    var w := Q.Wants(d, x.a, t).value;
    CallPaysDue(d, x, w.v, t, w.op, u);
    QueuePays(d, x, w.v, M.Step(x.qs[w.v], M.Call(t, w.op)), u, Extra(x, Q.Begin(t), u));
  }

  lemma SpuriousPaysDue(d: Dag, x: Q.System, v: nat, t: nat, u: nat)
    requires Q.Sized(d, x) && v < d.N() && u < d.N() && M.Enabled(x.qs[v], M.Spurious(t))
    ensures var q := M.Step(x.qs[v], M.Spurious(t));
      && Q.Fits(d, v, q) && Q.Sized(d, Q.With(x, v, q))
      && DueAt(d, Q.With(x, v, q), u, v) <= DueAt(d, x, u, v) + (if u == t then 3 else 0)
  {
    M.StepSized(x.qs[v], M.Spurious(t));
  }

  lemma SpuriousPays(d: Dag, x: Q.System, v: nat, t: nat, u: nat)
    requires Q.Agree(d, x) && Q.CanAct(d, x, Q.Spurious(v, t)) && u < d.N()
    ensures Q.Sized(d, Q.Take(d, x, Q.Spurious(v, t)))
    ensures ThreadCost(d, Q.Take(d, x, Q.Spurious(v, t)), u) <= ThreadCost(d, x, u) + Extra(x, Q.Spurious(v, t), u)
  {
    SpuriousPaysDue(d, x, v, t, u);
    QueuePays(d, x, v, M.Step(x.qs[v], M.Spurious(t)), u, Extra(x, Q.Spurious(v, t), u));
  }

  lemma GoPaysDue(d: Dag, x: Q.System, v: nat, t: nat, w: nat, u: nat)
    requires Q.Sized(d, x) && v < d.N() && M.Enabled(x.qs[v], M.Go(t, w)) && u < d.N()
    ensures var q := M.Step(x.qs[v], M.Go(t, w));
      && Q.Fits(d, v, q) && Q.Sized(d, Q.With(x, v, q))
      && DueAt(d, Q.With(x, v, q), u, v)
           <= DueAt(d, x, u, v) + Extra(x, Q.Queue(v, t, w), u)
              + (if x.qs[v].pc[t].Act? && u == t then Price(d) else 0)
  {
    M.StepSized(x.qs[v], M.Go(t, w));
    GoPays(x.qs[v], t, w, u);
  }

  /** A store or a take is paid for by the step of the DAG it is. */
  lemma ActThreadPays(d: Dag, x: Q.System, v: nat, t: nat, q: M.State, u: nat, extra: int)
    requires Q.Sized(d, x) && v < d.N() && t < d.N() && u < d.N() && Enabled(d, x.a, t) && Q.Fits(d, v, q)
    requires var x1 := Q.With(x, v, q); Q.Sized(d, x1) && Q.Sized(d, x1.(a := Step(d, x.a, t)))
    requires DueAt(d, Q.With(x, v, q), u, v) <= DueAt(d, x, u, v) + extra + (if u == t then Price(d) else 0)
    ensures ThreadCost(d, Q.With(x, v, q).(a := Step(d, x.a, t)), u) <= ThreadCost(d, x, u) + extra
  {
    QueuePays(d, x, v, q, u, extra + (if u == t then Price(d) else 0));
    DagPays(d, Q.With(x, v, q), t, u);
  }

  lemma GoThreadPays(d: Dag, x: Q.System, v: nat, t: nat, w: nat, u: nat)
    requires Q.Agree(d, x) && Q.CanAct(d, x, Q.Queue(v, t, w)) && u < d.N()
    ensures Q.Sized(d, Q.Take(d, x, Q.Queue(v, t, w)))
    ensures ThreadCost(d, Q.Take(d, x, Q.Queue(v, t, w)), u) <= ThreadCost(d, x, u) + Extra(x, Q.Queue(v, t, w), u)
  {
    Q.TakeKeeps(d, x, Q.Queue(v, t, w));
    GoPaysDue(d, x, v, t, w, u);
    var q, x' := M.Step(x.qs[v], M.Go(t, w)), Q.Take(d, x, Q.Queue(v, t, w));
    var extra := Extra(x, Q.Queue(v, t, w), u);
    if x.qs[v].pc[t].Act? {
      Q.SoundAct(d, x, v, t);
      assert x' == Q.With(x, v, q).(a := Step(d, x.a, t));
      ActThreadPays(d, x, v, t, q, u, extra);
    } else {
      assert x' == Q.With(x, v, q);
      QueuePays(d, x, v, q, u, extra);
    }
  }

  lemma ThreadPays(d: Dag, x: Q.System, act: Q.Act, u: nat)
    requires Q.Agree(d, x) && Q.CanAct(d, x, act) && u < d.N()
    ensures Q.Sized(d, Q.Take(d, x, act))
    ensures ThreadCost(d, Q.Take(d, x, act), u) <= ThreadCost(d, x, u) + Extra(x, act, u)
  {
    match act
    case Local(t) => LocalPays(d, x, t, u);
    case Begin(t) => BeginPays(d, x, t, u);
    case Spurious(v, t) => SpuriousPays(d, x, v, t, u);
    case Queue(v, t, w) => GoThreadPays(d, x, v, t, w, u);
  }

  function Wakes(act: Q.Act): nat {
    if act.Spurious? then 1 else 0
  }

  function Extras(x: Q.System, act: Q.Act, n: nat): int {
    if n == 0 then 0 else Extras(x, act, n - 1) + Extra(x, act, n - 1)
  }

  lemma {:induction false} ExtrasSum(x: Q.System, act: Q.Act, n: nat)
    requires act.Queue? ==> act.v < |x.qs| && act.t < |x.qs[act.v].pc|
    ensures act.t >= n ==> Extras(x, act, n) <= 3
    ensures act.t >= n && (act.Queue? && act.w < n ==> !x.qs[act.v].pc[act.t].Ring?) ==> Extras(x, act, n) == 0
    ensures act.t < n ==> Extras(x, act, n) <= if act.Spurious? then 3 else -1
    ensures act.t < n && act.Queue? && x.qs[act.v].pc[act.t].Ring? && act.w >= n ==> Extras(x, act, n) == -4
  {
    if n > 0 {
      ExtrasSum(x, act, n - 1);
    }
  }

  lemma {:induction false} OwedPays(d: Dag, x: Q.System, x': Q.System, act: Q.Act, n: nat)
    requires Q.Sized(d, x) && Q.Sized(d, x') && n <= d.N()
    requires forall u: nat | u < n :: ThreadCost(d, x', u) <= ThreadCost(d, x, u) + Extra(x, act, u)
    ensures Owed(d, x', n) <= Owed(d, x, n) + Extras(x, act, n)
  {
    if n > 0 {
      OwedPays(d, x, x', act, n - 1);
    }
  }

  lemma ActorKnown(d: Dag, x: Q.System, act: Q.Act)
    requires Q.Sized(d, x) && Q.CanAct(d, x, act)
    ensures act.t < d.N() && (act.Queue? ==> act.v < d.N() && act.t < |x.qs[act.v].pc|)
  {
  }

  /** Every act but a spurious wakeup lowers what is owed; that raises it by three. */
  lemma ActPays(d: Dag, x: Q.System, act: Q.Act)
    requires Q.Agree(d, x) && Q.CanAct(d, x, act)
    ensures Q.Agree(d, Q.Take(d, x, act))
    ensures Owed(d, Q.Take(d, x, act), d.N()) <= Owed(d, x, d.N()) + (if act.Spurious? then 3 else -1)
  {
    Q.TakeKeeps(d, x, act);
    var x' := Q.Take(d, x, act);
    forall u: nat | u < d.N() ensures ThreadCost(d, x', u) <= ThreadCost(d, x, u) + Extra(x, act, u) {
      ThreadPays(d, x, act, u);
    }
    OwedPays(d, x, x', act, d.N());
    ActorKnown(d, x, act);
    ExtrasSum(x, act, d.N());
  }

  // ------------------------------------------------------------ at the start

  lemma {:induction false} NothingDue(d: Dag, x: Q.System, t: nat, n: nat)
    requires Q.Sized(d, x) && t < d.N() && n <= d.N() && forall v | 0 <= v < d.N() :: x.qs[v].pc[t].Out?
    ensures Due(d, x, t, n) == 0
  {
    if n > 0 {
      NothingDue(d, x, t, n - 1);
    }
  }

  lemma TimesAdds(k: nat, m: nat, n: nat)
    ensures Times(k, m + n) == Times(k, m) + Times(k, n)
  {
  }

  lemma {:induction false} InitOwed(d: Dag, x: Q.System, n: nat)
    requires Q.Sized(d, x) && n <= d.N()
    requires forall t, v | 0 <= t < d.N() && 0 <= v < d.N() :: x.qs[v].pc[t].Out?
    ensures Owed(d, x, n) == Times(Price(d), Left(d, x.a, n))
  {
    if n > 0 {
      InitOwed(d, x, n - 1);
      NothingDue(d, x, n - 1, d.N());
      TimesAdds(Price(d), Left(d, x.a, n - 1), LeftOf(d, x.a, n - 1));
    }
  }

  // -------------------------------------------------------------------- runs

  /** The spurious wakeups of a run. */
  function Wakeups(acts: seq<Q.Act>): nat {
    if acts == [] then 0 else Wakeups(acts[..|acts| - 1]) + Wakes(acts[|acts| - 1])
  }

  /** What the acts so far and what is owed come to. */
  ghost predicate Paid(d: Dag, acts: seq<Q.Act>, x: Q.System) {
    && Q.Agree(d, x)
    && |acts| + Owed(d, x, d.N()) <= Times(Price(d), Work(d, d.N())) + 4 * Wakeups(acts)
  }

  ghost function PaidFrom(d: Dag): (seq<Q.Act>, Q.System) -> bool
    requires d.g.Sized()
  {
    (acts: seq<Q.Act>, x: Q.System) => Paid(d, acts, x)
  }

  lemma StepPaid(d: Dag, acts: seq<Q.Act>, x: Q.System, act: Q.Act)
    requires d.g.Sized() && Paid(d, acts, x) && Q.CanAct(d, x, act)
    ensures Paid(d, acts + [act], Q.Take(d, x, act))
  {
    ActPays(d, x, act);
    assert (acts + [act])[..|acts|] == acts;
  }

  lemma PaidFollows(d: Dag)
    requires d.Valid()
    ensures Runs.Follows(Q.Init(d), Q.Takes(d), PaidFrom(d))
  {
    InitShape(d);
    Q.InitAgrees(d);
    Q.InitSized(d);
    InitLeft(d, d.N());
    InitOwed(d, Q.Init(d), d.N());
    var p := PaidFrom(d);
    forall acts: seq<Q.Act>, x: Q.System, act: Q.Act, x': Q.System | Q.Takes(d)(x, act, x') && p(acts, x)
      ensures p(acts + [act], x')
    {
      StepPaid(d, acts, x, act);
    }
  }

  /** Every run of the threads, taken apart into mutex, condition-variable and
      memory steps, is bounded by the work to do and the spurious wakeups it holds;
      and where it can only go on by another of these, all iterations are done. */
  lemma RunsAreBounded(d: Dag, acts: seq<Q.Act>, x: Q.System)
    requires d.Valid() && Runs.Leads(Q.Init(d), Q.Takes(d), acts, x)
    ensures |acts| <= Times(Price(d), Work(d, d.N())) + 4 * Wakeups(acts)
    ensures Q.Sized(d, x)
    ensures (forall act :: !Q.Progress(d, x, act)) ==> Finished(d, x.a) && Q.AllOut(d, x)
  {
    PaidFollows(d);
    assert PaidFrom(d)(acts, x);
    OwedLow(d, x, d.N());
    assert Q.Boots(d)(Q.Init(d));
    Runs.LeadsIsReachable(Q.Boots(d), Q.Init(d), Q.Takes(d), acts, x);
    Q.AllDone(d, x);
  }
}
