/** Runs of a transition system. What they lead to is defined as the smallest set,
    or relation, that has the start and is closed under one more step. */
module Runs {

  /** A set of states that holds every start state and is closed under steps. */
  ghost predicate Closed<S(!new), E(!new)>(boots: S -> bool, takes: (S, E, S) -> bool, p: S -> bool) {
    && (forall s: S | boots(s) :: p(s))
    && (forall s: S, e: E, s': S | takes(s, e, s') && p(s) :: p(s'))
  }

  /** Some run from a start state leads to `s`. */
  ghost predicate Reachable<S(!new), E(!new)>(boots: S -> bool, takes: (S, E, S) -> bool, s: S) {
    forall p: S -> bool | Closed(boots, takes, p) :: p(s)
  }

  /** A relation between the labels of runs from `s0` and the states they lead to. */
  ghost predicate Follows<S(!new), E(!new)>(s0: S, takes: (S, E, S) -> bool, p: (seq<E>, S) -> bool) {
    && p([], s0)
    && (forall es: seq<E>, s: S, e: E, s': S | takes(s, e, s') && p(es, s) :: p(es + [e], s'))
  }

  /** The steps labelled `es` lead from `s0` to `s`. */
  ghost predicate Leads<S(!new), E(!new)>(s0: S, takes: (S, E, S) -> bool, es: seq<E>, s: S) {
    forall p: (seq<E>, S) -> bool | Follows(s0, takes, p) :: p(es, s)
  }

  lemma BootIsReachable<S(!new), E(!new)>(boots: S -> bool, takes: (S, E, S) -> bool, s: S)
    requires boots(s)
    ensures Reachable(boots, takes, s)
  {
  }

  lemma StepIsReachable<S(!new), E(!new)>(boots: S -> bool, takes: (S, E, S) -> bool, s: S, e: E, s': S)
    requires Reachable(boots, takes, s) && takes(s, e, s')
    ensures Reachable(boots, takes, s')
  {
    forall p: S -> bool | Closed(boots, takes, p) ensures p(s') {
      assert p(s);
    }
  }

  lemma LeadsStart<S(!new), E(!new)>(s0: S, takes: (S, E, S) -> bool)
    ensures Leads(s0, takes, [], s0)
  {
  }

  lemma LeadsOn<S(!new), E(!new)>(s0: S, takes: (S, E, S) -> bool, es: seq<E>, s: S, e: E, s': S)
    requires Leads(s0, takes, es, s) && takes(s, e, s')
    ensures Leads(s0, takes, es + [e], s')
  {
    forall p: (seq<E>, S) -> bool | Follows(s0, takes, p) ensures p(es + [e], s') {
      assert p(es, s);
    }
  }

  /** What a run from a start state leads to is reachable. */
  lemma LeadsIsReachable<S(!new), E(!new)>(boots: S -> bool, s0: S, takes: (S, E, S) -> bool, es: seq<E>, s: S)
    requires boots(s0) && Leads(s0, takes, es, s)
    ensures Reachable(boots, takes, s)
  {
    forall p: S -> bool | Closed(boots, takes, p) ensures p(s) {
      var q: (seq<E>, S) -> bool := (_, s1: S) => p(s1);
      assert q(es, s);
    }
  }

  /** `ss` are the states of a run whose steps are labelled `es`. */
  ghost predicate Trace<S(!new), E(!new)>(takes: (S, E, S) -> bool, ss: seq<S>, es: seq<E>) {
    |ss| == |es| + 1 && forall k | 0 <= k < |es| :: takes(ss[k], es[k], ss[k + 1])
  }

  ghost predicate TraceTo<S(!new), E(!new)>(s0: S, takes: (S, E, S) -> bool, ss: seq<S>, es: seq<E>, s: S) {
    Trace(takes, ss, es) && ss[0] == s0 && ss[|es|] == s
  }

  ghost predicate Traced<S(!new), E(!new)>(s0: S, takes: (S, E, S) -> bool, es: seq<E>, s: S) {
    exists ss: seq<S> :: TraceTo(s0, takes, ss, es, s)
  }

  lemma TraceOn<S(!new), E(!new)>(s0: S, takes: (S, E, S) -> bool, ss: seq<S>, es: seq<E>, s: S, e: E, s': S)
    requires TraceTo(s0, takes, ss, es, s) && takes(s, e, s')
    ensures TraceTo(s0, takes, ss + [s'], es + [e], s')
  {
    var ss', es' := ss + [s'], es + [e];
    forall k | 0 <= k < |es'| ensures takes(ss'[k], es'[k], ss'[k + 1]) {
      if k < |es| {
        assert takes(ss[k], es[k], ss[k + 1]);
      }
    }
  }

  lemma TracedFollows<S(!new), E(!new)>(s0: S, takes: (S, E, S) -> bool, p: (seq<E>, S) -> bool)
    requires forall es: seq<E>, s: S :: p(es, s) <==> Traced(s0, takes, es, s)
    ensures Follows(s0, takes, p)
  {
    assert TraceTo(s0, takes, [s0], [], s0);
    forall es: seq<E>, s: S, e: E, s': S | takes(s, e, s') && p(es, s) ensures p(es + [e], s') {
      var ss: seq<S> :| TraceTo(s0, takes, ss, es, s);
      TraceOn(s0, takes, ss, es, s, e, s');
    }
  }

  /** Every run goes through states. */
  lemma LeadsTraced<S(!new), E(!new)>(s0: S, takes: (S, E, S) -> bool, es: seq<E>, s: S) returns (ss: seq<S>)
    requires Leads(s0, takes, es, s)
    ensures TraceTo(s0, takes, ss, es, s)
  {
    var p: (seq<E>, S) -> bool := (es1: seq<E>, s1: S) => Traced(s0, takes, es1, s1);
    TracedFollows(s0, takes, p);
    assert p(es, s);
    ss :| TraceTo(s0, takes, ss, es, s);
  }

  /** A trace up to its last step. */
  lemma TracePrefix<S(!new), E(!new)>(takes: (S, E, S) -> bool, ss: seq<S>, es: seq<E>)
    requires Trace(takes, ss, es) && es != []
    ensures Trace(takes, ss[..|es|], es[..|es| - 1]) && takes(ss[|es| - 1], es[|es| - 1], ss[|es|])
  {
    forall k | 0 <= k < |es| - 1 ensures takes(ss[..|es|][k], es[..|es| - 1][k], ss[..|es|][k + 1]) {
      assert takes(ss[k], es[k], ss[k + 1]);
    }
  }
}
