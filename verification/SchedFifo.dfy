/** Whole-run order: the requests of a partition are granted slots, and begin
    service, in exactly the order in which they arrived. */
module SchedFifo {
  import opened FredState
  import opened SchedInv
  import opened SchedEvents
  import opened SchedMoves

  /** The requests of partition `p` in a history, in order. */
  function OnPart(ms: seq<Mark>, p: int): seq<nat> {
    if ms == [] then [] else (if ms[0].part == p then [ms[0].req] else []) + OnPart(ms[1..], p)
  }

  /** The requests of partition `p` in a queue, in order. */
  function OnQueue(s: State, q: seq<nat>, p: int): seq<nat> {
    if q == [] then [] else (if PartOf(s, q[0]) == p then [q[0]] else []) + OnQueue(s, q[1..], p)
  }

  lemma {:induction false} OnPartAppend(ms: seq<Mark>, m: Mark, p: int)
    ensures OnPart(ms + [m], p) == OnPart(ms, p) + (if m.part == p then [m.req] else [])
  {
    if ms != [] {
      OnPartAppend(ms[1..], m, p);
      assert (ms + [m])[1..] == ms[1..] + [m];
    }
  }

  lemma OnQueueHead(s: State, r: nat, q: seq<nat>, p: int)
    ensures OnQueue(s, [r] + q, p) == OnQueue(s, [r], p) + OnQueue(s, q, p)
  {
    assert ([r] + q)[1..] == q && [r][1..] == [];
    assert OnQueue(s, [r], p) == (if PartOf(s, r) == p then [r] else []) + [];
  }

  lemma Assoc(a: seq<nat>, b: seq<nat>, c: seq<nat>)
    ensures a + (b + c) == (a + b) + c
  {
  }

  lemma {:induction false} OnQueueConcat(s: State, a: seq<nat>, b: seq<nat>, p: int)
    ensures OnQueue(s, a + b, p) == OnQueue(s, a, p) + OnQueue(s, b, p)
  {
    if a == [] {
      assert a + b == b;
    } else {
      OnQueueConcat(s, a[1..], b, p);
      assert a + b == [a[0]] + (a[1..] + b) && a == [a[0]] + a[1..];
      OnQueueHead(s, a[0], a[1..] + b, p);
      OnQueueHead(s, a[0], a[1..], p);
      Assoc(OnQueue(s, [a[0]], p), OnQueue(s, a[1..], p), OnQueue(s, b, p));
    }
  }

  lemma {:induction false} OnQueueFrame(s: State, s': State, q: seq<nat>, p: int)
    requires forall k | 0 <= k < |q| :: PartOf(s', q[k]) == PartOf(s, q[k])
    ensures OnQueue(s', q, p) == OnQueue(s, q, p)
  {
    if q != [] {
      assert forall k | 0 <= k < |q[1..]| :: q[1..][k] == q[k + 1];
      OnQueueFrame(s, s', q[1..], p);
    }
  }

  lemma {:induction false} OnQueueNone(s: State, q: seq<nat>, p: int)
    requires forall k | 0 <= k < |q| :: PartOf(s, q[k]) != p
    ensures OnQueue(s, q, p) == []
  {
    if q != [] {
      assert forall k | 0 <= k < |q[1..]| :: q[1..][k] == q[k + 1];
      OnQueueNone(s, q[1..], p);
    }
  }

  // -------------------------------------------------------------- invariant

  /** Arrivals of a partition are its grants followed by those still waiting for
      a slot; `gap` waits for a slot but has left the queue of `gapPart`. */
  ghost predicate GrantOrder(s: State, gap: seq<nat>, gapPart: int) {
    forall p | 0 <= p < |s.parts| ::
      OnPart(s.hist.arrivals, p) == OnPart(s.hist.grants, p) + (if p == gapPart then gap else []) + s.parts[p]
  }

  /** Grants of a partition are those already served followed by those still
      waiting for the port. */
  ghost predicate ServeOrder(s: State) {
    forall p | 0 <= p < |s.parts| ::
      OnPart(s.hist.grants, p) == OnPart(s.hist.serves, p) + OnQueue(s, s.fri, p)
  }

  ghost predicate Fifo(s: State) {
    GrantOrder(s, [], -1) && ServeOrder(s)
  }

  lemma FifoReads(s: State, p: nat)
    requires Fifo(s) && p < |s.parts|
    ensures OnPart(s.hist.arrivals, p) == OnPart(s.hist.serves, p) + OnQueue(s, s.fri, p) + s.parts[p]
    ensures OnPart(s.hist.grants, p) == OnPart(s.hist.serves, p) + OnQueue(s, s.fri, p)
  {
    var g := OnPart(s.hist.grants, p);
    assert OnPart(s.hist.arrivals, p) == g + [] + s.parts[p];
    assert g + [] == g;
  }

  // ------------------------------------------------------------------ moves

  /** Equal queues of equally bound requests keep ServeOrder. */
  lemma ServeOrderFrame(s: State, s': State)
    requires ServeOrder(s) && |s'.parts| == |s.parts|
    requires s'.fri == s.fri && s'.hist.grants == s.hist.grants && s'.hist.serves == s.hist.serves
    requires forall k | 0 <= k < |s.fri| :: PartOf(s', s.fri[k]) == PartOf(s, s.fri[k])
    ensures ServeOrder(s')
  {
    forall p | 0 <= p < |s'.parts|
      ensures OnPart(s'.hist.grants, p) == OnPart(s'.hist.serves, p) + OnQueue(s', s'.fri, p)
    {
      OnQueueFrame(s, s', s.fri, p);
    }
  }

  lemma ServeFifo(s: State)
    requires Shape(s) && |s.fri| > 0 && Fifo(s)
    ensures Fifo(ServeHead(s))
  {
    var s' := ServeHead(s);
    var r := s.fri[0];
    assert s'.hist == s.hist.(serves := s.hist.serves + [MarkOf(s, r)], starts := s'.hist.starts, loads := s'.hist.loads);
    assert s'.parts == s.parts && s'.reqs == s.reqs && s'.lay == s.lay;
    forall x ensures PartOf(s', x) == PartOf(s, x) {}
    forall p | 0 <= p < |s'.parts|
      ensures OnPart(s'.hist.grants, p) == OnPart(s'.hist.serves, p) + OnQueue(s', s'.fri, p)
    {
      OnPartAppend(s.hist.serves, MarkOf(s, r), p);
      OnQueueFrame(s, s', s.fri[1..], p);
    }
  }

  /** Requests queued behind the insertion point belong to other partitions. */
  lemma LaterOnesAreOthers(s: State, r: nat, n: nat)
    requires Shape(s) && r < |s.reqs| && n <= |s.fri| && InTurn(s, r) && FriSorted(s)
    requires n < |s.fri| ==> s.reqs[s.fri[n]].ts > s.reqs[r].ts
    ensures OnQueue(s, s.fri[n..], PartOf(s, r)) == []
  {
    forall k | 0 <= k < |s.fri[n..]| ensures PartOf(s, s.fri[n..][k]) != PartOf(s, r) {
      assert s.fri[n..][k] == s.fri[n + k];
      assert s.reqs[s.fri[n]].ts <= s.reqs[s.fri[n + k]].ts;
    }
    OnQueueNone(s, s.fri[n..], PartOf(s, r));
  }

  /** A request inserted ahead of other partitions' requests is the last of its
      own. */
  lemma OnQueueInsert(s: State, q: seq<nat>, n: nat, r: nat, p: int)
    requires n <= |q| && OnQueue(s, q[n..], PartOf(s, r)) == []
    ensures OnQueue(s, q[..n] + [r] + q[n..], p) == OnQueue(s, q, p) + (if PartOf(s, r) == p then [r] else [])
  {
    var a, b := q[..n], q[n..];
    assert q == a + b;
    OnQueueConcat(s, a + [r], b, p);
    OnQueueConcat(s, a, [r], p);
    OnQueueConcat(s, a, b, p);
  }

  lemma GrantRecords(s: State, r: nat, i: nat, skip: bool)
    requires Shape(s) && r < |s.reqs| && i < |s.slots|
    ensures var s' := Grant(s, r, i, skip);
            && s'.hist == s.hist.(grants := s.hist.grants + [MarkOf(s, r)]) && s'.parts == s.parts
            && (forall x :: PartOf(s', x) == PartOf(s, x))
  {}

  /** The queue of one partition grows by the granted request, at its end. */
  lemma GrantQueued(s: State, r: nat, i: nat, skip: bool, p: int)
    requires Shape(s) && Nowhere(s, r) && MayGrant(s, r, i, skip) && InTurn(s, r) && FriSorted(s)
    ensures var s' := Grant(s, r, i, skip);
            OnQueue(s', s'.fri, p) == OnQueue(s, s.fri, p) + (if PartOf(s, r) == p then [r] else [])
  {
    var n := IsGranted(s, r, i, skip);
    var s' := Grant(s, r, i, skip);
    GrantRecords(s, r, i, skip);
    OnQueueFrame(s, s', s'.fri, p);
    LaterOnesAreOthers(s, r, n);
    OnQueueInsert(s, s.fri, n, r, p);
  }

  lemma GrantServes(s: State, r: nat, i: nat, skip: bool)
    requires Shape(s) && Nowhere(s, r) && MayGrant(s, r, i, skip) && InTurn(s, r) && ServeOrder(s) && FriSorted(s)
    ensures ServeOrder(Grant(s, r, i, skip))
  {
    var s' := Grant(s, r, i, skip);
    GrantRecords(s, r, i, skip);
    forall p | 0 <= p < |s'.parts|
      ensures OnPart(s'.hist.grants, p) == OnPart(s'.hist.serves, p) + OnQueue(s', s'.fri, p)
    {
      OnPartAppend(s.hist.grants, MarkOf(s, r), p);
      GrantQueued(s, r, i, skip, p);
    }
  }

  /** The grant closes the gap left by the request that was in turn. */
  lemma GrantCloses(s: State, r: nat, i: nat, skip: bool)
    requires Shape(s) && r < |s.reqs| && i < |s.slots| && GrantOrder(s, [r], PartOf(s, r))
    ensures GrantOrder(Grant(s, r, i, skip), [], -1)
  {
    var s' := Grant(s, r, i, skip);
    forall p | 0 <= p < |s'.parts|
      ensures OnPart(s'.hist.arrivals, p) == OnPart(s'.hist.grants, p) + [] + s'.parts[p]
    {
      OnPartAppend(s.hist.grants, MarkOf(s, r), p);
    }
  }

  /** An arrival is the last of its partition. */
  lemma ArrivedLast(s: State, r: nat, task: nat, now: int)
    requires Shape(s) && Fifo(s) && r < |s.reqs| && Nowhere(s, r)
    ensures var s' := Arrived(s, r, task, now);
            ServeOrder(s') && (forall p | 0 <= p < |s.parts| ::
              OnPart(s'.hist.arrivals, p)
              == OnPart(s'.hist.grants, p) + s'.parts[p] + (if p == PartOf(s', r) then [r] else []))
  {
    var s' := Arrived(s, r, task, now);
    ServeOrderFrame(s, s');
    forall p | 0 <= p < |s.parts|
      ensures OnPart(s'.hist.arrivals, p)
              == OnPart(s'.hist.grants, p) + s'.parts[p] + (if p == PartOf(s', r) then [r] else [])
    {
      OnPartAppend(s.hist.arrivals, MarkOf(s', r), p);
    }
  }

  lemma FinishFifo(s: State)
    requires Shape(s) && s.devcfg.Some? && Fifo(s)
    ensures Fifo(Finished(s))
  {
    ServeOrderFrame(s, Finished(s));
  }

  lemma FreeFifo(s: State, i: nat, msg: Message)
    requires Shape(s) && i < |s.slots| && s.slots[i].execReq.Some? && Fifo(s)
    ensures Fifo(Release(s, i, msg))
  {
    ServeOrderFrame(s, Release(s, i, msg));
  }

  lemma JoinFifo(s: State, r: nat, p: nat)
    requires p < |s.parts| && r < |s.reqs| && PartOf(s, r) == p && ServeOrder(s)
    requires forall q | 0 <= q < |s.parts| ::
               OnPart(s.hist.arrivals, q)
               == OnPart(s.hist.grants, q) + s.parts[q] + (if q == PartOf(s, r) then [r] else [])
    ensures Fifo(Join(s, r, p))
  {
    ServeOrderFrame(s, Join(s, r, p));
    forall q | 0 <= q < |s.parts|
      ensures OnPart(s.hist.arrivals, q) == OnPart(s.hist.grants, q) + [] + Join(s, r, p).parts[q]
    {
      Assoc(OnPart(s.hist.grants, q), s.parts[q], if q == p then [r] else []);
    }
  }

  lemma EnqueueFifo(s: State, r: nat, task: nat, now: int)
    requires Shape(s) && s.lay.Valid() && CanMove(s, Enqueue(r, task, now)) && Fifo(s)
    ensures Fifo(Do(s, Enqueue(r, task, now)))
  {
    ArrivedLast(s, r, task, now);
    JoinFifo(Arrived(s, r, task, now), r, s.lay.taskPart[task]);
  }

  lemma AdmitFifo(s: State, r: nat, task: nat, now: int, i: nat, skip: bool)
    requires Core(s) && CanMove(s, Admit(r, task, now, i, skip)) && Fifo(s)
    ensures Fifo(Do(s, Admit(r, task, now, i, skip)))
  {
    AdmitReady(s, r, task, now, i, skip);
    ArrivedLast(s, r, task, now);
    NewcomerFifo(Arrived(s, r, task, now), r, i, skip);
  }

  /** A newcomer to an empty queue is granted in order. */
  lemma NewcomerFifo(s: State, r: nat, i: nat, skip: bool)
    requires Shape(s) && FriSorted(s) && Nowhere(s, r) && MayGrant(s, r, i, skip) && InTurn(s, r) && ServeOrder(s)
    requires forall p | 0 <= p < |s.parts| ::
               OnPart(s.hist.arrivals, p)
               == OnPart(s.hist.grants, p) + s.parts[p] + (if p == PartOf(s, r) then [r] else [])
    requires forall p | 0 <= p < |s.parts| && p == PartOf(s, r) :: s.parts[p] == []
    ensures Fifo(Grant(s, r, i, skip))
  {
    GapOfNewcomer(s, r);
    GrantServes(s, r, i, skip);
    GrantCloses(s, r, i, skip);
  }

  /** A newcomer to an empty queue is the gap. */
  lemma GapOfNewcomer(s: State, r: nat)
    requires forall p | 0 <= p < |s.parts| ::
               OnPart(s.hist.arrivals, p)
               == OnPart(s.hist.grants, p) + s.parts[p] + (if p == PartOf(s, r) then [r] else [])
    requires forall p | 0 <= p < |s.parts| && p == PartOf(s, r) :: s.parts[p] == []
    ensures GrantOrder(s, [r], PartOf(s, r))
  {}

  lemma DequeueFifo(s: State, p: nat)
    requires Shape(s) && p < |s.parts| && |s.parts[p]| > 0 && Fifo(s)
    ensures ServeOrder(Dequeue(s, p)) && GrantOrder(Dequeue(s, p), [s.parts[p][0]], p)
  {
    ServeOrderFrame(s, Dequeue(s, p));
    DequeueGap(s, p);
  }

  lemma HeadFirst(g: seq<nat>, q: seq<nat>)
    requires q != []
    ensures g + [] + q == g + [q[0]] + q[1..]
  {
  }

  /** The request that has left its queue is the gap before it. */
  lemma DequeueGap(s: State, p: nat)
    requires p < |s.parts| && |s.parts[p]| > 0 && GrantOrder(s, [], -1)
    ensures GrantOrder(Dequeue(s, p), [s.parts[p][0]], p)
  {
    var s' := Dequeue(s, p);
    forall x | 0 <= x < |s'.parts|
      ensures OnPart(s'.hist.arrivals, x)
              == OnPart(s'.hist.grants, x) + (if x == p then [s.parts[p][0]] else []) + s'.parts[x]
    {
      assert OnPart(s.hist.arrivals, x) == OnPart(s.hist.grants, x) + [] + s.parts[x];
      if x == p {
        HeadFirst(OnPart(s.hist.grants, p), s.parts[p]);
      }
    }
  }

  lemma AdvanceFifo(s: State, i: nat)
    requires Core(s) && CanMove(s, Advance(i)) && Fifo(s)
    ensures Fifo(Do(s, Advance(i)))
  {
    var p := s.lay.slotPart[i];
    var r := s.parts[p][0];
    AdvanceReady(s, i);
    DequeueFifo(s, p);
    GrantServes(Dequeue(s, p), r, i, false);
    GrantCloses(Dequeue(s, p), r, i, false);
  }

  lemma MoveFifo(s: State, m: Move)
    requires Core(s) && CanMove(s, m) && Fifo(s)
    ensures Fifo(Do(s, m))
  {
    match m
    case Enqueue(r, task, now) => EnqueueFifo(s, r, task, now);
    case Admit(r, task, now, i, skip) => AdmitFifo(s, r, task, now, i, skip);
    case Advance(i) => AdvanceFifo(s, i);
    case Serve => ServeFifo(s);
    case Finish => FinishFifo(s);
    case Free(i, msg) => FreeFifo(s, i, msg);
  }
}
