/** What the history of every run says: no request is lost, duplicated or
    notified twice, and a slot only ever executes what it is configured with. */
module SchedHistory {
  import opened Wrappers
  import opened FredState
  import opened SchedInv
  import opened SchedEvents
  import opened SchedMoves
  import opened SchedFifo

  // ------------------------------------------------------- counting requests

  function Arrivals(ms: seq<Mark>, r: nat): nat {
    if ms == [] then 0 else Arrivals(ms[..|ms| - 1], r) + (if ms[|ms| - 1].req == r then 1 else 0)
  }

  function Notices(ns: seq<Notice>, r: nat): nat {
    if ns == [] then 0 else Notices(ns[..|ns| - 1], r) + (if ns[|ns| - 1].req == r then 1 else 0)
  }

  lemma ArrivalsAppend(ms: seq<Mark>, m: Mark, r: nat)
    ensures Arrivals(ms + [m], r) == Arrivals(ms, r) + (if m.req == r then 1 else 0)
  {
    assert (ms + [m])[..|ms|] == ms;
  }

  lemma NoticesAppend(ns: seq<Notice>, n: Notice, r: nat)
    ensures Notices(ns + [n], r) == Notices(ns, r) + (if n.req == r then 1 else 0)
  {
    assert (ns + [n])[..|ns|] == ns;
  }

  /** Each request has been notified as often as pushed, but for the one push it
      may be live for. */
  ghost predicate Conserved(s: State) {
    forall r | 0 <= r < |s.reqs| ::
      Arrivals(s.hist.arrivals, r) == Notices(s.hist.notices, r) + (if Nowhere(s, r) then 0 else 1)
  }

  // ----------------------------------------------------- where requests move

  lemma GrantedMovesOne(s: State, s': State, r: nat, i: nat, skip: bool, n: nat, x: nat)
    requires Nowhere(s, r) && Granted(s, s', r, i, skip, n) && s.slots[i].Available()
    ensures Nowhere(s', x) <==> x != r && Nowhere(s, x)
  {
    if Nowhere(s', x) {
      assert s'.fri[n] != x;
      forall k | 0 <= k < |s.fri| ensures s.fri[k] != x {
        GrantedForth(s, s', r, i, skip, n, k);
      }
      forall j | 0 <= j < |s.slots| && s.slots[j].state == Exec ensures s.slots[j].execReq != Some(x) {
        assert s'.slots[j] == s.slots[j];
      }
    }
    if x != r && Nowhere(s, x) {
      forall k: nat | k < |s'.fri| ensures s'.fri[k] != x {
        assert k != n ==> s'.fri[k] == s.fri[Back(n, k)];
      }
    }
  }

  lemma GrantMovesOne(s: State, r: nat, i: nat, skip: bool, x: nat)
    requires Shape(s) && Nowhere(s, r) && MayGrant(s, r, i, skip)
    ensures Nowhere(Grant(s, r, i, skip), x) <==> x != r && Nowhere(s, x)
  {
    var n := IsGranted(s, r, i, skip);
    GrantedMovesOne(s, Grant(s, r, i, skip), r, i, skip, n, x);
  }

  lemma ArriveMovesNone(s: State, r: nat, task: nat, now: int, x: nat)
    requires Shape(s) && r < |s.reqs| && Nowhere(s, r)
    ensures Nowhere(Arrived(s, r, task, now), x) <==> Nowhere(s, x)
  {}

  lemma JoinMovesOne(s: State, r: nat, p: nat, x: nat)
    requires r < |s.reqs| && p < |s.parts| && Nowhere(s, r)
    ensures Nowhere(Join(s, r, p), x) <==> x != r && Nowhere(s, x)
  {
    var s' := Join(s, r, p);
    assert s'.parts[p][|s.parts[p]|] == r;
    if Nowhere(s', x) {
      forall q, k | 0 <= q < |s.parts| && 0 <= k < |s.parts[q]| ensures s.parts[q][k] != x {
        assert s'.parts[q][k] == s.parts[q][k];
      }
    }
  }

  lemma DequeueMovesOne(s: State, p: nat, x: nat)
    requires Shape(s) && p < |s.parts| && |s.parts[p]| > 0
    requires x != s.parts[p][0]
    ensures Nowhere(Dequeue(s, p), x) <==> Nowhere(s, x)
  {
    var s' := Dequeue(s, p);
    if Nowhere(s', x) {
      forall q, k | 0 <= q < |s.parts| && 0 <= k < |s.parts[q]| ensures s.parts[q][k] != x {
        if q != p {
          assert s'.parts[q][k] == s.parts[q][k];
        } else if k > 0 {
          assert s'.parts[p][k - 1] == s.parts[p][k];
        }
      }
    }
  }

  lemma AdvanceMovesNone(s: State, i: nat, x: nat)
    requires Core(s) && CanMove(s, Advance(i))
    ensures Nowhere(Do(s, Advance(i)), x) <==> Nowhere(s, x)
  {
    var p := s.lay.slotPart[i];
    var r := s.parts[p][0];
    AdvanceReady(s, i);
    GrantMovesOne(Dequeue(s, p), r, i, false, x);
    if x != r {
      DequeueMovesOne(s, p, x);
    }
  }

  lemma ServeMovesNone(s: State, x: nat)
    requires Shape(s) && FriOwns(s) && s.devcfg.None? && |s.fri| > 0
    ensures Nowhere(ServeHead(s), x) <==> Nowhere(s, x)
  {
    var s' := ServeHead(s);
    var r := s.fri[0];
    var i := s.reqs[r].slot.value;
    assert forall k | 0 <= k < |s'.fri| :: s'.fri[k] == s.fri[k + 1];
    assert s'.devcfg == Some(r) || (s'.slots[i].state == Exec && s'.slots[i].execReq == Some(r));
    if Nowhere(s', x) {
      forall k | 0 <= k < |s.fri| ensures s.fri[k] != x {
        if k > 0 { assert s'.fri[k - 1] == s.fri[k]; }
      }
      forall j | 0 <= j < |s.slots| && s.slots[j].state == Exec ensures s.slots[j].execReq != Some(x) {
        assert s'.slots[j] == s.slots[j];
      }
    }
  }

  lemma FinishMovesNone(s: State, x: nat)
    requires Shape(s) && PortOwns(s) && s.devcfg.Some?
    ensures Nowhere(Finished(s), x) <==> Nowhere(s, x)
  {
    var s' := Finished(s);
    var i := s.reqs[s.devcfg.value].slot.value;
    assert s'.slots[i].state == Exec && s'.slots[i].execReq == s.devcfg;
    if Nowhere(s', x) {
      forall j | 0 <= j < |s.slots| && s.slots[j].state == Exec ensures s.slots[j].execReq != Some(x) {
        assert s'.slots[j] == s.slots[j];
      }
    }
  }

  lemma FreeMovesOne(s: State, i: nat, msg: Message, x: nat)
    requires Core(s) && i < |s.slots| && s.slots[i].state == Exec
    ensures s.slots[i].execReq.Some?
    ensures Nowhere(Release(s, i, msg), x) <==> s.slots[i].execReq == Some(x) || Nowhere(s, x)
  {
    var s' := Release(s, i, msg);
    if Nowhere(s', x) && s.slots[i].execReq != Some(x) {
      forall j | 0 <= j < |s.slots| && s.slots[j].state == Exec ensures s.slots[j].execReq != Some(x) {
        if j != i { assert s'.slots[j] == s.slots[j]; }
      }
    }
    if s.slots[i].execReq == Some(x) {
      OnlyThere(s, i);
    }
  }

  // ------------------------------------------------------------ conservation

  /** One arrival more, and that request is now live. */
  lemma PushConserves(s: State, s': State, r: nat)
    requires Conserved(s) && |s'.reqs| == |s.reqs| && r < |s.reqs| && Nowhere(s, r)
    requires |s'.hist.arrivals| > 0 && s'.hist.arrivals[|s'.hist.arrivals| - 1].req == r
    requires s'.hist.arrivals[..|s'.hist.arrivals| - 1] == s.hist.arrivals && s'.hist.notices == s.hist.notices
    requires forall x: nat | x < |s.reqs| :: Nowhere(s', x) <==> x != r && Nowhere(s, x)
    ensures Conserved(s')
  {}

  lemma SameConserves(s: State, s': State)
    requires Conserved(s) && |s'.reqs| == |s.reqs|
    requires s'.hist.arrivals == s.hist.arrivals && s'.hist.notices == s.hist.notices
    requires forall x: nat | x < |s.reqs| :: Nowhere(s', x) <==> Nowhere(s, x)
    ensures Conserved(s')
  {}

  lemma EnqueueConserves(s: State, r: nat, task: nat, now: int)
    requires Shape(s) && s.lay.Valid() && CanMove(s, Enqueue(r, task, now)) && Conserved(s)
    ensures Conserved(Do(s, Enqueue(r, task, now)))
  {
    var s1 := Arrived(s, r, task, now);
    var s' := Do(s, Enqueue(r, task, now));
    forall x: nat | x < |s.reqs| ensures Nowhere(s', x) <==> x != r && Nowhere(s, x) {
      ArriveMovesNone(s, r, task, now, x);
      ArriveMovesNone(s, r, task, now, r);
      JoinMovesOne(s1, r, s.lay.taskPart[task], x);
    }
    PushConserves(s, s', r);
  }

  lemma AdmitConserves(s: State, r: nat, task: nat, now: int, i: nat, skip: bool)
    requires Core(s) && CanMove(s, Admit(r, task, now, i, skip)) && Conserved(s)
    ensures Conserved(Do(s, Admit(r, task, now, i, skip)))
  {
    AdmitReady(s, r, task, now, i, skip);
    var s1 := Arrived(s, r, task, now);
    var s' := Grant(s1, r, i, skip);
    forall x: nat | x < |s.reqs| ensures Nowhere(s', x) <==> x != r && Nowhere(s, x) {
      ArriveMovesNone(s, r, task, now, x);
      GrantMovesOne(s1, r, i, skip, x);
    }
    PushConserves(s, s', r);
  }

  lemma FreeConserves(s: State, i: nat, msg: Message)
    requires Core(s) && CanMove(s, Free(i, msg)) && Conserved(s)
    ensures Conserved(Release(s, i, msg))
  {
    var s' := Release(s, i, msg);
    var r := s.slots[i].execReq.value;
    forall x: nat | x < |s'.reqs|
      ensures Arrivals(s'.hist.arrivals, x) == Notices(s'.hist.notices, x) + (if Nowhere(s', x) then 0 else 1)
    {
      NoticesAppend(s.hist.notices, Notice(r, msg), x);
      FreeMovesOne(s, i, msg, x);
      assert x == r ==> !Nowhere(s, x);
    }
  }

  lemma MoveConserves(s: State, m: Move)
    requires Core(s) && CanMove(s, m) && Conserved(s)
    ensures Conserved(Do(s, m))
  {
    match m
    case Enqueue(r, task, now) => EnqueueConserves(s, r, task, now);
    case Admit(r, task, now, i, skip) => AdmitConserves(s, r, task, now, i, skip);
    case Advance(i) =>
      forall x: nat | x < |s.reqs| ensures Nowhere(Do(s, m), x) <==> Nowhere(s, x) { AdvanceMovesNone(s, i, x); }
      SameConserves(s, Do(s, m));
    case Serve =>
      forall x: nat | x < |s.reqs| ensures Nowhere(Do(s, m), x) <==> Nowhere(s, x) { ServeMovesNone(s, x); }
      SameConserves(s, Do(s, m));
    case Finish =>
      forall x: nat | x < |s.reqs| ensures Nowhere(Do(s, m), x) <==> Nowhere(s, x) { FinishMovesNone(s, x); }
      SameConserves(s, Do(s, m));
    case Free(i, msg) => FreeConserves(s, i, msg);
  }

  // --------------------------------------------------------- right bitstream

  /** Every execution started on a slot configured with the hw-task its request
      asked for. */
  ghost predicate RightStarts(s: State) {
    forall k | 0 <= k < |s.hist.starts| ::
      s.hist.starts[k].wanted.Some? && s.hist.starts[k].configured == s.hist.starts[k].wanted
  }

  lemma ServeRight(s: State)
    requires Shape(s) && s.lay.Valid() && FriOwns(s) && |s.fri| > 0 && RightStarts(s)
    ensures RightStarts(ServeHead(s))
  {
    var r := s.fri[0];
    assert PartOf(s, r) == s.lay.slotPart[s.reqs[r].slot.value] >= 0;
  }

  lemma FinishRight(s: State)
    requires Shape(s) && s.lay.Valid() && PortOwns(s) && s.devcfg.Some? && RightStarts(s)
    ensures RightStarts(Finished(s))
  {
    var r := s.devcfg.value;
    assert PartOf(s, r) == s.lay.slotPart[s.reqs[r].slot.value] >= 0;
  }

  lemma MoveRight(s: State, m: Move)
    requires Core(s) && CanMove(s, m) && RightStarts(s)
    ensures RightStarts(Do(s, m))
  {
    match m
    case Serve => ServeRight(s);
    case Finish => FinishRight(s);
    case _ => assert Do(s, m).hist.starts == s.hist.starts;
  }
}
