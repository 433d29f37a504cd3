/** How the reconfiguration queue is served: what one service of the queue does
    exactly, and how many requests can overtake one that is waiting in it. */
module SchedTurns {
  import opened Wrappers
  import opened FredState
  import opened SchedInv
  import opened SchedEvents
  import opened SchedMoves

  // ------------------------------------------------------- exact drain result

  /** The number of leading requests that skip reconfiguration. */
  function Skips(s: State, q: seq<nat>): (n: nat)
    requires forall k | 0 <= k < |q| :: q[k] < |s.reqs|
    ensures n <= |q|
  {
    if q == [] || !s.reqs[q[0]].skip then 0 else 1 + Skips(s, q[1..])
  }

  /** The longest prefix of skipping requests is exactly what Skips counts. */
  lemma {:induction false} SkipsIsLongest(s: State, q: seq<nat>)
    requires forall k | 0 <= k < |q| :: q[k] < |s.reqs|
    ensures forall k | 0 <= k < Skips(s, q) :: s.reqs[q[k]].skip
    ensures Skips(s, q) < |q| ==> !s.reqs[q[Skips(s, q)]].skip
  {
    if q != [] && s.reqs[q[0]].skip {
      SkipsIsLongest(s, q[1..]);
      assert forall k | 0 < k < |q| :: q[k] == q[1..][k - 1];
    }
  }

  lemma {:induction false} SkipsFrame(s: State, s': State, q: seq<nat>)
    requires s'.reqs == s.reqs && forall k | 0 <= k < |q| :: q[k] < |s.reqs|
    ensures Skips(s', q) == Skips(s, q)
  {
    if q != [] {
      SkipsFrame(s, s', q[1..]);
    }
  }

  /** One service takes the first request; a skipping one starts executing. */
  lemma ServeOne(s: State)
    requires Shape(s) && FriDistinct(s) && |s.fri| > 0
    ensures var s' := ServeHead(s); var r := s.fri[0]; var i := s.reqs[r].slot.value;
            && s'.fri == s.fri[1..] && s'.reqs == s.reqs && s'.parts == s.parts && s'.lay == s.lay
            && |s'.slots| == |s.slots|
            && (forall j | 0 <= j < |s.slots| && j != i :: s'.slots[j] == s.slots[j])
            && (forall k | 0 < k < |s.fri| :: SlotOf(s, s.fri[k]) != i && SlotOf(s', s.fri[k]) == SlotOf(s, s.fri[k]))
            && s'.slots[i] == (if s.reqs[r].skip then s.slots[i].To(Exec).(execReq := Some(r))
                               else s.slots[i].To(Rcfg).(hwTask := s.reqs[r].task))
            && s'.devcfg == (if s.reqs[r].skip then s.devcfg else Some(r))
            && FriDistinct(s')
  {}

  /** Serving the queue of an idle port takes its longest prefix of skipping
      requests, then the first request that does not skip, which the port
      programs; with no such request the port stays idle. */
  lemma {:induction false} DrainTakes(s: State)
    requires Shape(s) && FriDistinct(s) && s.devcfg.None?
    ensures var s' := Drain(s); var n := Skips(s, s.fri);
            && (n == |s.fri| ==> s'.devcfg.None? && s'.fri == [])
            && (n < |s.fri| ==> s'.devcfg == Some(s.fri[n]) && s'.fri == s.fri[n + 1..])
            && |s'.slots| == |s.slots| && s'.reqs == s.reqs && s'.parts == s.parts && s'.lay == s.lay
    decreases |s.fri|
  {
    if |s.fri| > 0 {
      var s1 := ServeHead(s);
      ServeOne(s);
      if s.reqs[s.fri[0]].skip {
        DrainTakes(s1);
        SkipsFrame(s, s1, s1.fri);
      }
    }
  }

  /** The first `n` requests of a queue, the ones a service of it touches. */
  ghost predicate Touches(s: State, n: nat, i: int)
  {
    exists k :: 0 <= k <= n && k < |s.fri| && SlotOf(s, s.fri[k]) == i
  }

  lemma {:induction false} DrainSpares(s: State, i: nat)
    requires Shape(s) && FriDistinct(s) && s.devcfg.None? && i < |s.slots| && !Touches(s, Skips(s, s.fri), i)
    ensures i < |Drain(s).slots| && Drain(s).slots[i] == s.slots[i]
    decreases |s.fri|
  {
    if |s.fri| > 0 {
      var s1 := ServeHead(s);
      ServeOne(s);
      assert SlotOf(s, s.fri[0]) != i;
      if s.reqs[s.fri[0]].skip {
        SkipsFrame(s, s1, s1.fri);
        forall k | 0 <= k <= Skips(s1, s1.fri) && k < |s1.fri| ensures SlotOf(s1, s1.fri[k]) != i {
          assert s1.fri[k] == s.fri[k + 1] && SlotOf(s, s.fri[k + 1]) != i;
        }
        DrainSpares(s1, i);
      }
    }
  }

  /** Each skipping request of the prefix starts executing in its own slot. */
  lemma {:induction false} DrainStarts(s: State, k: nat)
    requires Shape(s) && FriDistinct(s) && s.devcfg.None? && k < Skips(s, s.fri)
    ensures var i := s.reqs[s.fri[k]].slot.value;
            && i < |Drain(s).slots|
            && Drain(s).slots[i] == s.slots[i].To(Exec).(execReq := Some(s.fri[k]))
    decreases |s.fri|
  {
    var s1 := ServeHead(s);
    var i := s.reqs[s.fri[k]].slot.value;
    ServeOne(s);
    SkipsFrame(s, s1, s1.fri);
    if k == 0 {
      forall j | 0 <= j <= Skips(s1, s1.fri) && j < |s1.fri| ensures SlotOf(s1, s1.fri[j]) != i {
        assert s1.fri[j] == s.fri[j + 1];
      }
      DrainSpares(s1, i);
    } else {
      assert s1.fri[k - 1] == s.fri[k] && SlotOf(s, s.fri[k]) != SlotOf(s, s.fri[0]);
      DrainStarts(s1, k - 1);
    }
  }

  /** The first request that does not skip is programmed into its slot. */
  lemma {:induction false} DrainPrograms(s: State)
    requires Shape(s) && FriDistinct(s) && s.devcfg.None? && Skips(s, s.fri) < |s.fri|
    ensures var r := s.fri[Skips(s, s.fri)]; var i := s.reqs[r].slot.value;
            && i < |Drain(s).slots|
            && Drain(s).slots[i] == s.slots[i].To(Rcfg).(hwTask := s.reqs[r].task)
    decreases |s.fri|
  {
    var s1 := ServeHead(s);
    ServeOne(s);
    if s.reqs[s.fri[0]].skip {
      SkipsFrame(s, s1, s1.fri);
      assert s1.fri[Skips(s1, s1.fri)] == s.fri[Skips(s, s.fri)];
      DrainPrograms(s1);
    }
  }

  // ------------------------------------------------------------- overtaking

  /** How many of the requests in `q` are stamped before `t`. */
  function Earlier(reqs: seq<ReqV>, q: seq<nat>, t: int): nat
    requires forall k | 0 <= k < |q| :: q[k] < |reqs|
  {
    if q == [] then 0 else (if reqs[q[0]].ts < t then 1 else 0) + Earlier(reqs, q[1..], t)
  }

  function EarlierIn(reqs: seq<ReqV>, qs: seq<seq<nat>>, t: int): nat
    requires forall p, k | 0 <= p < |qs| && 0 <= k < |qs[p]| :: qs[p][k] < |reqs|
  {
    if qs == [] then 0 else
      assert forall k | 0 <= k < |qs[0]| :: qs[0][k] < |reqs|;
      Earlier(reqs, qs[0], t) + EarlierIn(reqs, qs[1..], t)
  }

  /** The requests that may still go before the one at position `k` of the
      reconfiguration queue: those in front of it, and those stamped earlier that
      are waiting for a slot. */
  function Ahead(s: State, k: nat): nat
    requires Shape(s) && k < |s.fri|
  {
    k + EarlierIn(s.reqs, s.parts, s.reqs[s.fri[k]].ts)
  }

  lemma {:induction false} EarlierFrame(reqs: seq<ReqV>, reqs': seq<ReqV>, q: seq<nat>, t: int)
    requires forall k | 0 <= k < |q| :: q[k] < |reqs| && q[k] < |reqs'| && reqs'[q[k]].ts == reqs[q[k]].ts
    ensures Earlier(reqs', q, t) == Earlier(reqs, q, t)
  {
    if q != [] {
      assert forall k | 0 <= k < |q[1..]| :: q[1..][k] == q[k + 1];
      EarlierFrame(reqs, reqs', q[1..], t);
    }
  }

  lemma {:induction false} EarlierInFrame(reqs: seq<ReqV>, reqs': seq<ReqV>, qs: seq<seq<nat>>, t: int)
    requires forall p, k | 0 <= p < |qs| && 0 <= k < |qs[p]| ::
               qs[p][k] < |reqs| && qs[p][k] < |reqs'| && reqs'[qs[p][k]].ts == reqs[qs[p][k]].ts
    ensures EarlierIn(reqs', qs, t) == EarlierIn(reqs, qs, t)
  {
    if qs != [] {
      assert forall k | 0 <= k < |qs[0]| :: qs[0][k] < |reqs|;
      EarlierFrame(reqs, reqs', qs[0], t);
      assert forall p | 0 <= p < |qs[1..]| :: qs[1..][p] == qs[p + 1];
      EarlierInFrame(reqs, reqs', qs[1..], t);
    }
  }

  lemma {:induction false} EarlierInUpdate(reqs: seq<ReqV>, qs: seq<seq<nat>>, p: nat, q: seq<nat>, t: int)
    requires forall p, k | 0 <= p < |qs| && 0 <= k < |qs[p]| :: qs[p][k] < |reqs|
    requires p < |qs| && forall k | 0 <= k < |q| :: q[k] < |reqs|
    ensures forall k | 0 <= k < |qs[p]| :: qs[p][k] < |reqs|
    ensures var qs' := qs[p := q]; forall a, k | 0 <= a < |qs'| && 0 <= k < |qs'[a]| :: qs'[a][k] < |reqs|
    ensures EarlierIn(reqs, qs[p := q], t) == EarlierIn(reqs, qs, t) - Earlier(reqs, qs[p], t) + Earlier(reqs, q, t)
  {
    if p > 0 {
      assert qs[p := q][1..] == qs[1..][p - 1 := q];
      EarlierInUpdate(reqs, qs[1..], p - 1, q, t);
    } else {
      assert qs[p := q][1..] == qs[1..];
    }
  }

  lemma {:induction false} EarlierAppend(reqs: seq<ReqV>, q: seq<nat>, r: nat, t: int)
    requires forall k | 0 <= k < |q| :: q[k] < |reqs|
    requires r < |reqs|
    ensures Earlier(reqs, q + [r], t) == Earlier(reqs, q, t) + (if reqs[r].ts < t then 1 else 0)
  {
    if q != [] {
      EarlierAppend(reqs, q[1..], r, t);
      assert (q + [r])[1..] == q[1..] + [r];
    } else {
      assert ([] + [r])[1..] == [];
    }
  }

  /** Where the request at position `k` stands after an insertion. */
  lemma GrantShifts(s: State, r: nat, i: nat, skip: bool, k: nat) returns (k': nat)
    requires Shape(s) && FriSorted(s) && Nowhere(s, r) && MayGrant(s, r, i, skip) && k < |s.fri|
    ensures var s' := Grant(s, r, i, skip);
            && k' < |s'.fri| && s'.fri[k'] == s.fri[k] && s'.reqs[s.fri[k]] == s.reqs[s.fri[k]]
            && k' == k + (if s.reqs[r].ts < s.reqs[s.fri[k]].ts then 1 else 0)
  {
    var n := IsGranted(s, r, i, skip);
    k' := Forth(n, k);
    GrantedForth(s, Grant(s, r, i, skip), r, i, skip, n, k);
    if k < n {
      assert s.reqs[s.fri[k]].ts <= s.reqs[r].ts;
    } else {
      assert s.reqs[s.fri[n]].ts <= s.reqs[s.fri[k]].ts;
    }
  }

  lemma EarlierAfterGrant(s: State, r: nat, i: nat, skip: bool, t: int)
    requires Shape(s) && Nowhere(s, r) && MayGrant(s, r, i, skip)
    ensures EarlierIn(Grant(s, r, i, skip).reqs, Grant(s, r, i, skip).parts, t) == EarlierIn(s.reqs, s.parts, t)
  {
    var n := IsGranted(s, r, i, skip);
    EarlierInFrame(s.reqs, Grant(s, r, i, skip).reqs, s.parts, t);
  }

  /** Nothing but service changes how many may go before a waiting request, and
      service takes the next one of them. */
  lemma MoveAhead(s: State, m: Move, k: nat) returns (k': nat)
    requires Core(s) && CanMove(s, m) && k < |s.fri| && (m.Serve? ==> k > 0)
    ensures var s' := Do(s, m);
            && k' < |s'.fri| && s'.fri[k'] == s.fri[k] && s'.reqs[s.fri[k]] == s.reqs[s.fri[k]]
            && |s'.hist.serves| + Ahead(s', k') == |s.hist.serves| + Ahead(s, k)
  {
    match m
    case Enqueue(r, task, now) => k' := EnqueueAhead(s, r, task, now, k);
    case Admit(r, task, now, i, skip) => k' := AdmitAhead(s, r, task, now, i, skip, k);
    case Advance(i) => k' := AdvanceAhead(s, i, k);
    case Serve =>
      k' := k - 1;
      ServeAhead(s, k);
    case Finish => k' := k;
    case Free(i, msg) => k' := k;
  }

  lemma ServeAhead(s: State, k: nat)
    requires Shape(s) && 0 < k < |s.fri|
    ensures var s' := ServeHead(s);
            && k - 1 < |s'.fri| && s'.fri[k - 1] == s.fri[k] && s'.reqs == s.reqs
            && |s'.hist.serves| + Ahead(s', k - 1) == |s.hist.serves| + Ahead(s, k)
  {}

  lemma ArrivedAhead(s: State, r: nat, task: nat, now: int, k: nat)
    requires Shape(s) && Clocked(s) && r < |s.reqs| && Nowhere(s, r) && now >= s.clock && k < |s.fri|
    ensures var s' := Arrived(s, r, task, now);
            && s'.fri == s.fri && s'.reqs[s.fri[k]] == s.reqs[s.fri[k]] && Ahead(s', k) == Ahead(s, k)
            && s'.reqs[r].ts >= s.reqs[s.fri[k]].ts
  {
    EarlierInFrame(s.reqs, Arrived(s, r, task, now).reqs, s.parts, s.reqs[s.fri[k]].ts);
  }

  lemma EnqueueAhead(s: State, r: nat, task: nat, now: int, k: nat) returns (k': nat)
    requires Core(s) && CanMove(s, Enqueue(r, task, now)) && k < |s.fri|
    ensures var s' := Do(s, Enqueue(r, task, now));
            && k' < |s'.fri| && s'.fri[k'] == s.fri[k] && s'.reqs[s.fri[k]] == s.reqs[s.fri[k]]
            && |s'.hist.serves| + Ahead(s', k') == |s.hist.serves| + Ahead(s, k)
  {
    k' := k;
    var s1 := Arrived(s, r, task, now);
    var p := s.lay.taskPart[task];
    var t := s.reqs[s.fri[k]].ts;
    ArrivedAhead(s, r, task, now, k);
    EarlierInUpdate(s1.reqs, s1.parts, p, s1.parts[p] + [r], t);
    EarlierAppend(s1.reqs, s1.parts[p], r, t);
  }

  lemma AdmitAhead(s: State, r: nat, task: nat, now: int, i: nat, skip: bool, k: nat) returns (k': nat)
    requires Core(s) && CanMove(s, Admit(r, task, now, i, skip)) && k < |s.fri|
    ensures var s' := Do(s, Admit(r, task, now, i, skip));
            && k' < |s'.fri| && s'.fri[k'] == s.fri[k] && s'.reqs[s.fri[k]] == s.reqs[s.fri[k]]
            && |s'.hist.serves| + Ahead(s', k') == |s.hist.serves| + Ahead(s, k)
  {
    var s1 := Arrived(s, r, task, now);
    AdmitReady(s, r, task, now, i, skip);
    ArrivedAhead(s, r, task, now, k);
    k' := GrantShifts(s1, r, i, skip, k);
    EarlierAfterGrant(s1, r, i, skip, s.reqs[s.fri[k]].ts);
  }

  /** Its head no longer counts for a queue. */
  lemma DequeueEarlier(s: State, p: nat, t: int)
    requires Shape(s) && p < |s.parts| && |s.parts[p]| > 0
    ensures Shape(Dequeue(s, p))
    ensures EarlierIn(s.reqs, Dequeue(s, p).parts, t)
            == EarlierIn(s.reqs, s.parts, t) - (if s.reqs[s.parts[p][0]].ts < t then 1 else 0)
  {
    EarlierInUpdate(s.reqs, s.parts, p, s.parts[p][1..], t);
  }

  lemma AdvanceAhead(s: State, i: nat, k: nat) returns (k': nat)
    requires Core(s) && CanMove(s, Advance(i)) && k < |s.fri|
    ensures var s' := Do(s, Advance(i));
            && k' < |s'.fri| && s'.fri[k'] == s.fri[k] && s'.reqs[s.fri[k]] == s.reqs[s.fri[k]]
            && |s'.hist.serves| + Ahead(s', k') == |s.hist.serves| + Ahead(s, k)
  {
    var p := s.lay.slotPart[i];
    var r := s.parts[p][0];
    var t := s.reqs[s.fri[k]].ts;
    AdvanceReady(s, i);
    var s1 := Dequeue(s, p);
    DequeueEarlier(s, p, t);
    k' := GrantShifts(s1, r, i, false, k);
    EarlierAfterGrant(s1, r, i, false, t);
  }

  /** Services are only ever added to the history. */
  lemma {:induction false} ServesGrow(s: State, ms: seq<Move>, s': State)
    requires Core(s) && Path(s, ms, s')
    ensures s.hist.serves <= s'.hist.serves
    decreases |ms|
  {
    if ms != [] {
      MoveKeeps(s, ms[0]);
      ServesGrow(Do(s, ms[0]), ms[1..], s');
    }
  }

  /** The turn of the request at position `k` of the reconfiguration queue: it is
      the request served at index `turn`, at most Ahead(s, k) services from now,
      and whatever is served before it is stamped no later. */
  ghost predicate Turn(s: State, k: nat, s': State, turn: nat)
    requires Shape(s) && k < |s.fri|
  {
    && |s.hist.serves| <= turn <= |s.hist.serves| + Ahead(s, k)
    && s.hist.serves <= s'.hist.serves
    && (turn < |s'.hist.serves| ==> s'.hist.serves[turn].req == s.fri[k])
    && (turn >= |s'.hist.serves| ==> s.fri[k] in s'.fri)
    && (forall j | |s.hist.serves| <= j < turn && j < |s'.hist.serves| ::
          s'.hist.serves[j].ts <= s.reqs[s.fri[k]].ts)
  }

  /** A turn seen one move later. */
  lemma TurnBack(s: State, k: nat, s1: State, k1: nat, s': State, turn: nat)
    requires Shape(s) && Shape(s1) && k < |s.fri| && k1 < |s1.fri|
    requires s1.fri[k1] == s.fri[k] && s1.reqs[s.fri[k]].ts == s.reqs[s.fri[k]].ts
    requires |s1.hist.serves| + Ahead(s1, k1) == |s.hist.serves| + Ahead(s, k)
    requires s.hist.serves <= s1.hist.serves
    requires forall j | |s.hist.serves| <= j < |s1.hist.serves| :: s1.hist.serves[j].ts <= s.reqs[s.fri[k]].ts
    requires Turn(s1, k1, s', turn)
    ensures Turn(s, k, s', turn)
  {
    assert forall j | |s.hist.serves| <= j < |s1.hist.serves| :: s'.hist.serves[j] == s1.hist.serves[j];
  }

  /** The head's turn is now. */
  lemma TurnNow(s: State, s1: State, s': State)
    requires Shape(s) && |s.fri| > 0 && s1.hist.serves == s.hist.serves + [MarkOf(s, s.fri[0])]
    requires s1.hist.serves <= s'.hist.serves
    ensures Turn(s, 0, s', |s.hist.serves|)
  {
    assert s'.hist.serves[|s.hist.serves|] == s1.hist.serves[|s.hist.serves|];
  }

  lemma {:induction false} PathTurn(s: State, ms: seq<Move>, s': State, k: nat) returns (turn: nat)
    requires Core(s) && Path(s, ms, s') && k < |s.fri|
    ensures Turn(s, k, s', turn)
    decreases |ms|
  {
    if ms == [] {
      turn := |s.hist.serves| + Ahead(s, k);
    } else if ms[0].Serve? && k == 0 {
      turn := |s.hist.serves|;
      HeadTurn(s, ms[1..], s');
    } else {
      var k1 := MoveAhead(s, ms[0], k);
      MoveKeeps(s, ms[0]);
      turn := PathTurn(Do(s, ms[0]), ms[1..], s', k1);
      TurnLater(s, ms[0], k, k1, s', turn);
    }
  }

  lemma HeadTurn(s: State, ms: seq<Move>, s': State)
    requires Core(s) && CanMove(s, Serve) && Path(Do(s, Serve), ms, s')
    ensures Turn(s, 0, s', |s.hist.serves|)
  {
    MoveKeeps(s, Serve);
    ServesGrow(Do(s, Serve), ms, s');
    ServedHead(s);
    TurnNow(s, Do(s, Serve), s');
  }

  lemma ServedHead(s: State)
    requires Shape(s) && |s.fri| > 0
    ensures ServeHead(s).hist.serves == s.hist.serves + [MarkOf(s, s.fri[0])]
  {}

  lemma TurnLater(s: State, m: Move, k: nat, k1: nat, s': State, turn: nat)
    requires Shape(s) && s.lay.Valid() && FriSorted(s) && CanMove(s, m) && k < |s.fri| && (m.Serve? ==> k > 0)
    requires var s1 := Do(s, m);
      && k1 < |s1.fri| && s1.fri[k1] == s.fri[k] && s1.reqs[s.fri[k]] == s.reqs[s.fri[k]]
      && |s1.hist.serves| + Ahead(s1, k1) == |s.hist.serves| + Ahead(s, k)
      && Turn(s1, k1, s', turn)
    ensures Turn(s, k, s', turn)
  {
    ServedNext(s, m, k);
    TurnBack(s, k, Do(s, m), k1, s', turn);
  }

  /** What a move serves ahead of a waiting request is stamped no later. */
  lemma ServedNext(s: State, m: Move, k: nat)
    requires Shape(s) && s.lay.Valid() && FriSorted(s) && CanMove(s, m) && k < |s.fri| && (m.Serve? ==> k > 0)
    ensures var s1 := Do(s, m);
            && s.hist.serves <= s1.hist.serves
            && (forall j | |s.hist.serves| <= j < |s1.hist.serves| :: s1.hist.serves[j].ts <= s.reqs[s.fri[k]].ts)
  {
    if m.Serve? {
      assert s.reqs[s.fri[0]].ts <= s.reqs[s.fri[k]].ts;
      assert Do(s, m).hist.serves == s.hist.serves + [MarkOf(s, s.fri[0])];
    } else {
      assert Do(s, m).hist.serves == s.hist.serves;
    }
  }
}
