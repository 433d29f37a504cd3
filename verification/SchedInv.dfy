/** What every transition of the scheduler keeps. */
module SchedInv {
  import opened Wrappers
  import opened FredState

  function SlotOf(s: State, r: nat): int {
    if r < |s.reqs| && s.reqs[r].slot.Some? then s.reqs[r].slot.value else -1
  }

  ghost predicate Executing(s: State, r: nat) {
    exists i :: 0 <= i < |s.slots| && s.slots[i].state == Exec && s.slots[i].execReq == Some(r)
  }

  ghost predicate Waiting(s: State, r: nat) {
    exists p :: 0 <= p < |s.parts| && r in s.parts[p]
  }

  /** The request has been pushed and its client has not been notified yet. */
  ghost predicate Live(s: State, r: nat) {
    Waiting(s, r) || r in s.fri || s.devcfg == Some(r) || Executing(s, r)
  }

  // ------------------------------------------------------------ ownership

  /** Every queued reconfiguration owns a reserved slot of its partition; a
      skip is only queued for a slot configured with its hw-task. */
  ghost predicate FriOwns(s: State)
    requires Shape(s)
  {
    forall k | 0 <= k < |s.fri| ::
      var r := s.fri[k]; var i := s.reqs[r].slot.value;
      && s.slots[i].state == Rsrv && s.lay.slotPart[i] == PartOf(s, r)
      && (s.reqs[r].skip ==> s.slots[i].hwTask == s.reqs[r].task)
  }

  /** No two queued reconfigurations share a slot. */
  ghost predicate FriDistinct(s: State)
  {
    forall j, k | 0 <= j < k < |s.fri| :: SlotOf(s, s.fri[j]) != SlotOf(s, s.fri[k])
  }

  /** Some queued reconfiguration holds slot `i`. */
  ghost predicate Owned(s: State, i: int) {
    exists k :: 0 <= k < |s.fri| && SlotOf(s, s.fri[k]) == i
  }

  /** Every reserved slot is owned by a queued reconfiguration. */
  ghost predicate RsrvOwned(s: State) {
    forall i | 0 <= i < |s.slots| && s.slots[i].state == Rsrv :: Owned(s, i)
  }

  /** The port programs the slot of its current request, and no other slot is
      under reconfiguration. */
  ghost predicate PortOwns(s: State)
    requires Shape(s)
  {
    && (s.devcfg.Some? ==>
          var r := s.devcfg.value; var i := s.reqs[r].slot.value;
          s.slots[i].state == Rcfg && s.lay.slotPart[i] == PartOf(s, r) && s.slots[i].hwTask == s.reqs[r].task)
    && (forall i | 0 <= i < |s.slots| && s.slots[i].state == Rcfg :: s.devcfg.Some? && SlotOf(s, s.devcfg.value) == i)
  }

  /** A slot executes the request that holds it, configured with its hw-task
      and watched by its timer; no other timer is armed. */
  ghost predicate ExecOwns(s: State)
    requires Shape(s)
  {
    && (forall i | 0 <= i < |s.slots| && s.slots[i].state == Exec ::
          && s.slots[i].execReq.Some? && SlotOf(s, s.slots[i].execReq.value) == i
          && s.lay.slotPart[i] == PartOf(s, s.slots[i].execReq.value)
          && s.slots[i].hwTask == s.reqs[s.slots[i].execReq.value].task
          && s.timers[i] == TimerV(true, s.slots[i].execReq))
    && (forall i | 0 <= i < |s.slots| && s.slots[i].state != Exec :: !s.timers[i].armed)
  }

  /** A request in a partition queue belongs there, holds no slot and appears
      once. */
  ghost predicate QueuesOwn(s: State)
    requires Shape(s)
  {
    && (forall p, k | 0 <= p < |s.parts| && 0 <= k < |s.parts[p]| ::
          var r := s.parts[p][k];
          PartOf(s, r) == p && s.reqs[r].slot.None? && !s.reqs[r].skip)
    && (forall p, j, k | 0 <= p < |s.parts| && 0 <= j < k < |s.parts[p]| :: s.parts[p][j] != s.parts[p][k])
  }

  // ----------------------------------------------------------------- order

  /** The reconfiguration queue is in stamp order. */
  ghost predicate FriSorted(s: State)
    requires Shape(s)
  {
    forall j, k | 0 <= j < k < |s.fri| :: s.reqs[s.fri[j]].ts <= s.reqs[s.fri[k]].ts
  }

  /** Each partition queue is in stamp order, behind the requests of its
      partition that already hold a slot. */
  ghost predicate PartsSorted(s: State)
    requires Shape(s)
  {
    && (forall p, j, k | 0 <= p < |s.parts| && 0 <= j < k < |s.parts[p]| ::
          s.reqs[s.parts[p][j]].ts <= s.reqs[s.parts[p][k]].ts)
    && (forall k, p, j | 0 <= k < |s.fri| && 0 <= p < |s.parts| && 0 <= j < |s.parts[p]|
                         && PartOf(s, s.fri[k]) == p :: s.reqs[s.fri[k]].ts <= s.reqs[s.parts[p][j]].ts)
  }

  /** No queued request is stamped in the future. */
  ghost predicate Clocked(s: State)
    requires Shape(s)
  {
    && (forall k | 0 <= k < |s.fri| :: s.reqs[s.fri[k]].ts <= s.clock)
    && (forall p, j | 0 <= p < |s.parts| && 0 <= j < |s.parts[p]| :: s.reqs[s.parts[p][j]].ts <= s.clock)
  }

  ghost predicate Stamped(s: State)
    requires Shape(s)
  {
    FriSorted(s) && PartsSorted(s) && Clocked(s)
  }

  // ----------------------------------------------------------------- slots

  /** A slot's states so far follow the diagram, starting blank; none is left
      in Ready; an idle slot is configured. */
  ghost predicate Walk(v: SlotV) {
    && |v.path| > 0 && v.path[0] == Blank && v.path[|v.path| - 1] == v.state
    && (forall k | 0 < k < |v.path| :: Arrow(v.path[k - 1], v.path[k]))
  }

  ghost predicate SlotsWalk(s: State) {
    forall i | 0 <= i < |s.slots| ::
      Walk(s.slots[i]) && s.slots[i].state != Ready && (s.slots[i].state == Idle ==> s.slots[i].hwTask.Some?)
  }

  /** What holds between any two transitions of a handler. */
  ghost predicate Core(s: State) {
    s.lay.Valid() && Shape(s) && FriOwns(s) && FriDistinct(s) && RsrvOwned(s) && PortOwns(s) && ExecOwns(s) && QueuesOwn(s) && Stamped(s) && SlotsWalk(s)
  }

  // ------------------------------------------------------------ transitions

  /** A request that is not live is in no queue, port or executing slot. */
  ghost predicate Nowhere(s: State, r: nat) {
    && (forall k | 0 <= k < |s.fri| :: s.fri[k] != r)
    && s.devcfg != Some(r)
    && (forall i | 0 <= i < |s.slots| && s.slots[i].state == Exec :: s.slots[i].execReq != Some(r))
    && (forall p, k | 0 <= p < |s.parts| && 0 <= k < |s.parts[p]| :: s.parts[p][k] != r)
  }

  lemma NowhereIsNotLive(s: State, r: nat)
    ensures Nowhere(s, r) <==> !Live(s, r)
  {
    if !Live(s, r) {
      forall p, k | 0 <= p < |s.parts| && 0 <= k < |s.parts[p]| ensures s.parts[p][k] != r {
        assert s.parts[p][k] in s.parts[p];
      }
    }
  }

  // A request that is nowhere may be overwritten in any way.

  lemma RebindFri(s: State, r: nat, v: ReqV)
    requires Shape(s) && FriOwns(s) && FriDistinct(s) && r < |s.reqs| && Nowhere(s, r)
    ensures var s' := Rebind(s, r, v); Shape(s') && FriOwns(s') && FriDistinct(s')
  {}

  lemma RebindRsrv(s: State, r: nat, v: ReqV)
    requires RsrvOwned(s) && r < |s.reqs| && Nowhere(s, r)
    ensures RsrvOwned(Rebind(s, r, v))
  {
    var s' := Rebind(s, r, v);
    forall i | 0 <= i < |s'.slots| && s'.slots[i].state == Rsrv ensures Owned(s', i) {
      assert Owned(s, i);
      var k :| 0 <= k < |s.fri| && SlotOf(s, s.fri[k]) == i;
      assert SlotOf(s', s'.fri[k]) == i;
    }
  }

  lemma RebindOwned(s: State, r: nat, v: ReqV)
    requires Shape(s) && s.lay.Valid() && PortOwns(s) && ExecOwns(s) && r < |s.reqs| && Nowhere(s, r)
    ensures var s' := Rebind(s, r, v); Shape(s') && PortOwns(s') && ExecOwns(s')
  {}

  lemma RebindQueues(s: State, r: nat, v: ReqV)
    requires Shape(s) && QueuesOwn(s) && r < |s.reqs| && Nowhere(s, r)
    ensures var s' := Rebind(s, r, v); Shape(s') && QueuesOwn(s')
  {}

  lemma RebindOrder(s: State, r: nat, v: ReqV)
    requires Shape(s) && Stamped(s) && r < |s.reqs| && Nowhere(s, r)
    ensures var s' := Rebind(s, r, v); Shape(s') && Stamped(s')
  {}

  lemma RebindKeeps(s: State, r: nat, v: ReqV)
    requires Core(s) && r < |s.reqs| && Nowhere(s, r)
    ensures Core(Rebind(s, r, v)) && Nowhere(Rebind(s, r, v), r)
  {
    RebindFri(s, r, v);
    RebindRsrv(s, r, v);
    RebindOwned(s, r, v);
    RebindQueues(s, r, v);
    RebindOrder(s, r, v);
  }

  lemma StampKeeps(s: State, r: nat, task: nat, now: int)
    requires Core(s) && r < |s.reqs| && Nowhere(s, r) && now >= s.clock
    ensures Core(Stamp(s, r, task, now)) && Nowhere(Stamp(s, r, task, now), r)
  {
    var s1 := Rebind(s, r, ReqV(Some(task), None, false, now));
    RebindKeeps(s, r, ReqV(Some(task), None, false, now));
    ClockKeeps(s1, now);
  }

  /** Time passes. */
  lemma ClockKeeps(s: State, now: int)
    requires Core(s) && now >= s.clock
    ensures Core(s.(clock := now))
    ensures forall r :: Nowhere(s, r) ==> Nowhere(s.(clock := now), r)
  {
    OnlyQueuesChange(s, s.(clock := now));
    forall r ensures PartOf(s.(clock := now), r) == PartOf(s, r) {}
  }

  /** The request arrives: it is bound, stamped and recorded. */
  function Arrived(s: State, r: nat, task: nat, now: int): (s': State)
    requires Shape(s) && r < |s.reqs| && Nowhere(s, r)
    ensures Shape(s') && s'.lay == s.lay
  {
    Arrive(Stamp(s, r, task, now), r)
  }

  // A slot is granted: reserved, and its request inserted in the
  // reconfiguration queue.

  function Grant(s: State, r: nat, i: nat, skip: bool): (s': State)
    requires Shape(s) && r < |s.reqs| && i < |s.slots|
    ensures Shape(s') && s'.lay == s.lay
  {
    Enter(Reserve(s, r, i, skip), r)
  }

  /** The slot may be granted: it is free, in the request's partition, and
      configured with its hw-task if reconfiguration is to be skipped. */
  predicate MayGrant(s: State, r: nat, i: nat, skip: bool)
    requires |s.lay.slotPart| == |s.slots|
  {
    && r < |s.reqs| && i < |s.slots| && s.slots[i].Available() && s.lay.slotPart[i] == PartOf(s, r)
    && !s.reqs[r].skip && (skip ==> s.slots[i].hwTask == s.reqs[r].task)
  }

  /** The request comes after those of its partition already granted and before
      those still waiting there. */
  ghost predicate InTurn(s: State, r: nat)
    requires Shape(s) && r < |s.reqs|
  {
    && s.reqs[r].ts <= s.clock
    && (forall k | 0 <= k < |s.fri| && PartOf(s, s.fri[k]) == PartOf(s, r) :: s.reqs[s.fri[k]].ts <= s.reqs[r].ts)
    && (forall p, j | 0 <= p < |s.parts| && 0 <= j < |s.parts[p]| && p == PartOf(s, r) ::
          s.reqs[r].ts <= s.reqs[s.parts[p][j]].ts)
  }

  /** Where position `k` of a queue was before an insertion at `n`, and where it
      goes. */
  function Back(n: nat, k: nat): int {
    if k < n then k else k - 1
  }

  function Forth(n: nat, k: nat): nat {
    if k < n then k else k + 1
  }

  /** `s'` is `s` with slot `i` granted to `r`, queued at position `n`: what a
      proof about the grant needs, entry by entry. */
  ghost predicate Granted(s: State, s': State, r: nat, i: nat, skip: bool, n: nat)
  {
    && r < |s.reqs| && i < |s.slots| && n <= |s.fri| && |s'.fri| == |s.fri| + 1 && s'.fri[n] == r
    && (forall k: nat | k <= |s.fri| && k != n :: s'.fri[k] == s.fri[Back(n, k)])
    && s'.lay == s.lay && s'.parts == s.parts && s'.devcfg == s.devcfg && s'.timers == s.timers && s'.clock == s.clock
    && s'.slots == s.slots[i := s.slots[i].To(Rsrv)]
    && s'.reqs == s.reqs[r := s.reqs[r].(slot := Some(i), skip := s.reqs[r].skip || skip)]
  }

  lemma IsGranted(s: State, r: nat, i: nat, skip: bool) returns (n: nat)
    requires Shape(s) && r < |s.reqs| && i < |s.slots| && Nowhere(s, r)
    ensures Granted(s, Grant(s, r, i, skip), r, i, skip, n)
    ensures Grant(s, r, i, skip).fri == s.fri[..n] + [r] + s.fri[n..]
    ensures forall k | 0 <= k < n :: s.reqs[s.fri[k]].ts <= s.reqs[r].ts
    ensures n < |s.fri| ==> s.reqs[s.fri[n]].ts > s.reqs[r].ts
  {
    n := NoLater(Reserve(s, r, i, skip).reqs, s.fri, s.reqs[r].ts);
  }

  /** The grant changes the partition of no request, and the rest of no other. */
  lemma GrantedFrame(s: State, s': State, r: nat, i: nat, skip: bool, n: nat, x: nat)
    requires Granted(s, s', r, i, skip, n) && x < |s.reqs|
    ensures |s'.reqs| == |s.reqs| && PartOf(s', x) == PartOf(s, x) && s'.reqs[x].ts == s.reqs[x].ts
    ensures x != r ==> s'.reqs[x] == s.reqs[x]
  {}

  /** What was queued at `k` is queued still. */
  lemma GrantedForth(s: State, s': State, r: nat, i: nat, skip: bool, n: nat, k: nat)
    requires Granted(s, s', r, i, skip, n) && k < |s.fri|
    ensures Forth(n, k) < |s'.fri| && s'.fri[Forth(n, k)] == s.fri[k]
  {
    assert Back(n, Forth(n, k)) == k;
  }

  lemma GrantedOwnsAt(s: State, s': State, r: nat, i: nat, skip: bool, n: nat, k: nat)
    requires Shape(s) && Shape(s') && FriOwns(s) && Nowhere(s, r) && MayGrant(s, r, i, skip) && Granted(s, s', r, i, skip, n)
    requires k < |s'.fri|
    ensures var x := s'.fri[k]; var j := s'.reqs[x].slot.value;
            && s'.slots[j].state == Rsrv && s'.lay.slotPart[j] == PartOf(s', x)
            && (s'.reqs[x].skip ==> s'.slots[j].hwTask == s'.reqs[x].task)
  {
    GrantedFrame(s, s', r, i, skip, n, s'.fri[k]);
    if k != n {
      var j := Back(n, k);
      assert s'.fri[k] == s.fri[j] && s.fri[j] != r;
      assert s.slots[s.reqs[s.fri[j]].slot.value].state == Rsrv;
    }
  }

  lemma GrantedOwns(s: State, s': State, r: nat, i: nat, skip: bool, n: nat)
    requires Shape(s) && Shape(s') && FriOwns(s) && Nowhere(s, r) && MayGrant(s, r, i, skip) && Granted(s, s', r, i, skip, n)
    ensures FriOwns(s')
  {
    forall k | 0 <= k < |s'.fri|
      ensures var x := s'.fri[k]; var j := s'.reqs[x].slot.value;
              && s'.slots[j].state == Rsrv && s'.lay.slotPart[j] == PartOf(s', x)
              && (s'.reqs[x].skip ==> s'.slots[j].hwTask == s'.reqs[x].task)
    {
      GrantedOwnsAt(s, s', r, i, skip, n, k);
    }
  }

  /** The slots of the queue: `i` at the insertion, elsewhere as before and not
      `i`, which was free. */
  lemma GrantedSlot(s: State, s': State, r: nat, i: nat, skip: bool, n: nat, k: nat)
    requires Shape(s) && FriOwns(s) && Nowhere(s, r) && MayGrant(s, r, i, skip) && Granted(s, s', r, i, skip, n)
    requires k < |s'.fri|
    ensures k == n ==> SlotOf(s', s'.fri[k]) == i
    ensures k != n ==> SlotOf(s', s'.fri[k]) == SlotOf(s, s.fri[Back(n, k)]) != i
  {
    if k != n {
      var j := Back(n, k);
      assert s'.fri[k] == s.fri[j] && s.fri[j] != r;
      assert s.slots[s.reqs[s.fri[j]].slot.value].state == Rsrv;
    }
  }

  lemma GrantedDistinct(s: State, s': State, r: nat, i: nat, skip: bool, n: nat)
    requires Shape(s) && FriOwns(s) && FriDistinct(s) && Nowhere(s, r) && MayGrant(s, r, i, skip)
    requires Granted(s, s', r, i, skip, n)
    ensures FriDistinct(s')
  {
    forall j, k | 0 <= j < k < |s'.fri| ensures SlotOf(s', s'.fri[j]) != SlotOf(s', s'.fri[k]) {
      GrantedSlot(s, s', r, i, skip, n, j);
      GrantedSlot(s, s', r, i, skip, n, k);
    }
  }

  lemma GrantedRsrv(s: State, s': State, r: nat, i: nat, skip: bool, n: nat)
    requires RsrvOwned(s) && Nowhere(s, r) && Granted(s, s', r, i, skip, n)
    ensures RsrvOwned(s')
  {
    forall j | 0 <= j < |s'.slots| && s'.slots[j].state == Rsrv ensures Owned(s', j) {
      if j == i {
        assert SlotOf(s', s'.fri[n]) == i;
      } else {
        assert Owned(s, j);
        var k :| 0 <= k < |s.fri| && SlotOf(s, s.fri[k]) == j;
        GrantedForth(s, s', r, i, skip, n, k);
        assert SlotOf(s', s'.fri[Forth(n, k)]) == j;
      }
    }
  }

  lemma GrantedPort(s: State, s': State, r: nat, i: nat, skip: bool, n: nat)
    requires Shape(s) && Shape(s') && PortOwns(s) && Nowhere(s, r) && MayGrant(s, r, i, skip) && Granted(s, s', r, i, skip, n)
    ensures PortOwns(s')
  {}

  lemma GrantedExec(s: State, s': State, r: nat, i: nat, skip: bool, n: nat)
    requires Shape(s) && Shape(s') && ExecOwns(s) && Nowhere(s, r) && MayGrant(s, r, i, skip) && Granted(s, s', r, i, skip, n)
    ensures ExecOwns(s')
  {}

  lemma GrantedQueues(s: State, s': State, r: nat, i: nat, skip: bool, n: nat)
    requires Shape(s) && Shape(s') && QueuesOwn(s) && Nowhere(s, r) && Granted(s, s', r, i, skip, n)
    ensures QueuesOwn(s')
  {}

  lemma GrantedSorted(s: State, s': State, r: nat, i: nat, skip: bool, n: nat)
    requires Shape(s) && Shape(s') && FriSorted(s) && Granted(s, s', r, i, skip, n)
    requires forall k | 0 <= k < n :: s.reqs[s.fri[k]].ts <= s.reqs[r].ts
    requires n < |s.fri| ==> s.reqs[s.fri[n]].ts > s.reqs[r].ts
    ensures FriSorted(s')
  {
    forall j, k | 0 <= j < k < |s'.fri| ensures s'.reqs[s'.fri[j]].ts <= s'.reqs[s'.fri[k]].ts {
      GrantedFrame(s, s', r, i, skip, n, s'.fri[j]);
      GrantedFrame(s, s', r, i, skip, n, s'.fri[k]);
      var j', k' := Back(n, j), Back(n, k);
      if j == n {
        assert s.reqs[s.fri[n]].ts <= s.reqs[s.fri[k']].ts;
      } else if k != n {
        assert s.reqs[s.fri[j']].ts <= s.reqs[s.fri[k']].ts;
      }
    }
  }

  lemma GrantedParts(s: State, s': State, r: nat, i: nat, skip: bool, n: nat)
    requires Shape(s) && Shape(s') && PartsSorted(s) && Granted(s, s', r, i, skip, n) && InTurn(s, r)
    ensures PartsSorted(s')
  {
    forall k, p, j | 0 <= k < |s'.fri| && 0 <= p < |s'.parts| && 0 <= j < |s'.parts[p]| && PartOf(s', s'.fri[k]) == p
      ensures s'.reqs[s'.fri[k]].ts <= s'.reqs[s'.parts[p][j]].ts
    {
      GrantedFrame(s, s', r, i, skip, n, s'.fri[k]);
      GrantedFrame(s, s', r, i, skip, n, s'.parts[p][j]);
      if k != n {
        assert s'.fri[k] == s.fri[Back(n, k)];
      }
    }
  }

  lemma GrantedClocked(s: State, s': State, r: nat, i: nat, skip: bool, n: nat)
    requires Shape(s) && Shape(s') && Clocked(s) && Granted(s, s', r, i, skip, n) && InTurn(s, r)
    ensures Clocked(s')
  {
    forall k | 0 <= k < |s'.fri| ensures s'.reqs[s'.fri[k]].ts <= s'.clock {
      GrantedFrame(s, s', r, i, skip, n, s'.fri[k]);
    }
  }

  lemma GrantOwns(s: State, r: nat, i: nat, skip: bool)
    requires Shape(s) && FriOwns(s) && FriDistinct(s) && Nowhere(s, r) && MayGrant(s, r, i, skip)
    ensures FriOwns(Grant(s, r, i, skip)) && FriDistinct(Grant(s, r, i, skip))
  {
    var n := IsGranted(s, r, i, skip);
    GrantedOwns(s, Grant(s, r, i, skip), r, i, skip, n);
    GrantedDistinct(s, Grant(s, r, i, skip), r, i, skip, n);
  }

  lemma StepWalks(v: SlotV, st: SlotState)
    requires Walk(v) && Arrow(v.state, st)
    ensures Walk(v.To(st))
  {}

  lemma GrantedWalks(s: State, s': State, r: nat, i: nat, skip: bool, n: nat)
    requires SlotsWalk(s) && Granted(s, s', r, i, skip, n) && s.slots[i].Available()
    ensures SlotsWalk(s')
  {
    StepWalks(s.slots[i], Rsrv);
  }

  lemma GrantKeeps(s: State, r: nat, i: nat, skip: bool)
    requires Core(s) && Nowhere(s, r) && MayGrant(s, r, i, skip) && InTurn(s, r)
    ensures Core(Grant(s, r, i, skip))
  {
    var n := IsGranted(s, r, i, skip);
    var s' := Grant(s, r, i, skip);
    GrantedOwns(s, s', r, i, skip, n);
    GrantedDistinct(s, s', r, i, skip, n);
    GrantedRsrv(s, s', r, i, skip, n);
    GrantedPort(s, s', r, i, skip, n);
    GrantedExec(s, s', r, i, skip, n);
    GrantedQueues(s, s', r, i, skip, n);
    GrantedSorted(s, s', r, i, skip, n);
    GrantedParts(s, s', r, i, skip, n);
    GrantedClocked(s, s', r, i, skip, n);
    GrantedWalks(s, s', r, i, skip, n);
  }

  // The head of the reconfiguration queue is served.

  lemma ServeFri(s: State)
    requires Shape(s) && FriOwns(s) && FriDistinct(s) && |s.fri| > 0
    ensures FriOwns(ServeHead(s)) && FriDistinct(ServeHead(s))
  {
    var s' := ServeHead(s);
    forall k | 0 <= k < |s'.fri| ensures s'.fri[k] == s.fri[k + 1] && SlotOf(s, s.fri[k + 1]) != SlotOf(s, s.fri[0]) {}
  }

  lemma ServeRsrv(s: State)
    requires Shape(s) && RsrvOwned(s) && |s.fri| > 0
    ensures RsrvOwned(ServeHead(s))
  {
    var s' := ServeHead(s);
    forall j | 0 <= j < |s'.slots| && s'.slots[j].state == Rsrv ensures Owned(s', j) {
      assert Owned(s, j);
      var k :| 0 <= k < |s.fri| && SlotOf(s, s.fri[k]) == j;
      assert SlotOf(s', s'.fri[k - 1]) == j;
    }
  }

  lemma ServeOwned(s: State)
    requires Shape(s) && FriOwns(s) && PortOwns(s) && ExecOwns(s) && s.devcfg.None? && |s.fri| > 0
    ensures PortOwns(ServeHead(s)) && ExecOwns(ServeHead(s))
  {}

  lemma ServeQueues(s: State)
    requires Shape(s) && QueuesOwn(s) && Stamped(s) && |s.fri| > 0
    ensures QueuesOwn(ServeHead(s)) && Stamped(ServeHead(s))
  {
    var s' := ServeHead(s);
    assert s'.reqs == s.reqs && s'.parts == s.parts && s'.lay == s.lay;
    forall r ensures PartOf(s', r) == PartOf(s, r) {}
  }

  lemma ServeWalks(s: State)
    requires Shape(s) && FriOwns(s) && SlotsWalk(s) && |s.fri| > 0
    ensures SlotsWalk(ServeHead(s))
  {
    var i := s.reqs[s.fri[0]].slot.value;
    StepWalks(s.slots[i], Exec);
    StepWalks(s.slots[i], Rcfg);
  }

  lemma ServeKeeps(s: State)
    requires Core(s) && s.devcfg.None? && |s.fri| > 0
    ensures Core(ServeHead(s))
  {
    ServeFri(s);
    ServeRsrv(s);
    ServeOwned(s);
    ServeQueues(s);
    ServeWalks(s);
  }

  lemma {:induction false} DrainKeeps(s: State)
    requires Core(s)
    ensures Core(Drain(s))
    decreases |s.fri|
  {
    if s.devcfg.None? && |s.fri| > 0 {
      ServeKeeps(s);
      DrainKeeps(ServeHead(s));
    }
  }

  // Programming ends: the slot passes through Ready into execution.

  lemma ProgrammedQueues(s: State)
    requires Shape(s) && s.devcfg.Some? && PortOwns(s) && FriOwns(s) && FriDistinct(s) && RsrvOwned(s)
    ensures var s' := Finished(s); Shape(s') && FriOwns(s') && FriDistinct(s') && RsrvOwned(s')
  {
    var s' := Finished(s);
    forall k | 0 <= k < |s.fri| ensures s'.fri[k] == s.fri[k] && SlotOf(s', s.fri[k]) == SlotOf(s, s.fri[k]) {}
    forall j | 0 <= j < |s'.slots| && s'.slots[j].state == Rsrv ensures Owned(s', j) {
      assert Owned(s, j);
      var k :| 0 <= k < |s.fri| && SlotOf(s, s.fri[k]) == j;
      assert SlotOf(s', s'.fri[k]) == j;
    }
  }

  lemma ProgrammedOwned(s: State)
    requires Shape(s) && s.devcfg.Some? && PortOwns(s) && ExecOwns(s)
    ensures var s' := Finished(s); Shape(s') && PortOwns(s') && ExecOwns(s')
  {}

  lemma ProgrammedParts(s: State)
    requires Shape(s) && s.devcfg.Some? && QueuesOwn(s) && Stamped(s)
    ensures var s' := Finished(s); Shape(s') && QueuesOwn(s') && Stamped(s')
  {
    var s' := Finished(s);
    assert s'.reqs == s.reqs && s'.parts == s.parts && s'.lay == s.lay;
    forall r ensures PartOf(s', r) == PartOf(s, r) {}
  }

  lemma ProgrammedKeeps(s: State)
    requires Core(s) && s.devcfg.Some?
    ensures Core(Finished(s))
  {
    ProgrammedQueues(s);
    ProgrammedOwned(s);
    ProgrammedParts(s);
    var v := s.slots[s.reqs[s.devcfg.value].slot.value];
    StepWalks(v, Ready);
    StepWalks(v.To(Ready), Exec);
  }

  // A slot and its watchdog are released.

  lemma ReleaseQueues(s: State, i: nat, msg: Message)
    requires Shape(s) && i < |s.slots| && s.slots[i].state == Exec && s.slots[i].execReq.Some?
    requires FriOwns(s) && FriDistinct(s) && RsrvOwned(s)
    ensures var s' := Release(s, i, msg); Shape(s') && FriOwns(s') && FriDistinct(s') && RsrvOwned(s')
  {
    var s' := Release(s, i, msg);
    forall k | 0 <= k < |s.fri| ensures s'.fri[k] == s.fri[k] && SlotOf(s', s.fri[k]) == SlotOf(s, s.fri[k]) {}
    forall j | 0 <= j < |s'.slots| && s'.slots[j].state == Rsrv ensures Owned(s', j) {
      assert Owned(s, j);
      var k :| 0 <= k < |s.fri| && SlotOf(s, s.fri[k]) == j;
      assert SlotOf(s', s'.fri[k]) == j;
    }
  }

  lemma ReleaseOwned(s: State, i: nat, msg: Message)
    requires Shape(s) && i < |s.slots| && s.slots[i].state == Exec && PortOwns(s) && ExecOwns(s)
    ensures var s' := Release(s, i, msg); Shape(s') && PortOwns(s') && ExecOwns(s')
  {}

  lemma ReleaseParts(s: State, i: nat, msg: Message)
    requires Shape(s) && i < |s.slots| && s.slots[i].state == Exec && s.slots[i].execReq.Some?
    requires QueuesOwn(s) && Stamped(s)
    ensures var s' := Release(s, i, msg); Shape(s') && QueuesOwn(s') && Stamped(s')
  {
    var s' := Release(s, i, msg);
    assert s'.reqs == s.reqs && s'.parts == s.parts && s'.lay == s.lay;
    forall r ensures PartOf(s', r) == PartOf(s, r) {}
  }

  /** What a slot executes is nowhere else. */
  lemma OnlyThere(s: State, i: nat)
    requires Core(s) && i < |s.slots| && s.slots[i].state == Exec
    ensures s.slots[i].execReq.Some?
    ensures var r := s.slots[i].execReq.value;
            && SlotOf(s, r) == i && s.devcfg != Some(r)
            && (forall k | 0 <= k < |s.fri| :: s.fri[k] != r)
            && (forall j | 0 <= j < |s.slots| && s.slots[j].state == Exec && j != i :: s.slots[j].execReq != Some(r))
            && (forall p, k | 0 <= p < |s.parts| && 0 <= k < |s.parts[p]| :: s.parts[p][k] != r)
  {}

  /** So once released its request is nowhere. */
  lemma ReleaseKeeps(s: State, i: nat, msg: Message)
    requires Core(s) && i < |s.slots| && s.slots[i].state == Exec
    ensures Core(Release(s, i, msg)) && Nowhere(Release(s, i, msg), s.slots[i].execReq.value)
  {
    OnlyThere(s, i);
    ReleaseQueues(s, i, msg);
    ReleaseOwned(s, i, msg);
    ReleaseParts(s, i, msg);
    StepWalks(s.slots[i], Idle);
    StepWalks(s.slots[i], Blank);
  }

  // The head of a partition queue leaves it.

  lemma DequeueQueues(s: State, p: nat)
    requires Shape(s) && p < |s.parts| && |s.parts[p]| > 0 && QueuesOwn(s) && Stamped(s)
    ensures var s' := Dequeue(s, p); Shape(s') && QueuesOwn(s') && Stamped(s') && InTurn(s', s.parts[p][0])
  {
    var s' := Dequeue(s, p);
    forall q, k | 0 <= q < |s'.parts| && 0 <= k < |s'.parts[q]|
      ensures s'.parts[q][k] == s.parts[q][if q == p then k + 1 else k] {}
    forall r ensures PartOf(s', r) == PartOf(s, r) {}
  }

  lemma DequeueNowhere(s: State, p: nat)
    requires Shape(s) && p < |s.parts| && |s.parts[p]| > 0 && QueuesOwn(s) && ExecOwns(s)
    ensures Nowhere(Dequeue(s, p), s.parts[p][0])
  {
    var r := s.parts[p][0];
    var s' := Dequeue(s, p);
    assert SlotOf(s, r) == -1;
    forall q, k | 0 <= q < |s'.parts| && 0 <= k < |s'.parts[q]| ensures s'.parts[q][k] != r {
      assert s'.parts[q][k] == s.parts[q][if q == p then k + 1 else k];
    }
  }

  lemma DequeueKeeps(s: State, p: nat)
    requires Core(s) && p < |s.parts| && |s.parts[p]| > 0
    ensures var s' := Dequeue(s, p); var r := s.parts[p][0];
            Core(s') && Nowhere(s', r) && InTurn(s', r) && PartOf(s', r) == p && !s'.reqs[r].skip
  {
    DequeueQueues(s, p);
    DequeueNowhere(s, p);
    OnlyQueuesChange(s, Dequeue(s, p));
  }

  /** Ownership of slots does not depend on the partition queues, the clock or
      the history. */
  lemma OnlyQueuesChange(s: State, s': State)
    requires Shape(s) && Shape(s')
    requires s' == s.(parts := s'.parts, hist := s'.hist, clock := s'.clock)
    requires FriOwns(s) && FriDistinct(s) && RsrvOwned(s) && PortOwns(s) && ExecOwns(s)
    ensures FriOwns(s') && FriDistinct(s') && RsrvOwned(s') && PortOwns(s') && ExecOwns(s')
  {
    forall r ensures PartOf(s', r) == PartOf(s, r) && SlotOf(s', r) == SlotOf(s, r) {}
    forall j | 0 <= j < |s'.slots| && s'.slots[j].state == Rsrv ensures Owned(s', j) {
      assert Owned(s, j);
      var k :| 0 <= k < |s.fri| && SlotOf(s, s.fri[k]) == j;
      assert SlotOf(s', s'.fri[k]) == j;
    }
  }

  // A stamped request joins its partition queue.

  function Join(s: State, r: nat, p: nat): (s': State)
    requires p < |s.parts| && r < |s.reqs|
    ensures Shape(s) ==> Shape(s')
  {
    s.(parts := s.parts[p := s.parts[p] + [r]])
  }

  lemma JoinQueues(s: State, r: nat, p: nat)
    requires Shape(s) && r < |s.reqs| && p < |s.parts| && Nowhere(s, r) && QueuesOwn(s)
    requires PartOf(s, r) == p && s.reqs[r].slot.None? && !s.reqs[r].skip
    ensures var s' := Join(s, r, p); Shape(s') && QueuesOwn(s')
  {
    var s' := Join(s, r, p);
    forall x ensures PartOf(s', x) == PartOf(s, x) {}
  }

  lemma JoinOrder(s: State, r: nat, p: nat)
    requires Shape(s) && r < |s.reqs| && p < |s.parts| && Stamped(s) && s.reqs[r].ts == s.clock
    ensures var s' := Join(s, r, p); Shape(s') && Stamped(s')
  {
    var s' := Join(s, r, p);
    forall x ensures PartOf(s', x) == PartOf(s, x) {}
  }

  lemma JoinKeeps(s: State, r: nat, p: nat)
    requires Core(s) && r < |s.reqs| && p < |s.parts| && Nowhere(s, r)
    requires PartOf(s, r) == p && s.reqs[r].slot.None? && !s.reqs[r].skip && s.reqs[r].ts == s.clock
    ensures Core(Join(s, r, p))
  {
    JoinQueues(s, r, p);
    JoinOrder(s, r, p);
    OnlyQueuesChange(s, Join(s, r, p));
  }
}
