/** The scheduler's event handlers on the server's own records. A ghost `view`
    holds the state as a value; Valid ties it to the records, and every handler
    is proved to take the view where the corresponding transition does. */
module SchedulerFred {
  import opened Wrappers
  import opened FredState
  import opened SchedInv
  import opened SchedEvents
  import opened SchedMoves
  import opened SchedNotices
  import opened SchedTurns
  import opened FredObjects

  datatype Mode = Normal | AlwaysRcfg

  /** The layout as built at start-up. */
  ghost predicate BuiltAs(lay: Layout, partitions: seq<Partition>, tasks: seq<HwTask>,
                          slots: seq<Slot>, timers: seq<SlotTimer>, reqs: seq<AccelReq>) {
    && lay.Valid() && |slots| == |timers| == |lay.slotPart| && |tasks| == |lay.taskPart| && |partitions| == |lay.partSlots|
    && (forall i | 0 <= i < |slots| :: slots[i].id == i && timers[i].id == i)
    && (forall t | 0 <= t < |tasks| :: tasks[t].id == t && tasks[t].partition == partitions[lay.taskPart[t]])
    && (forall t, u | 0 <= t < u < |tasks| :: tasks[t].hwId != tasks[u].hwId)
    && (forall p | 0 <= p < |partitions| ::
          && partitions[p].index == p
          && |partitions[p].slots| == |partitions[p].timers| == |lay.partSlots[p]|)
    && (forall p, k | 0 <= p < |partitions| && 0 <= k < |lay.partSlots[p]| ::
          && partitions[p].slots[k] == slots[lay.partSlots[p][k]] && partitions[p].slots[k].index == k
          && partitions[p].timers[k] == timers[lay.partSlots[p][k]])
    && (forall r | 0 <= r < |reqs| :: reqs[r].id == r)
  }

  class Scheduler {
    const mode: Mode
    const devcfg: Devcfg
    const hw: Driver
    const lay: Layout
    const partitions: seq<Partition>
    const tasks: seq<HwTask>
    const slots: seq<Slot>
    const timers: seq<SlotTimer>
    const reqs: seq<AccelReq>

    var fri: seq<AccelReq>
    var parts: seq<seq<AccelReq>>

    ghost var view: State

    // ------------------------------------------------------ representation

    predicate KnownReq(r: AccelReq) {
      r.id < |reqs| && reqs[r.id] == r
    }

    predicate KnownTask(t: HwTask) {
      t.id < |tasks| && tasks[t.id] == t
    }

    predicate KnownSlot(sl: Slot) {
      sl.id < |slots| && slots[sl.id] == sl
    }

    ghost predicate Built() {
      BuiltAs(lay, partitions, tasks, slots, timers, reqs)
    }

    ghost predicate SlotsAre(vs: seq<SlotV>)
      reads slots
    {
      && |slots| == |vs|
      && (forall i | 0 <= i < |slots| ::
            && slots[i].V() == vs[i]
            && (slots[i].execReq != null ==> KnownReq(slots[i].execReq))
            && (slots[i].hwTask != null ==> KnownTask(slots[i].hwTask)))
    }

    ghost predicate TimersAre(ts: seq<TimerV>)
      reads timers
    {
      && |timers| == |ts|
      && (forall i | 0 <= i < |timers| ::
            timers[i].V() == ts[i] && (timers[i].execReq != null ==> KnownReq(timers[i].execReq)))
    }

    ghost predicate ReqsAre(rs: seq<ReqV>)
      reads reqs
    {
      && |reqs| == |rs|
      && (forall r | 0 <= r < |reqs| ::
            && reqs[r].V() == rs[r] && reqs[r].tstamp.Valid()
            && (reqs[r].hwTask != null ==> KnownTask(reqs[r].hwTask))
            && (reqs[r].slot != null ==>
                  KnownSlot(reqs[r].slot) && reqs[r].slot.id < |timers| && reqs[r].timer == timers[reqs[r].slot.id]))
    }

    ghost predicate BannedAre(banned: set<nat>)
      reads tasks
    {
      && (forall t | 0 <= t < |tasks| :: tasks[t].banned <==> t in banned)
      && (forall t | t in banned :: t < |tasks|)
    }

    ghost predicate PortIs(d: Option<nat>)
      reads devcfg
    {
      if devcfg.prog then devcfg.current != null && KnownReq(devcfg.current) && d == Some(devcfg.current.id)
      else d == None
    }

    ghost predicate QueueIs(q: seq<AccelReq>, ids: seq<nat>) {
      |q| == |ids| && forall k | 0 <= k < |q| :: KnownReq(q[k]) && ids[k] == q[k].id
    }

    ghost predicate QueuesAre(f: seq<nat>, ps: seq<seq<nat>>)
      reads this`fri, this`parts
    {
      QueueIs(fri, f) && |parts| == |ps| && forall p | 0 <= p < |parts| :: QueueIs(parts[p], ps[p])
    }

    ghost predicate Valid()
      reads this, devcfg, slots, timers, reqs, tasks
    {
      && view.lay == lay
      && SlotsAre(view.slots) && TimersAre(view.timers) && ReqsAre(view.reqs)
      && BannedAre(view.banned) && PortIs(view.devcfg) && QueuesAre(view.fri, view.parts)
    }

    /** A scheduler over freshly built records, with every queue empty. */
    constructor (mode: Mode, devcfg: Devcfg, hw: Driver, lay: Layout, partitions: seq<Partition>, tasks: seq<HwTask>,
                 slots: seq<Slot>, timers: seq<SlotTimer>, reqs: seq<AccelReq>, ghost now: int)
      requires BuiltAs(lay, partitions, tasks, slots, timers, reqs)
      requires !devcfg.prog
      requires forall i | 0 <= i < |slots| :: slots[i].V() == SlotV(Blank, None, None, [Blank])
      requires forall i | 0 <= i < |timers| :: timers[i].V() == TimerV(false, None)
      requires forall t | 0 <= t < |tasks| :: !tasks[t].banned
      requires forall r | 0 <= r < |reqs| :: reqs[r].V() == ReqV(None, None, false, 0) && reqs[r].tstamp.Valid()
      ensures Built() && Valid() && view == Init(lay, |reqs|, now)
      ensures this.mode == mode && this.devcfg == devcfg && this.hw == hw && this.lay == lay
      ensures this.partitions == partitions && this.tasks == tasks
      ensures this.slots == slots && this.timers == timers && this.reqs == reqs
    {
      this.mode, this.devcfg, this.hw, this.lay := mode, devcfg, hw, lay;
      this.partitions, this.tasks, this.slots, this.timers, this.reqs := partitions, tasks, slots, timers, reqs;
      fri, parts := [], seq(|lay.partSlots|, _ => []);
      view := Init(lay, |reqs|, now);
    }

    // --------------------------------------------------------- launching

    /** The first part of start_slot_after_rcfg_: the accelerator and its
        watchdog are started. */
    method Launch(r: AccelReq) returns (ok: bool)
      requires Built() && Valid() && KnownReq(r) && Shape(view) && Placed(view, r.id)
      requires view.slots[view.reqs[r.id].slot.value].state in {FredState.Ready, Rsrv}
      modifies this`view, r.slot, r.timer, hw
      ensures hw.calls > old(hw.calls) && ok == hw.AllOk(old(hw.calls))
      ensures ok ==> Valid() && view == StartExec(old(view), r.id)
    {
      assert reqs[r.id].V() == view.reqs[r.id];
      ok := StartSlot(r);
      if ok {
        ok := ArmWatchdog(r);
      }
    }

    method StartSlot(r: AccelReq) returns (ok: bool)
      requires Built() && Valid() && KnownReq(r) && Shape(view) && Placed(view, r.id)
      requires view.slots[view.reqs[r.id].slot.value].state in {FredState.Ready, Rsrv}
      modifies this`view, r.slot, hw
      ensures hw.calls > old(hw.calls) && ok == hw.AllOk(old(hw.calls))
      ensures ok ==> Valid() && Placed(old(view), r.id) && var s, i := old(view), old(view).reqs[r.id].slot.value;
                view == s.(slots := s.slots[i := s.slots[i].To(Exec).(execReq := Some(r.id))],
                           hist := s.hist.(starts := s.hist.starts + [Start(r.id, i, s.reqs[r.id].task, s.slots[i].hwTask)]))
    {
      assert reqs[r.id].V() == view.reqs[r.id] && slots[r.slot.id].V() == view.slots[r.slot.id];
      ghost var s, i := view, r.slot.id;
      ok := r.slot.StartCompute(hw, r);
      view := s.(slots := s.slots[i := r.slot.V()],
                 hist := s.hist.(starts := s.hist.starts + [Start(r.id, i, s.reqs[r.id].task, s.slots[i].hwTask)]));
    }

    method ArmWatchdog(r: AccelReq) returns (ok: bool)
      requires Built() && Valid() && KnownReq(r) && r.timer != null && r.timer.id < |timers| && timers[r.timer.id] == r.timer
      modifies this`view, r.timer, hw
      ensures hw.calls > old(hw.calls) && ok == hw.AllOk(old(hw.calls))
      ensures ok ==> Valid() && r.timer.id < |old(view.timers)|
                     && view == old(view).(timers := old(view.timers)[r.timer.id := TimerV(true, Some(r.id))])
    {
      ok := r.timer.Arm(hw, r);
      view := view.(timers := view.timers[r.timer.id := TimerV(true, Some(r.id))]);
    }

    /** The second branch of start_rcfg_: the slot is decoupled and its bitstream
        starts loading. */
    method Reprogram(r: AccelReq) returns (ok: bool)
      requires Built() && Valid() && KnownReq(r) && Shape(view) && Placed(view, r.id) && view.devcfg.None?
      requires view.reqs[r.id].task.Some? && view.slots[view.reqs[r.id].slot.value].state == Rsrv
      modifies this`view, r.slot, devcfg, hw
      ensures hw.calls > old(hw.calls) && ok == hw.AllOk(old(hw.calls))
      ensures ok ==> Valid() && view == Program(old(view), r.id)
    {
      assert reqs[r.id].V() == view.reqs[r.id];
      PrepareSlot(r.slot);
      ok := StartPort(r);
    }

    method PrepareSlot(slot: Slot)
      requires Built() && Valid() && KnownSlot(slot) && slot.state == Rsrv
      modifies this`view, slot
      ensures Valid() && slot.id < |old(view).slots|
      ensures view == old(view).(slots := old(view).slots[slot.id := old(view).slots[slot.id].To(Rcfg)])
      ensures slot.state == Rcfg
    {
      assert slots[slot.id].V() == view.slots[slot.id];
      slot.PrepareForRcfg();
      view := view.(slots := view.slots[slot.id := slot.V()]);
    }

    method StartPort(r: AccelReq) returns (ok: bool)
      requires Built() && Valid() && KnownReq(r) && !devcfg.prog && r.slot != null && r.hwTask != null && r.slot.state == Rcfg
      modifies this`view, r.slot, devcfg, hw
      ensures hw.calls > old(hw.calls) && ok == hw.AllOk(old(hw.calls))
      ensures Valid() && old(r.slot.id) < |old(view).slots| && r.hwTask != null
      ensures var s, i := old(view), old(r.slot.id);
        view == s.(slots := s.slots[i := s.slots[i].(hwTask := Some(r.hwTask.id))], devcfg := Some(r.id),
                   hist := s.hist.(loads := s.hist.loads + [Load(Some(r.hwTask.id), i)]))
    {
      assert reqs[r.id].V() == view.reqs[r.id] && slots[r.slot.id].V() == view.slots[r.slot.id];
      ghost var s, i := view, r.slot.id;
      ok := devcfg.StartProg(hw, r);
      view := s.(slots := s.slots[i := r.slot.V()], devcfg := Some(r.id),
                 hist := s.hist.(loads := s.hist.loads + [Load(Some(r.hwTask.id), i)]));
    }

    /** The request leaves the head of the reconfiguration queue. */
    method PopFri() returns (r: AccelReq)
      requires Built() && Valid() && |fri| > 0
      modifies this`view, this`fri
      ensures Valid() && r == old(fri)[0] && fri == old(fri)[1..] && KnownReq(r)
      ensures |old(view.fri)| > 0 && r.id == old(view.fri)[0] && view == old(view).(fri := old(view.fri)[1..])
    {
      r := fri[0];
      fri := fri[1..];
      view := view.(fri := view.fri[1..]);
    }

    // ------------------------------------------------ the drain recursion

    method StartSlotAfterRcfg(r: AccelReq) returns (ok: bool)
      requires Built() && Valid() && KnownReq(r) && Launchable(view, r.id)
      requires view.slots[view.reqs[r.id].slot.value].state in {FredState.Ready, Rsrv}
      modifies this`view, this`fri, slots, timers, devcfg, hw
      ensures hw.calls >= old(hw.calls) && ok == hw.AllOk(old(hw.calls))
      ensures ok ==> Valid() && view == Drain(StartExec(old(view), r.id))
      decreases |fri|, 0
    {
      LaunchedNext(view, r.id);
      ok := Launch(r);
      if ok && fri != [] {
        var next := PopFri();
        ok := StartRcfg(next);
      }
    }

    method StartRcfg(r: AccelReq) returns (ok: bool)
      requires Built() && Valid() && KnownReq(r) && Launchable(view, r.id)
      requires view.slots[view.reqs[r.id].slot.value].state == Rsrv && view.reqs[r.id].task.Some?
      modifies this`view, this`fri, slots, timers, devcfg, hw
      ensures hw.calls >= old(hw.calls) && ok == hw.AllOk(old(hw.calls))
      ensures ok ==> Valid() && view == Drain(Begin(old(view), r.id))
      decreases |fri|, 1
    {
      assert reqs[r.id].V() == view.reqs[r.id];
      view := view.(hist := view.hist.(serves := view.hist.serves + [MarkOf(view, r.id)]));
      if r.skipRcfg {
        ok := StartSlotAfterRcfg(r);
      } else {
        ok := Reprogram(r);
      }
    }

    // ---------------------------------------------------------- the queues

    /** The position of the first queued request stamped later. */
    method WalkFri(r: AccelReq) returns (k: nat)
      requires Built() && Valid() && KnownReq(r) && Shape(view)
      ensures |view.reqs| == |reqs| && |view.fri| == |fri|
      ensures k == NoLater(view.reqs, view.fri, view.reqs[r.id].ts)
    {
      k := 0;
      assert reqs[r.id].V() == view.reqs[r.id];
      while k < |fri|
        invariant 0 <= k <= |fri|
        invariant forall j | 0 <= j < k :: view.reqs[view.fri[j]].ts <= view.reqs[r.id].ts
      {
        assert KnownReq(fri[k]) && view.fri[k] == fri[k].id;
        assert reqs[fri[k].id].V() == view.reqs[fri[k].id];
        if CompareTimestamps(fri[k].tstamp, r.tstamp) == 1 {
          break;
        }
        k := k + 1;
      }
      NoLaterIs(view.reqs, view.fri, view.reqs[r.id].ts, k);
    }

    /** Insertion in front of the first request stamped later. */
    method InsReqOrdered(r: AccelReq)
      requires Built() && Valid() && KnownReq(r) && Shape(view) && Placed(view, r.id)
      modifies this`view, this`fri
      ensures Valid() && view == Enter(old(view), r.id)
    {
      var k := WalkFri(r);
      QueueInsert(fri, view.fri, r, k);
      fri := fri[..k] + [r] + fri[k..];
      view := Enter(view, r.id);
    }

    lemma QueueInsert(q: seq<AccelReq>, ids: seq<nat>, r: AccelReq, k: nat)
      requires QueueIs(q, ids) && KnownReq(r) && k <= |q|
      ensures QueueIs(q[..k] + [r] + q[k..], ids[..k] + [r.id] + ids[k..])
    {}

    /** The partition of a request, read off the records. */
    lemma PartitionIndex(r: AccelReq)
      requires Built() && Valid() && KnownReq(r) && PartOf(view, r.id) >= 0
      ensures r.hwTask != null && r.hwTask.partition.index == PartOf(view, r.id) && |parts| == |view.parts|
    {
      assert reqs[r.id].V() == view.reqs[r.id];
    }

    method PushReqFriQueue(r: AccelReq) returns (ok: bool)
      requires Built() && Valid() && KnownReq(r) && Shape(view) && Placed(view, r.id)
      requires view.lay.Valid() && FriOwns(Enter(view, r.id)) && FriDistinct(Enter(view, r.id))
      modifies this`view, this`fri, slots, timers, devcfg, hw
      ensures hw.calls >= old(hw.calls) && ok == hw.AllOk(old(hw.calls))
      ensures ok ==> Valid() && view == PushFri(old(view), r.id)
    {
      InsReqOrdered(r);
      ok := true;
      if devcfg.IsIdle() && fri[0] == r {
        TopIsLaunchable(view);
        var top := PopFri();
        ok := StartRcfg(top);
      }
    }

    /** A slot with its watchdog is reserved to a request. */
    method GrantSlot(r: AccelReq, slot: Slot, timer: SlotTimer, skip: bool)
      requires Built() && Valid() && KnownReq(r) && KnownSlot(slot) && timer == timers[slot.id]
      requires slot.IsAvailable()
      modifies this`view, slot, r
      ensures Valid() && r.id < |old(view.reqs)| && slot.id < |old(view.slots)|
      ensures view == Reserve(old(view), r.id, slot.id, skip)
      ensures fri == old(fri) && parts == old(parts)
    {
      ReserveSlot(slot);
      BindSlot(r, slot, timer, skip);
    }

    method ReserveSlot(slot: Slot)
      requires Built() && Valid() && KnownSlot(slot) && slot.IsAvailable()
      modifies this`view, slot
      ensures Valid() && slot.id < |old(view.slots)|
      ensures view == old(view).(slots := old(view.slots)[slot.id := old(view.slots)[slot.id].To(Rsrv)])
    {
      assert slots[slot.id].V() == view.slots[slot.id];
      slot.SetReserved();
      view := view.(slots := view.slots[slot.id := view.slots[slot.id].To(Rsrv)]);
    }

    method BindSlot(r: AccelReq, slot: Slot, timer: SlotTimer, skip: bool)
      requires Built() && Valid() && KnownReq(r) && KnownSlot(slot) && timer == timers[slot.id]
      modifies this`view, r
      ensures Valid() && r.id < |old(view.reqs)| && fri == old(fri) && parts == old(parts)
      ensures var s := old(view);
        view == s.(reqs := s.reqs[r.id := s.reqs[r.id].(slot := Some(slot.id), skip := s.reqs[r.id].skip || skip)],
                   hist := s.hist.(grants := s.hist.grants + [MarkOf(s, r.id)]))
    {
      assert reqs[r.id].V() == view.reqs[r.id];
      r.TakeSlot(slot, timer, skip);
      view := view.(reqs := view.reqs[r.id := r.V()], hist := view.hist.(grants := view.hist.grants + [MarkOf(view, r.id)]));
    }

    /** The slot freed by a finished request goes to the head of its partition's
        queue. */
    method PullReqPartitionQueue(done: AccelReq) returns (ok: bool)
      requires Built() && Valid() && KnownReq(done) && Pullable(view, done.id)
      modifies this`view, this`fri, this`parts, slots, timers, reqs, devcfg, hw
      ensures hw.calls >= old(hw.calls) && ok == hw.AllOk(old(hw.calls))
      ensures ok ==> Valid() && view == Pull(old(view), done.id)
    {
      PartitionIndex(done);
      assert reqs[done.id].V() == view.reqs[done.id] && slots[done.slot.id].V() == view.slots[done.slot.id];
      var slot, timer := done.slot, done.timer;
      var p := done.hwTask.partition.index;
      assert QueueIs(parts[p], view.parts[p]);
      ok := true;
      if parts[p] != [] {
        ok := AdvanceQueue(p, slot, timer);
      }
    }

    method AdvanceQueue(p: nat, slot: Slot, timer: SlotTimer) returns (ok: bool)
      requires Built() && Valid() && Shape(view) && view.lay.Valid() && p < |parts| && |parts[p]| > 0
      requires KnownSlot(slot) && timer == timers[slot.id] && slot.IsAvailable() && Advanceable(view, p, slot.id)
      modifies this`view, this`fri, this`parts, slots, timers, reqs, devcfg, hw
      ensures hw.calls >= old(hw.calls) && ok == hw.AllOk(old(hw.calls))
      ensures ok ==> Valid() && view == PushFri(Reserve(Dequeue(old(view), p), old(view.parts)[p][0], slot.id, false), old(view.parts)[p][0])
    {
      var r := DequeuePart(p);
      GrantSlot(r, slot, timer, false);
      ok := PushReqFriQueue(r);
    }

    method DequeuePart(p: nat) returns (r: AccelReq)
      requires Built() && Valid() && p < |parts| && |parts[p]| > 0
      modifies this`view, this`parts
      ensures Valid() && KnownReq(r)
      ensures p < |old(view.parts)| && |old(view.parts)[p]| > 0
      ensures r.id == old(view.parts)[p][0] && view == Dequeue(old(view), p)
    {
      assert QueueIs(parts[p], view.parts[p]);
      r := parts[p][0];
      parts := parts[p := parts[p][1..]];
      view := Dequeue(view, p);
    }

    // ------------------------------------------------------------ arrivals

    /** The request is stamped. */
    method StampReq(r: AccelReq, now: Timespec)
      requires Built() && Valid() && KnownReq(r) && Shape(view) && Nowhere(view, r.id) && now.Valid()
      requires view.reqs[r.id].task.Some? && view.reqs[r.id].slot.None? && !view.reqs[r.id].skip
      modifies this`view, r
      ensures Valid() && r.hwTask == old(r.hwTask)
      ensures view == Arrived(old(view), r.id, old(view).reqs[r.id].task.value, Nanos(now))
    {
      assert reqs[r.id].V() == view.reqs[r.id];
      r.tstamp := now;
      view := Arrived(view, r.id, view.reqs[r.id].task.value, Nanos(now));
    }

    /** The partition of the request is searched for a slot. */
    method SearchFor(r: AccelReq) returns (slot: Slot?, timer: SlotTimer?, rcfg: bool, ghost at: int)
      requires Built() && Valid() && KnownReq(r) && SlotsWalk(view) && PartOf(view, r.id) >= 0
      ensures view.reqs[r.id].task.Some? && Answer(view, view.reqs[r.id].task.value, at)
      ensures slot == null <==> at < 0
      ensures at >= 0 ==> var i := view.lay.partSlots[PartOf(view, r.id)][at];
                          && slot == slots[i] && timer == timers[i]
                          && rcfg == !view.slots[i].Matches(view.reqs[r.id].task.value)
    {
      PartitionIndex(r);
      ghost var p := PartOf(view, r.id);
      var part := r.hwTask.partition;
      PartitionView(p);
      MatchIsView(part, p, r.hwTask);
      slot, timer, rcfg, at := part.SearchSlot(r.hwTask);
      SearchMeans(part.slots, r.hwTask);
      SearchStops(part.slots, r.hwTask);
      assert reqs[r.id].V() == view.reqs[r.id];
    }

    /** The records of a partition's slots show its part of the view. */
    lemma PartitionView(p: nat)
      requires Built() && Valid() && SlotsWalk(view) && p < |partitions|
      ensures partitions[p].Configured() && |partitions[p].slots| == |lay.partSlots[p]|
      ensures forall k | 0 <= k < |lay.partSlots[p]| :: lay.partSlots[p][k] < |view.slots|
      ensures forall k | 0 <= k < |lay.partSlots[p]| ::
                partitions[p].slots[k].IsAvailable() == view.slots[lay.partSlots[p][k]].Available()
    {
      forall k | 0 <= k < |lay.partSlots[p]|
        ensures slots[lay.partSlots[p][k]].V() == view.slots[lay.partSlots[p][k]] {}
    }

    lemma MatchIsView(part: Partition, p: nat, task: HwTask)
      requires Built() && Valid() && SlotsWalk(view) && p < |partitions| && part == partitions[p] && KnownTask(task)
      requires part.Configured()
      ensures forall k | 0 <= k < |lay.partSlots[p]| ::
                part.slots[k].MatchHwTask(task) == view.slots[lay.partSlots[p][k]].Matches(task.id)
    {
      forall k | 0 <= k < |lay.partSlots[p]|
        ensures part.slots[k].MatchHwTask(task) == view.slots[lay.partSlots[p][k]].Matches(task.id)
      {
        var sl := slots[lay.partSlots[p][k]];
        assert sl.V() == view.slots[lay.partSlots[p][k]];
        if sl.state == Idle && sl.hwTask.hwId == task.hwId {
          assert KnownTask(sl.hwTask);
        }
      }
    }

    method QueueOnPartition(r: AccelReq)
      requires Built() && Valid() && KnownReq(r) && 0 <= PartOf(view, r.id) < |view.parts|
      modifies this`view, this`parts
      ensures Valid() && view == Join(old(view), r.id, PartOf(old(view), r.id))
    {
      PartitionIndex(r);
      var p := r.hwTask.partition.index;
      assert QueueIs(parts[p], view.parts[p]);
      parts := parts[p := parts[p] + [r]];
      view := Join(view, r.id, p);
    }

    /** A free slot was found: it is reserved and the request enters the
        reconfiguration queue. */
    method AdmitReq(r: AccelReq, slot: Slot, timer: SlotTimer, skip: bool) returns (ok: bool)
      requires Built() && Valid() && KnownReq(r) && KnownSlot(slot) && timer == timers[slot.id]
      requires Shape(view) && Admissible(view, r.id, slot.id, skip)
      modifies this`view, this`fri, slots, timers, reqs, devcfg, hw
      ensures hw.calls >= old(hw.calls) && ok == hw.AllOk(old(hw.calls))
      ensures ok ==> Valid() && view == PushFri(Reserve(old(view), r.id, slot.id, skip), r.id)
    {
      assert slots[slot.id].V() == view.slots[slot.id];
      GrantSlot(r, slot, timer, skip);
      ok := PushReqFriQueue(r);
    }

    /** An acceleration request from a client, bound to a hw-task and not live.
        The clock reads `now`. */
    method PushAccelReq(r: AccelReq, now: Timespec) returns (ok: bool, ghost at: int)
      requires Built() && Valid() && Inv(view) && KnownReq(r) && Pushable(view, r.id, now)
      modifies this`view, this`fri, this`parts, slots, timers, reqs, devcfg, hw
      ensures hw.calls >= old(hw.calls) && ok == hw.AllOk(old(hw.calls))
      ensures Answer(old(view), old(view.reqs)[r.id].task.value, at)
      ensures var s := old(view); var task := s.reqs[r.id].task.value;
              var e := Push(r.id, task, Nanos(now), PickOf(s, task, at, mode));
              Enabled(s, e) && (ok ==> Valid() && view == Step(s, e))
    {
      ghost var s, task := view, view.reqs[r.id].task.value;
      PushIsReady(s, r.id, task, Nanos(now), mode);
      StampReq(r, now);
      var slot, timer, rcfg;
      slot, timer, rcfg, at := SearchFor(r);
      AnswerIsLegal(s, task, at, mode);
      NowhereIsNotLive(s, r.id);
      if slot == null {
        QueueOnPartition(r);
        ok := true;
      } else {
        AdmittedIsReady(s, r.id, task, Nanos(now), slot.id, !rcfg && mode == Normal);
        ok := AdmitReq(r, slot, timer, !rcfg && mode == Normal);
      }
    }

    /** The random-slot scheduler: any free slot, never skipping. Its handlers
        other than this one are the same code. */
    method PushAccelReqRandom(r: AccelReq, now: Timespec, rnd: nat) returns (ok: bool, ghost pick: Option<Pick>)
      requires Built() && Valid() && Inv(view) && KnownReq(r) && Pushable(view, r.id, now)
      modifies this`view, this`fri, this`parts, slots, timers, reqs, devcfg, hw
      ensures hw.calls >= old(hw.calls) && ok == hw.AllOk(old(hw.calls))
      ensures pick.Some? ==> !pick.value.skip
      ensures var s := old(view); var e := Push(r.id, s.reqs[r.id].task.value, Nanos(now), pick);
              Enabled(s, e) && (ok ==> Valid() && view == Step(s, e))
    {
      ghost var s, task := view, view.reqs[r.id].task.value;
      PushIsReady(s, r.id, task, Nanos(now), mode);
      StampReq(r, now);
      var slot, timer;
      slot, timer, pick := SearchRandomFor(r, rnd);
      NowhereIsNotLive(s, r.id);
      if slot == null {
        QueueOnPartition(r);
        ok := true;
      } else {
        AdmittedIsReady(s, r.id, task, Nanos(now), slot.id, false);
        ok := AdmitReq(r, slot, timer, false);
      }
    }

    method SearchRandomFor(r: AccelReq, rnd: nat) returns (slot: Slot?, timer: SlotTimer?, ghost pick: Option<Pick>)
      requires Built() && Valid() && KnownReq(r) && SlotsWalk(view) && PartOf(view, r.id) >= 0
      ensures view.reqs[r.id].task.Some? && view.reqs[r.id].task.value < |view.lay.taskPart|
      ensures |view.lay.slotPart| == |view.slots| && LegalPick(view, view.reqs[r.id].task.value, pick)
      ensures slot == null <==> pick == None
      ensures pick.Some? ==> pick.value == Pick(slot.id, false) && KnownSlot(slot) && timer == timers[slot.id]
    {
      PartitionIndex(r);
      ghost var p := PartOf(view, r.id);
      var part := r.hwTask.partition;
      PartitionView(p);
      var rcfg;
      ghost var at;
      slot, timer, rcfg, at := part.SearchRandomSlot(r.hwTask, rnd);
      assert reqs[r.id].V() == view.reqs[r.id];
      pick := if slot == null then None else Some(Pick(slot.id, false));
      forall i | slot == null && 0 <= i < |view.slots| && lay.slotPart[i] == p ensures !view.slots[i].Available() {
        var k :| 0 <= k < |lay.partSlots[p]| && lay.partSlots[p][k] == i;
        assert !part.slots[k].IsAvailable();
      }
    }

    // ------------------------------------------------------ hardware events

    /** The port reports the end of a reconfiguration. */
    method RcfgComplete() returns (ok: bool)
      requires Built() && Valid() && Inv(view) && devcfg.prog
      modifies this`view, this`fri, slots, timers, devcfg, hw
      ensures hw.calls >= old(hw.calls) && ok == hw.AllOk(old(hw.calls))
      ensures Enabled(old(view), ProgramDone) && (ok ==> Valid() && view == Step(old(view), ProgramDone))
    {
      ProgrammedIsReady(view);
      var r := devcfg.current;
      ok := EndProgramming(r);
      if ok {
        ok := StartSlotAfterRcfg(r);
      }
    }

    method EndProgramming(r: AccelReq) returns (ok: bool)
      requires Built() && Valid() && Shape(view) && devcfg.prog && r == devcfg.current
      requires view.devcfg.Some? && view.slots[view.reqs[view.devcfg.value].slot.value].state == Rcfg
      modifies this`view, r.slot, devcfg, hw
      ensures hw.calls > old(hw.calls) && ok == hw.AllOk(old(hw.calls))
      ensures ok ==> Valid() && view == Programmed(old(view))
    {
      assert reqs[r.id].V() == view.reqs[r.id];
      ok := ClearPort();
      if ok {
        ReinitSlot(r);
      }
    }

    method ClearPort() returns (ok: bool)
      requires Built() && Valid() && devcfg.prog
      modifies this`view, devcfg, hw
      ensures hw.calls > old(hw.calls) && ok == hw.AllOk(old(hw.calls))
      ensures ok ==> Valid() && view == old(view).(devcfg := None)
    {
      ok := devcfg.ClearEvt(hw);
      view := view.(devcfg := None);
    }

    method ReinitSlot(r: AccelReq)
      requires Built() && Valid() && KnownReq(r) && Placed(view, r.id)
      requires view.slots[view.reqs[r.id].slot.value].state == Rcfg
      modifies this`view, r.slot
      ensures Valid() && Placed(old(view), r.id)
      ensures var s := old(view); var i := s.reqs[r.id].slot.value;
              view == s.(slots := s.slots[i := s.slots[i].To(FredState.Ready)])
    {
      assert reqs[r.id].V() == view.reqs[r.id] && slots[r.slot.id].V() == view.slots[r.slot.id];
      r.slot.ReinitAfterRcfg();
      view := view.(slots := view.slots[r.slot.id := view.slots[r.slot.id].To(FredState.Ready)]);
    }

    /** A slot reports the end of an execution. */
    method SlotComplete(slot: Slot) returns (ok: bool)
      requires Built() && Valid() && Inv(view) && KnownSlot(slot) && slot.state == Exec
      modifies this`view, this`fri, this`parts, slots, timers, reqs, devcfg, hw
      ensures hw.calls > old(hw.calls) && ok == hw.AllOk(old(hw.calls))
      ensures Enabled(old(view), SlotDone(slot.id)) && (ok ==> Valid() && view == Step(old(view), SlotDone(slot.id)))
      ensures ok ==> old(slot.execReq) != null
                     && view.hist.notices == old(view.hist.notices) + [Notice(old(slot.execReq).id, Done)]
    {
      assert slots[slot.id].V() == view.slots[slot.id];
      StepNotifies(view, SlotDone(slot.id));
      ReleasedIsReady(view, slot.id, Done);
      var r := slot.execReq;
      ok := FinishSlot(r, slot);
      if ok {
        ok := PullReqPartitionQueue(r);
      }
    }

    /** The watchdog is disarmed, the slot cleared, the client notified. */
    method FinishSlot(r: AccelReq, slot: Slot) returns (ok: bool)
      requires Built() && Valid() && Shape(view) && KnownSlot(slot) && slot.state == Exec && slot.execReq == r
      requires KnownReq(r) && SlotOf(view, r.id) == slot.id && view.slots[slot.id].execReq.Some?
      modifies this`view, slot, r.timer, hw
      ensures hw.calls > old(hw.calls) && ok == hw.AllOk(old(hw.calls))
      ensures ok ==> Valid() && view == Release(old(view), slot.id, Done)
    {
      assert reqs[r.id].V() == view.reqs[r.id];
      ok := StopWatchdog(r.timer);
      if ok {
        VacateSlot(slot, Done);
        ok := NotifyAction(r, Done);
      }
    }

    method StopWatchdog(timer: SlotTimer) returns (ok: bool)
      requires Built() && Valid() && timer.id < |timers| && timers[timer.id] == timer
      modifies this`view, timer, hw
      ensures hw.calls > old(hw.calls) && ok == hw.AllOk(old(hw.calls))
      ensures ok ==> Valid() && timer.id < |old(view.timers)|
                     && view == old(view).(timers := old(view.timers)[timer.id := TimerV(false, None)])
    {
      ok := timer.Disarm(hw);
      view := view.(timers := view.timers[timer.id := TimerV(false, None)]);
    }

    /** The slot is cleared after an execution, blanked after an overrun. */
    method VacateSlot(slot: Slot, msg: Message)
      requires Built() && Valid() && KnownSlot(slot) && slot.state == Exec
      modifies this`view, slot
      ensures Valid() && slot.id < |old(view.slots)|
      ensures view == old(view).(
                slots := old(view.slots)[slot.id := old(view.slots)[slot.id].To(if msg == Done then Idle else Blank)])
    {
      assert slots[slot.id].V() == view.slots[slot.id];
      view := view.(slots := view.slots[slot.id := view.slots[slot.id].To(if msg == Done then Idle else Blank)]);
      if msg == Done {
        slot.ClearAfterCompute();
      } else {
        slot.DisableAfterTimeout();
      }
    }

    /** The request's client is notified. */
    method NotifyAction(r: AccelReq, msg: Message) returns (ok: bool)
      requires Built() && Valid() && KnownReq(r)
      modifies this`view, hw
      ensures hw.calls > old(hw.calls) && ok == hw.AllOk(old(hw.calls))
      ensures ok ==> Valid() && view == old(view).(hist := old(view.hist).(notices := old(view.hist.notices) + [Notice(r.id, msg)]))
    {
      ok := hw.Call();
      view := view.(hist := view.hist.(notices := view.hist.notices + [Notice(r.id, msg)]));
    }

    /** A watchdog expires. */
    method WatchdogExpired(timer: SlotTimer) returns (ok: bool)
      requires Built() && Valid() && Inv(view) && timer.id < |timers| && timers[timer.id] == timer && timer.armed
      modifies this`view, this`fri, this`parts, slots, timers, reqs, tasks, devcfg, hw
      ensures hw.calls > old(hw.calls) && ok == hw.AllOk(old(hw.calls))
      ensures Enabled(old(view), SlotTimeout(timer.id)) && (ok ==> Valid() && view == Step(old(view), SlotTimeout(timer.id)))
      ensures ok ==> old(timer.execReq) != null
                     && view.hist.notices == old(view.hist.notices) + [Notice(old(timer.execReq).id, Overrun)]
    {
      assert timers[timer.id].V() == view.timers[timer.id];
      HandlerReady(view, SlotTimeout(timer.id));
      StepNotifies(view, SlotTimeout(timer.id));
      ReleasedIsReady(view, timer.id, Overrun);
      var r := timer.execReq;
      ok := OverrunSlot(r, timer);
      if ok {
        ok := PullReqPartitionQueue(r);
      }
    }

    /** The expiry is consumed, the hw-task banned, the slot blanked, the client
        notified. */
    method OverrunSlot(r: AccelReq, timer: SlotTimer) returns (ok: bool)
      requires Built() && Valid() && Shape(view) && timer.id < |timers| && timers[timer.id] == timer && timer.armed
      requires timer.execReq == r && KnownReq(r) && SlotOf(view, r.id) == timer.id && view.reqs[r.id].task.Some?
      requires view.slots[timer.id].state == Exec && view.slots[timer.id].execReq == Some(r.id)
      modifies this`view, r.slot, timer, r.hwTask, hw
      ensures hw.calls > old(hw.calls) && ok == hw.AllOk(old(hw.calls))
      ensures ok ==> Valid() && view == Release(old(view), timer.id, Overrun)
    {
      assert reqs[r.id].V() == view.reqs[r.id] && slots[timer.id].V() == view.slots[timer.id];
      ok := ConsumeExpiry(timer);
      if ok {
        BanTask(r.hwTask);
        ok := EndOverrun(r);
      }
    }

    method EndOverrun(r: AccelReq) returns (ok: bool)
      requires Built() && Valid() && KnownReq(r) && r.slot != null && r.slot.state == Exec
      modifies this`view, r.slot, hw
      ensures hw.calls > old(hw.calls) && ok == hw.AllOk(old(hw.calls))
      ensures old(r.slot.id) < |old(view).slots|
      ensures ok ==> Valid() && var s, i := old(view), old(r.slot.id);
                view == s.(slots := s.slots[i := s.slots[i].To(Blank)],
                           hist := s.hist.(notices := s.hist.notices + [Notice(r.id, Overrun)]))
    {
      assert reqs[r.id].V() == view.reqs[r.id];
      VacateSlot(r.slot, Overrun);
      ok := NotifyAction(r, Overrun);
    }

    method ConsumeExpiry(timer: SlotTimer) returns (ok: bool)
      requires Built() && Valid() && timer.id < |timers| && timers[timer.id] == timer && timer.armed
      modifies this`view, timer, hw
      ensures hw.calls > old(hw.calls) && ok == hw.AllOk(old(hw.calls))
      ensures ok ==> Valid() && timer.id < |old(view.timers)|
                     && view == old(view).(timers :=
                          old(view.timers)[timer.id := TimerV(false, old(view.timers)[timer.id].execReq)])
    {
      assert timers[timer.id].V() == view.timers[timer.id];
      ok := timer.ClearAfterTimeout(hw);
      view := view.(timers := view.timers[timer.id := TimerV(false, view.timers[timer.id].execReq)]);
    }

    method BanTask(task: HwTask)
      requires Built() && Valid() && KnownTask(task)
      modifies this`view, task
      ensures Valid() && view == old(view).(banned := old(view.banned) + {task.id})
    {
      task.SetBanned();
      view := view.(banned := view.banned + {task.id});
    }
  }

  /** The port is idle and the request's slot is no queued request's. */
  ghost predicate Launchable(s: State, r: nat) {
    && s.lay.Valid() && Shape(s) && FriOwns(s) && FriDistinct(s) && s.devcfg.None? && Placed(s, r)
    && (forall k | 0 <= k < |s.fri| :: SlotOf(s, s.fri[k]) != SlotOf(s, r))
  }

  /** After a launch the next queued request can be launched in turn. */
  lemma LaunchedNext(s: State, r: nat)
    requires Launchable(s, r)
    ensures var s1 := StartExec(s, r);
            && Shape(s1) && s1.fri == s.fri
            && (s.fri == [] ==> Drain(s1) == s1)
            && (s.fri != [] ==>
                  var s2 := s1.(fri := s1.fri[1..]); var n := s.fri[0];
                  && Launchable(s2, n) && s2.slots[s2.reqs[n].slot.value].state == Rsrv && s2.reqs[n].task.Some?
                  && Drain(s1) == Drain(Begin(s2, n)))
  {
    var s1 := StartExec(s, r);
    if s.fri != [] {
      assert PartOf(s, s.fri[0]) >= 0;
      assert forall k | 0 < k < |s.fri| :: SlotOf(s, s.fri[k]) != SlotOf(s, s.fri[0]);
      assert ServeHead(s1) == Begin(s1.(fri := s1.fri[1..]), s.fri[0]);
    }
  }

  lemma {:induction false} NoLaterIs(reqs: seq<ReqV>, q: seq<nat>, t: int, n: nat)
    requires forall k | 0 <= k < |q| :: q[k] < |reqs|
    requires n <= |q| && (forall k | 0 <= k < n :: reqs[q[k]].ts <= t) && (n < |q| ==> reqs[q[n]].ts > t)
    ensures NoLater(reqs, q, t) == n
  {
    if n > 0 {
      NoLaterIs(reqs, q[1..], t, n - 1);
    }
  }

  /** The head of the queue can be launched on an idle port. */
  lemma TopIsLaunchable(s: State)
    requires s.lay.Valid() && Shape(s) && FriOwns(s) && FriDistinct(s) && s.devcfg.None? && |s.fri| > 0
    ensures var s1 := s.(fri := s.fri[1..]); var r := s.fri[0];
            && Launchable(s1, r) && s1.slots[s1.reqs[r].slot.value].state == Rsrv && s1.reqs[r].task.Some?
            && Drain(ServeHead(s)) == Drain(Begin(s1, r))
  {
    assert PartOf(s, s.fri[0]) >= 0;
    assert forall k | 0 < k < |s.fri| :: SlotOf(s, s.fri[k]) != SlotOf(s, s.fri[0]);
  }

  /** A slot may be granted to the head of a partition queue. */
  ghost predicate Advanceable(s: State, p: nat, i: nat) {
    && Shape(s) && p < |s.parts| && |s.parts[p]| > 0 && i < |s.slots|
    && var s1 := Reserve(Dequeue(s, p), s.parts[p][0], i, false);
       FriOwns(Enter(s1, s.parts[p][0])) && FriDistinct(Enter(s1, s.parts[p][0]))
  }

  /** A finished request whose slot is free, and may be granted to the head of
      its partition's queue. */
  ghost predicate Pullable(s: State, done: nat) {
    && Shape(s) && s.lay.Valid() && Placed(s, done) && s.slots[SlotOf(s, done)].Available()
    && 0 <= PartOf(s, done) < |s.parts|
    && (|s.parts[PartOf(s, done)]| > 0 ==> Advanceable(s, PartOf(s, done), SlotOf(s, done)))
  }

  lemma PulledIsReady(s: State, done: nat)
    requires Core(s) && Placed(s, done)
    requires s.slots[SlotOf(s, done)].Available() && s.lay.slotPart[SlotOf(s, done)] == PartOf(s, done)
    ensures Pullable(s, done)
  {
    var i, p := SlotOf(s, done), PartOf(s, done);
    if |s.parts[p]| > 0 {
      AdvanceReady(s, i);
      GrantOwns(Dequeue(s, p), s.parts[p][0], i, false);
    }
  }

  /** The answer of the slot search in terms of the view: -1 when the partition
      has no free slot; the first slot configured with the hw-task; failing that
      the last free one. */
  ghost predicate Answer(s: State, task: nat, at: int) {
    && s.lay.Valid() && |s.slots| == |s.lay.slotPart| && task < |s.lay.taskPart|
    && var ps := s.lay.partSlots[s.lay.taskPart[task]];
       && -1 <= at < |ps|
       && (at < 0 ==> forall j | 0 <= j < |ps| :: !s.slots[ps[j]].Available())
       && (at >= 0 ==> s.slots[ps[at]].Available())
       && (at >= 0 && s.slots[ps[at]].Matches(task) ==> forall j | 0 <= j < at :: !s.slots[ps[j]].Matches(task))
       && (at >= 0 && !s.slots[ps[at]].Matches(task) ==>
             && (forall j | 0 <= j < |ps| :: !s.slots[ps[j]].Matches(task))
             && (forall j | at < j < |ps| :: !s.slots[ps[j]].Available()))
  }

  /** The pick the main scheduler derives from the search: reconfiguration is
      skipped on a match unless the mode forbids it. */
  ghost function PickOf(s: State, task: nat, at: int, mode: Mode): Option<Pick>
    requires Answer(s, task, at)
  {
    if at < 0 then None else
      var i := s.lay.partSlots[s.lay.taskPart[task]][at];
      Some(Pick(i, mode == Normal && s.slots[i].Matches(task)))
  }

  lemma AnswerIsLegal(s: State, task: nat, at: int, mode: Mode)
    requires Answer(s, task, at)
    ensures LegalPick(s, task, PickOf(s, task, at, mode))
  {
    var ps := s.lay.partSlots[s.lay.taskPart[task]];
    forall i | at < 0 && 0 <= i < |s.slots| && s.lay.slotPart[i] == s.lay.taskPart[task]
      ensures !s.slots[i].Available()
    {
      assert i in ps;
    }
  }

  /** A request a client may push. */
  ghost predicate Pushable(s: State, r: nat, now: Timespec) {
    && r < |s.reqs| && Nowhere(s, r) && s.reqs[r].slot.None? && !s.reqs[r].skip
    && s.reqs[r].task.Some? && s.reqs[r].task.value < |s.lay.taskPart|
    && now.Valid() && Nanos(now) >= s.clock
  }

  lemma PushIsReady(s: State, r: nat, task: nat, now: int, mode: Mode)
    requires Inv(s) && r < |s.reqs| && Nowhere(s, r) && task < |s.lay.taskPart| && now >= s.clock
    ensures var s1 := Arrived(s, r, task, now);
            && SlotsWalk(s1) && PartOf(s1, r) == s.lay.taskPart[task] < |s.parts| && s1.reqs[r].task == Some(task)
            && (forall at :: Answer(s1, task, at) ==> Answer(s, task, at) && PickOf(s1, task, at, mode) == PickOf(s, task, at, mode))
  {
    ArrivedKeeps(s, r, task, now);
  }

  /** A slot may be reserved to an arriving request. */
  ghost predicate Admissible(s: State, r: nat, i: nat, skip: bool) {
    && Shape(s) && r < |s.reqs| && i < |s.slots| && s.slots[i].Available() && s.lay.Valid()
    && var s1 := Reserve(s, r, i, skip); FriOwns(Enter(s1, r)) && FriDistinct(Enter(s1, r))
  }

  lemma AdmittedIsReady(s: State, r: nat, task: nat, now: int, i: nat, skip: bool)
    requires Inv(s) && Enabled(s, Push(r, task, now, Some(Pick(i, skip)))) && Nowhere(s, r)
    ensures Admissible(Arrived(s, r, task, now), r, i, skip)
  {
    var s1 := Arrived(s, r, task, now);
    AdmitReady(s, r, task, now, i, skip);
    GrantOwns(s1, r, i, skip);
  }

  lemma ProgrammedIsReady(s: State)
    requires Inv(s) && s.devcfg.Some?
    ensures Launchable(Programmed(s), s.devcfg.value)
    ensures s.slots[s.reqs[s.devcfg.value].slot.value].state == Rcfg
    ensures Programmed(s).slots[s.reqs[s.devcfg.value].slot.value].state == FredState.Ready
    ensures Step(s, ProgramDone) == Drain(StartExec(Programmed(s), s.devcfg.value))
  {
    ProgrammedQueues(s);
  }

  lemma ReleasedIsReady(s: State, i: nat, msg: Message)
    requires Inv(s) && i < |s.slots| && s.slots[i].state == Exec
    ensures s.slots[i].execReq.Some? && SlotOf(s, s.slots[i].execReq.value) == i
    ensures s.reqs[s.slots[i].execReq.value].task.Some? && s.timers[i].execReq == s.slots[i].execReq
    ensures Pullable(Release(s, i, msg), s.slots[i].execReq.value)
  {
    HandlerReady(s, SlotDone(i));
    ReleaseKeeps(s, i, msg);
    assert PartOf(s, s.slots[i].execReq.value) >= 0;
    PulledIsReady(Release(s, i, msg), s.slots[i].execReq.value);
  }
}
