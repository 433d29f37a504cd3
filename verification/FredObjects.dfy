/** The records the server updates in place: hw-tasks, acceleration requests,
    slots with their watchdogs, partitions and the reconfiguration port. Every
    assertion of the transition functions is a precondition here. */
module FredObjects {
  import opened Wrappers
  import opened FredState

  // ----------------------------------------------------------------- time

  /** A clock reading: seconds and nanoseconds below one second. */
  datatype Timespec = Timespec(sec: int, nsec: int) {
    predicate Valid() {
      0 <= nsec < 1_000_000_000
    }
  }

  function Nanos(t: Timespec): int {
    t.sec * 1_000_000_000 + t.nsec
  }

  /** 1 when `a` is later than `b`, -1 when earlier, 0 when equal. */
  function CompareTimestamps(a: Timespec, b: Timespec): (c: int)
    requires a.Valid() && b.Valid()
    ensures c == if Nanos(a) > Nanos(b) then 1 else if Nanos(a) < Nanos(b) then -1 else 0
  {
    if a.sec > b.sec then 1
    else if a.sec < b.sec then -1
    else if a.nsec > b.nsec then 1
    else if a.nsec < b.nsec then -1
    else 0
  }

  // ------------------------------------------------------------- drivers

  /** The outside world of the server: every driver call, and every write to a
      client, is numbered and succeeds or fails as `outcome` says. */
  class Driver {
    const outcome: nat -> bool
    var calls: nat

    constructor (outcome: nat -> bool)
      ensures this.outcome == outcome && calls == 0
    {
      this.outcome := outcome;
      calls := 0;
    }

    method Call() returns (ok: bool)
      modifies this
      ensures calls == old(calls) + 1 && ok == outcome(old(calls))
    {
      ok := outcome(calls);
      calls := calls + 1;
    }

    /** No call since `from` has failed. */
    ghost predicate AllOk(from: nat)
      reads this
    {
      forall k: nat | from <= k < calls :: outcome(k)
    }
  }

  // ------------------------------------------------------------- hw-tasks

  class HwTask {
    const id: nat       // position in the system layout
    const hwId: nat     // identifier exported by the hardware module
    const partition: Partition
    var banned: bool

    constructor (id: nat, hwId: nat, partition: Partition)
      ensures this.id == id && this.hwId == hwId && this.partition == partition && !banned
    {
      this.id, this.hwId, this.partition, banned := id, hwId, partition, false;
    }

    method SetBanned()
      modifies this
      ensures banned
    {
      banned := true;
    }
  }

  function TaskId(t: HwTask?): Option<nat> {
    if t == null then None else Some(t.id)
  }

  function ReqId(r: AccelReq?): Option<nat> {
    if r == null then None else Some(r.id)
  }

  // ------------------------------------------------------------- requests

  /** The one request a client embeds. */
  class AccelReq {
    const id: nat
    var hwTask: HwTask?
    var slot: Slot?
    var timer: SlotTimer?
    var tstamp: Timespec
    var skipRcfg: bool

    constructor (id: nat)
      ensures this.id == id && hwTask == null && slot == null && timer == null
      ensures !skipRcfg && tstamp == Timespec(0, 0)
    {
      this.id := id;
      hwTask, slot, timer, skipRcfg, tstamp := null, null, null, false, Timespec(0, 0);
    }

    ghost function V(): ReqV
      reads this
    {
      ReqV(TaskId(hwTask), if slot == null then None else Some(slot.id), skipRcfg, Nanos(tstamp))
    }

    method Unbind()
      modifies this
      ensures hwTask == null && slot == null && !skipRcfg && timer == old(timer) && tstamp == old(tstamp)
    {
      hwTask, slot, skipRcfg := null, null, false;
    }

    /** The request gets a slot with its watchdog; the skip flag is set or left. */
    method TakeSlot(slot: Slot, timer: SlotTimer, skip: bool)
      modifies this
      ensures this.slot == slot && this.timer == timer && tstamp == old(tstamp) && hwTask == old(hwTask)
      ensures V() == old(V()).(slot := Some(slot.id), skip := old(V()).skip || skip)
    {
      this.slot, this.timer := slot, timer;
      if skip {
        skipRcfg := true;
      }
    }
  }

  // ---------------------------------------------------------------- slots

  class Slot {
    const id: nat      // position among all slots of the system
    const index: nat   // position within its partition
    var state: SlotState
    var execReq: AccelReq?
    var hwTask: HwTask?
    ghost var path: seq<SlotState>

    constructor (id: nat, index: nat)
      ensures this.id == id && this.index == index && execReq == null && hwTask == null
      ensures V() == SlotV(Blank, None, None, [Blank])
    {
      this.id, this.index := id, index;
      state, execReq, hwTask, path := Blank, null, null, [Blank];
    }

    ghost function V(): SlotV
      reads this
    {
      SlotV(state, TaskId(hwTask), ReqId(execReq), path)
    }

    predicate IsAvailable()
      reads this
    {
      state == Idle || state == Blank
    }

    /** Idle slots are compared by hardware identifier. */
    predicate MatchHwTask(task: HwTask)
      requires state == Idle ==> hwTask != null
      reads this
    {
      state == Idle && hwTask.hwId == task.hwId
    }

    method SetReserved()
      requires state == Idle || state == Blank
      modifies this
      ensures V() == old(V()).To(Rsrv) && execReq == old(execReq) && hwTask == old(hwTask)
    {
      state, path := Rsrv, path + [Rsrv];
    }

    method PrepareForRcfg()
      requires state == Rsrv
      modifies this
      ensures V() == old(V()).To(Rcfg) && execReq == old(execReq) && hwTask == old(hwTask)
    {
      state, path := Rcfg, path + [Rcfg];
    }

    method SetHwTask(task: HwTask)
      requires state == Rcfg
      modifies this
      ensures V() == old(V()).(hwTask := Some(task.id)) && execReq == old(execReq) && hwTask == task
    {
      hwTask := task;
    }

    method ReinitAfterRcfg()
      requires state == Rcfg
      modifies this
      ensures V() == old(V()).To(Ready) && execReq == old(execReq) && hwTask == old(hwTask)
    {
      state, path := Ready, path + [Ready];
    }

    method StartCompute(hw: Driver, req: AccelReq) returns (ok: bool)
      requires state == Ready || state == Rsrv
      modifies this, hw
      ensures V() == old(V()).To(Exec).(execReq := Some(req.id)) && execReq == req && hwTask == old(hwTask)
      ensures hw.calls == old(hw.calls) + 1 && ok == hw.outcome(old(hw.calls))
    {
      execReq, state, path := req, Exec, path + [Exec];
      ok := hw.Call();
    }

    method DisableAfterTimeout()
      requires state == Exec
      modifies this
      ensures V() == old(V()).To(Blank) && execReq == old(execReq) && hwTask == old(hwTask)
    {
      state, path := Blank, path + [Blank];
    }

    method ClearAfterCompute()
      requires state == Exec
      modifies this
      ensures V() == old(V()).To(Idle) && execReq == old(execReq) && hwTask == old(hwTask)
    {
      state, path := Idle, path + [Idle];
    }
  }

  /** A slot's watchdog. `armed` is the state of the kernel timer behind it. */
  class SlotTimer {
    const id: nat
    var armed: bool
    var execReq: AccelReq?

    constructor (id: nat)
      ensures this.id == id && !armed && execReq == null
    {
      this.id, armed, execReq := id, false, null;
    }

    ghost function V(): TimerV
      reads this
    {
      TimerV(armed, ReqId(execReq))
    }

    method Arm(hw: Driver, req: AccelReq) returns (ok: bool)
      modifies this, hw
      ensures execReq == req && armed == (ok || old(armed))
      ensures hw.calls == old(hw.calls) + 1 && ok == hw.outcome(old(hw.calls))
    {
      execReq := req;
      ok := hw.Call();
      armed := ok || armed;
    }

    /** Reads the elapsed time, then disarms; each may fail. */
    method Disarm(hw: Driver) returns (ok: bool)
      modifies this, hw
      ensures execReq == null && armed == (old(armed) && !ok)
      ensures hw.calls == old(hw.calls) + (if hw.outcome(old(hw.calls)) then 2 else 1)
      ensures ok == hw.AllOk(old(hw.calls))
    {
      execReq := null;
      ok := hw.Call();
      if ok {
        ok := hw.Call();
        armed := armed && !ok;
      }
    }

    /** The kernel timer fires once. */
    method ClearAfterTimeout(hw: Driver) returns (ok: bool)
      requires armed
      modifies this, hw
      ensures execReq == old(execReq) && armed == !ok
      ensures hw.calls == old(hw.calls) + 1 && ok == hw.outcome(old(hw.calls))
    {
      ok := hw.Call();
      armed := !ok;
    }
  }

  // ----------------------------------------------------------------- port

  /** The reconfiguration port, once a scheduler is attached. */
  class Devcfg {
    var prog: bool
    var current: AccelReq?

    constructor ()
      ensures !prog && current == null
    {
      prog, current := false, null;
    }

    predicate IsIdle()
      reads this
    {
      !prog
    }

    /** Binds the hw-task to the slot and starts loading its bitstream. */
    method StartProg(hw: Driver, req: AccelReq) returns (ok: bool)
      requires !prog && req.slot != null && req.hwTask != null && req.slot.state == Rcfg
      modifies this, req.slot, hw
      ensures prog && current == req
      ensures req.slot.V() == old(req.slot.V()).(hwTask := Some(req.hwTask.id))
      ensures req.slot.hwTask == req.hwTask && req.slot.execReq == old(req.slot.execReq)
      ensures hw.calls == old(hw.calls) + 1 && ok == hw.outcome(old(hw.calls))
    {
      prog, current := true, req;
      req.slot.SetHwTask(req.hwTask);
      ok := hw.Call();
    }

    /** Reads the reconfiguration time, which must come out positive. */
    method ClearEvt(hw: Driver) returns (ok: bool)
      requires prog
      modifies this, hw
      ensures !prog && current == old(current)
      ensures hw.calls == old(hw.calls) + 1 && ok == hw.outcome(old(hw.calls))
    {
      prog := false;
      ok := hw.Call();
    }
  }

  // ----------------------------------------------------------- partitions

  /** A partition's slots, each with its watchdog. */
  class Partition {
    const index: nat
    const slots: seq<Slot>
    const timers: seq<SlotTimer>

    constructor (index: nat, slots: seq<Slot>, timers: seq<SlotTimer>)
      requires |slots| == |timers|
      ensures this.index == index && this.slots == slots && this.timers == timers
    {
      this.index, this.slots, this.timers := index, slots, timers;
    }

    /** Idle slots are configured. */
    ghost predicate Configured()
      reads slots
    {
      forall i | 0 <= i < |slots| :: slots[i].state == Idle ==> slots[i].hwTask != null
    }

    /** The first free slot already configured with the hw-task, without
        reconfiguration; failing that the last free slot; failing that none. */
    method SearchSlot(task: HwTask) returns (slot: Slot?, timer: SlotTimer?, rcfg: bool, ghost at: int)
      requires Configured() && |slots| == |timers|
      ensures at == SlotSearch(slots, task)
      ensures var i := SlotSearch(slots, task);
              if i < 0 then slot == null && timer == null && rcfg
              else slot == slots[i] && timer == timers[i] && rcfg == !slots[i].MatchHwTask(task)
    {
      var slotIdx := -1;
      rcfg := true;
      var i := 0;
      while i < |slots|
        invariant 0 <= i <= |slots|
        invariant -1 <= slotIdx < |slots| && rcfg
        invariant slotIdx == LastFree(slots, i) && NoMatch(slots, task, i)
      {
        if slots[i].IsAvailable() {
          slotIdx := i;
          if slots[i].MatchHwTask(task) {
            rcfg := false;
            break;
          }
        }
        i := i + 1;
      }
      FirstMatchFound(slots, task, i);
      if slotIdx < 0 {
        slot, timer := null, null;
      } else {
        slot, timer := slots[slotIdx], timers[slotIdx];
      }
      at := slotIdx;
    }

    /** Any free slot, as `rnd` picks it. */
    method SearchRandomSlot(task: HwTask, rnd: nat) returns (slot: Slot?, timer: SlotTimer?, rcfg: bool, ghost at: int)
      requires Configured() && |slots| == |timers|
      ensures slot == null <==> forall i | 0 <= i < |slots| :: !slots[i].IsAvailable()
      ensures slot == null ==> at < 0 && rcfg && timer == null
      ensures slot != null ==> 0 <= at < |slots| && slot == slots[at] && timer == timers[at]
                               && slot.IsAvailable() && rcfg == !slot.MatchHwTask(task)
    {
      var free: seq<nat> := [];
      var i := 0;
      while i < |slots|
        invariant 0 <= i <= |slots|
        invariant forall k | 0 <= k < |free| :: free[k] < i && slots[free[k]].IsAvailable()
        invariant forall j | 0 <= j < i && slots[j].IsAvailable() :: j in free
      {
        if slots[i].IsAvailable() {
          free := free + [i];
        }
        i := i + 1;
      }
      rcfg := true;
      if |free| == 0 {
        slot, timer, at := null, null, -1;
      } else {
        at := free[rnd % |free|];
        var slotIdx := free[rnd % |free|];
        slot, timer := slots[slotIdx], timers[slotIdx];
        if slots[slotIdx].MatchHwTask(task) {
          rcfg := false;
        }
      }
    }
  }

  // ------------------------------------------------------ the search's result

  /** The last free slot among the first `n`, -1 if there is none. */
  ghost function LastFree(slots: seq<Slot>, n: nat): (i: int)
    requires n <= |slots|
    reads slots
    ensures -1 <= i < n
    ensures i >= 0 ==> slots[i].IsAvailable()
    ensures forall j | i < j < n :: !slots[j].IsAvailable()
  {
    if n == 0 then -1 else if slots[n - 1].IsAvailable() then n - 1 else LastFree(slots, n - 1)
  }

  ghost predicate NoMatch(slots: seq<Slot>, task: HwTask, n: nat)
    requires n <= |slots|
    requires forall i | 0 <= i < |slots| :: slots[i].state == Idle ==> slots[i].hwTask != null
    reads slots
  {
    forall j | 0 <= j < n :: !slots[j].MatchHwTask(task)
  }

  /** The first slot configured with the hw-task, |slots| if there is none. */
  ghost function FirstMatch(slots: seq<Slot>, task: HwTask, from: nat): (i: nat)
    requires from <= |slots|
    requires forall i | 0 <= i < |slots| :: slots[i].state == Idle ==> slots[i].hwTask != null
    reads slots
    ensures from <= i <= |slots|
    ensures i < |slots| ==> slots[i].MatchHwTask(task)
    ensures forall j | from <= j < i :: !slots[j].MatchHwTask(task)
    decreases |slots| - from
  {
    if from == |slots| || slots[from].MatchHwTask(task) then from else FirstMatch(slots, task, from + 1)
  }

  ghost function SlotSearch(slots: seq<Slot>, task: HwTask): (i: int)
    requires forall i | 0 <= i < |slots| :: slots[i].state == Idle ==> slots[i].hwTask != null
    reads slots
    ensures -1 <= i < |slots|
  {
    var m := FirstMatch(slots, task, 0);
    if m < |slots| then m else LastFree(slots, |slots|)
  }

  lemma FirstMatchFound(slots: seq<Slot>, task: HwTask, n: nat)
    requires n <= |slots|
    requires forall i | 0 <= i < |slots| :: slots[i].state == Idle ==> slots[i].hwTask != null
    requires NoMatch(slots, task, n) && (n < |slots| ==> slots[n].MatchHwTask(task))
    ensures FirstMatch(slots, task, 0) == n
  {}

  /** What a search means: none exactly when nothing is free, a free slot
      otherwise, and one that needs reconfiguration only when all do. */
  lemma SearchMeans(slots: seq<Slot>, task: HwTask)
    requires forall i | 0 <= i < |slots| :: slots[i].state == Idle ==> slots[i].hwTask != null
    ensures var at := SlotSearch(slots, task);
            && (at < 0 <==> forall j | 0 <= j < |slots| :: !slots[j].IsAvailable())
            && (at >= 0 ==> slots[at].IsAvailable())
            && (at >= 0 ==> (slots[at].MatchHwTask(task) <==> exists j :: 0 <= j < |slots| && slots[j].MatchHwTask(task)))
  {
    var at := SlotSearch(slots, task);
    if at >= 0 && !slots[at].MatchHwTask(task) {
      assert FirstMatch(slots, task, 0) == |slots|;
    }
  }

  /** Where the search stops: at the first match, else at the last free slot. */
  lemma SearchStops(slots: seq<Slot>, task: HwTask)
    requires forall i | 0 <= i < |slots| :: slots[i].state == Idle ==> slots[i].hwTask != null
    ensures var at := SlotSearch(slots, task);
            at >= 0 ==>
              if slots[at].MatchHwTask(task) then forall j | 0 <= j < at :: !slots[j].MatchHwTask(task)
              else (forall j | 0 <= j < |slots| :: !slots[j].MatchHwTask(task))
                   && (forall j | at < j < |slots| :: !slots[j].IsAvailable())
  {
    assert FirstMatch(slots, task, 0) <= |slots|;
  }

  /** partition.h documents the result as the first free slot. That is what the
      search finds exactly when the first free slot matches or is the only free
      one. */
  lemma FirstFreeIff(slots: seq<Slot>, task: HwTask, first: nat)
    requires forall i | 0 <= i < |slots| :: slots[i].state == Idle ==> slots[i].hwTask != null
    requires first < |slots| && slots[first].IsAvailable() && forall j | 0 <= j < first :: !slots[j].IsAvailable()
    ensures SlotSearch(slots, task) == first <==>
            slots[first].MatchHwTask(task) || forall j | first < j < |slots| :: !slots[j].IsAvailable()
  {
    var m := FirstMatch(slots, task, 0);
    if slots[first].MatchHwTask(task) {
      assert m == first;
    } else if m < |slots| {
      assert m > first && slots[m].IsAvailable();
    }
  }

  /** Two blank slots: the search answers the second, whose index is 1. */
  method SecondOfTwoBlank(hwId: nat) returns (index: int)
    ensures index == 1
  {
    var first := new Slot(0, 0);
    var second := new Slot(1, 1);
    var t0 := new SlotTimer(0);
    var t1 := new SlotTimer(1);
    var p := new Partition(0, [first, second], [t0, t1]);
    var task := new HwTask(0, hwId, p);
    assert first.V().state == Blank && second.V().state == Blank;
    SearchMeans(p.slots, task);
    SearchStops(p.slots, task);
    assert p.slots[1].IsAvailable();
    ghost var at;
    var slot, timer, rcfg;
    slot, timer, rcfg, at := p.SearchSlot(task);
    index := if slot == null then -1 else slot.index;
  }
}
