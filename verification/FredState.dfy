/** The state of a FRED server as a value: slots, watchdog timers, the
    reconfiguration port, the queues and every client's acceleration request,
    together with the transitions the scheduler's event handlers are made of.

    Slots, partitions, hw-tasks and requests are named by their index. */
module FredState {
  import opened Wrappers

  // ---------------------------------------------------------------- slots

  datatype SlotState = Blank | Rsrv | Rcfg | Ready | Exec | Idle

  /** The state diagram drawn in slot.h. */
  predicate Drawn(a: SlotState, b: SlotState) {
    match a
    case Blank => b == Rsrv
    case Rsrv => b == Rcfg || b == Exec
    case Rcfg => b == Ready
    case Ready => b == Exec
    case Exec => b == Idle
    case Idle => b == Rsrv
  }

  /** What the transition functions of slot.h implement: an overrun leads from
      Exec to Blank besides. */
  predicate Arrow(a: SlotState, b: SlotState) {
    Drawn(a, b) || (a == Exec && b == Blank)
  }

  /** `path` records every state the slot has been in. */
  datatype SlotV = SlotV(state: SlotState, hwTask: Option<nat>, execReq: Option<nat>, path: seq<SlotState>) {
    function To(st: SlotState): SlotV {
      this.(state := st, path := path + [st])
    }

    predicate Available() {
      state == Idle || state == Blank
    }

    predicate Matches(task: nat) {
      state == Idle && hwTask == Some(task)
    }
  }

  datatype TimerV = TimerV(armed: bool, execReq: Option<nat>)

  // ------------------------------------------------------------- requests

  /** The request a client embeds. `task` and `slot` are null until bound;
      `ts` is the arrival stamp in nanoseconds. */
  datatype ReqV = ReqV(task: Option<nat>, slot: Option<nat>, skip: bool, ts: int)

  // --------------------------------------------------------------- layout

  /** Which partition each slot and each hw-task belongs to. `partSlots[p]` lists
      the slots of partition p in the order of its slot array. */
  datatype Layout = Layout(slotPart: seq<nat>, partSlots: seq<seq<nat>>, taskPart: seq<nat>) {
    ghost predicate Valid() {
      && (forall i | 0 <= i < |slotPart| :: slotPart[i] < |partSlots| && i in partSlots[slotPart[i]])
      && (forall p, k | 0 <= p < |partSlots| && 0 <= k < |partSlots[p]| ::
            partSlots[p][k] < |slotPart| && slotPart[partSlots[p][k]] == p)
      && (forall p, j, k | 0 <= p < |partSlots| && 0 <= j < k < |partSlots[p]| :: partSlots[p][j] != partSlots[p][k])
      && (forall t | 0 <= t < |taskPart| :: taskPart[t] < |partSlots|)
    }

    /** Every partition that runs a hw-task has a slot. */
    ghost predicate Served() {
      forall t | 0 <= t < |taskPart| :: taskPart[t] < |partSlots| && |partSlots[taskPart[t]]| > 0
    }
  }

  // -------------------------------------------------------------- history

  datatype Mark = Mark(req: nat, part: int, ts: int)
  datatype Start = Start(req: nat, slot: nat, wanted: Option<nat>, configured: Option<nat>)
  datatype Load = Load(task: Option<nat>, slot: nat)
  datatype Message = Done | Overrun
  datatype Notice = Notice(req: nat, msg: Message)

  /** What has happened so far, oldest first: arrivals, slots granted, service
      begun (reconfiguration or skip), executions started, bitstreams
      programmed, and notices sent to clients. */
  datatype History = History(arrivals: seq<Mark>, grants: seq<Mark>, serves: seq<Mark>,
                             starts: seq<Start>, loads: seq<Load>, notices: seq<Notice>)

  // ---------------------------------------------------------------- state

  /** `devcfg` is the request being programmed, None when the port is idle;
      `fri` is the reconfiguration queue and `parts[p]` the queue of partition p. */
  datatype State = State(lay: Layout, slots: seq<SlotV>, timers: seq<TimerV>, reqs: seq<ReqV>,
                         devcfg: Option<nat>, fri: seq<nat>, parts: seq<seq<nat>>,
                         banned: set<nat>, clock: int, hist: History)

  /** The state after start-up, with `clients` connected clients. */
  function Init(lay: Layout, clients: nat, now: int): State {
    State(lay,
          seq(|lay.slotPart|, _ => SlotV(Blank, None, None, [Blank])),
          seq(|lay.slotPart|, _ => TimerV(false, None)),
          seq(clients, _ => ReqV(None, None, false, 0)),
          None, [], seq(|lay.partSlots|, _ => []), {}, now,
          History([], [], [], [], [], []))
  }

  /** The partition of the hw-task a request is bound to, -1 when unbound. */
  function PartOf(s: State, r: nat): int {
    if r < |s.reqs| && s.reqs[r].task.Some? && s.reqs[r].task.value < |s.lay.taskPart|
    then s.lay.taskPart[s.reqs[r].task.value]
    else -1
  }

  function MarkOf(s: State, r: nat): Mark
    requires r < |s.reqs|
  {
    Mark(r, PartOf(s, r), s.reqs[r].ts)
  }

  /** The request holds an existing slot. */
  predicate Placed(s: State, r: nat) {
    r < |s.reqs| && s.reqs[r].slot.Some? && s.reqs[r].slot.value < |s.slots|
  }

  /** The shape of a state: every index in it names something. */
  ghost predicate Shape(s: State) {
    && |s.timers| == |s.slots| == |s.lay.slotPart|
    && |s.parts| == |s.lay.partSlots|
    && (forall k | 0 <= k < |s.fri| :: Placed(s, s.fri[k]))
    && (forall p, k | 0 <= p < |s.parts| && 0 <= k < |s.parts[p]| :: s.parts[p][k] < |s.reqs|)
    && (s.devcfg.Some? ==> Placed(s, s.devcfg.value))
  }

  // ------------------------------------------------- reconfiguration queue

  /** The number of leading requests stamped no later than `t`. */
  function NoLater(reqs: seq<ReqV>, q: seq<nat>, t: int): (k: nat)
    requires forall k | 0 <= k < |q| :: q[k] < |reqs|
    ensures k <= |q|
    ensures forall j | 0 <= j < k :: reqs[q[j]].ts <= t
    ensures k < |q| ==> reqs[q[k]].ts > t
  {
    if q == [] || reqs[q[0]].ts > t then 0 else 1 + NoLater(reqs, q[1..], t)
  }

  /** Insert before the first request with a later stamp, behind equal ones. */
  function Ordered(reqs: seq<ReqV>, q: seq<nat>, r: nat): seq<nat>
    requires r < |reqs|
    requires forall k | 0 <= k < |q| :: q[k] < |reqs|
  {
    var k := NoLater(reqs, q, reqs[r].ts);
    q[..k] + [r] + q[k..]
  }

  // ----------------------------------------------------------- transitions

  /** The slot starts executing and its watchdog is armed. */
  function StartExec(s: State, r: nat): (s': State)
    requires |s.timers| == |s.slots| && Placed(s, r)
    ensures Shape(s) ==> Shape(s')
  {
    var i := s.reqs[r].slot.value;
    s.(slots := s.slots[i := s.slots[i].To(Exec).(execReq := Some(r))],
       timers := s.timers[i := TimerV(true, Some(r))],
       hist := s.hist.(starts := s.hist.starts + [Start(r, i, s.reqs[r].task, s.slots[i].hwTask)]))
  }

  /** The port starts loading the bitstream of `r` into its slot. */
  function Program(s: State, r: nat): State
    requires Placed(s, r)
  {
    var i := s.reqs[r].slot.value;
    s.(slots := s.slots[i := s.slots[i].To(Rcfg).(hwTask := s.reqs[r].task)],
       devcfg := Some(r),
       hist := s.hist.(loads := s.hist.loads + [Load(s.reqs[r].task, i)]))
  }

  /** Service begins: execution at once when reconfiguration is skipped. */
  function Begin(s: State, r: nat): (s': State)
    requires |s.timers| == |s.slots| && Placed(s, r)
  {
    var s1 := s.(hist := s.hist.(serves := s.hist.serves + [MarkOf(s, r)]));
    if s.reqs[r].skip then StartExec(s1, r) else Program(s1, r)
  }

  /** The head of the reconfiguration queue is served. */
  function ServeHead(s: State): (s': State)
    requires Shape(s) && |s.fri| > 0
    ensures Shape(s') && s'.fri == s.fri[1..]
  {
    Begin(s.(fri := s.fri[1..]), s.fri[0])
  }

  /** Serve the reconfiguration queue until the port is busy or the queue empty. */
  function Drain(s: State): (s': State)
    requires Shape(s)
    ensures Shape(s')
    ensures s'.devcfg.None? ==> s'.fri == []
    decreases |s.fri|
  {
    if s.devcfg.None? && |s.fri| > 0 then Drain(ServeHead(s)) else s
  }

  /** A slot is reserved to a request; its skip flag is set, never cleared. */
  function Reserve(s: State, r: nat, i: nat, skip: bool): (s': State)
    requires r < |s.reqs| && i < |s.slots|
    ensures Shape(s) ==> Shape(s') && Placed(s', r)
  {
    s.(slots := s.slots[i := s.slots[i].To(Rsrv)],
       reqs := s.reqs[r := s.reqs[r].(slot := Some(i), skip := s.reqs[r].skip || skip)],
       hist := s.hist.(grants := s.hist.grants + [MarkOf(s, r)]))
  }

  /** The request enters the reconfiguration queue. */
  function Enter(s: State, r: nat): (s': State)
    requires r < |s.reqs|
    requires forall k | 0 <= k < |s.fri| :: s.fri[k] < |s.reqs|
    ensures Shape(s) && Placed(s, r) ==> Shape(s')
  {
    s.(fri := Ordered(s.reqs, s.fri, r))
  }

  /** Insertion, then service at once when the port is idle and the request
      came out on top. */
  function PushFri(s: State, r: nat): (s': State)
    requires Shape(s) && Placed(s, r)
    ensures Shape(s')
  {
    var s1 := Enter(s, r);
    if s.devcfg.None? && s1.fri[0] == r then
      Drain(ServeHead(s1))
    else
      s1
  }

  /** A slot and its watchdog are released and the client is notified. */
  function Release(s: State, i: nat, msg: Message): (s': State)
    requires i < |s.slots| && |s.timers| == |s.slots| && s.slots[i].execReq.Some?
    ensures Shape(s) ==> Shape(s')
  {
    var r := s.slots[i].execReq.value;
    s.(slots := s.slots[i := s.slots[i].To(if msg == Done then Idle else Blank)],
       timers := s.timers[i := TimerV(false, if msg == Done then None else s.timers[i].execReq)],
       banned := if msg == Overrun && r < |s.reqs| && s.reqs[r].task.Some? then s.banned + {s.reqs[r].task.value}
                 else s.banned,
       hist := s.hist.(notices := s.hist.notices + [Notice(r, msg)]))
  }

  /** The head of a partition queue leaves it. */
  function Dequeue(s: State, p: nat): (s': State)
    requires p < |s.parts| && |s.parts[p]| > 0
    ensures Shape(s) ==> Shape(s')
  {
    s.(parts := s.parts[p := s.parts[p][1..]])
  }

  /** The slot freed by `done` goes to the first request of its partition queue. */
  function Pull(s: State, done: nat): (s': State)
    requires Shape(s) && Placed(s, done)
    ensures Shape(s')
  {
    var p := PartOf(s, done);
    if 0 <= p < |s.parts| && |s.parts[p]| > 0 then
      var r := s.parts[p][0];
      PushFri(Reserve(Dequeue(s, p), r, s.reqs[done].slot.value, false), r)
    else
      s
  }

  // -------------------------------------------------------- event handlers

  /** A request's fields are overwritten. */
  function Rebind(s: State, r: nat, v: ReqV): State
    requires r < |s.reqs|
  {
    s.(reqs := s.reqs[r := v])
  }

  /** The request is bound to a hw-task and stamped. */
  function Stamp(s: State, r: nat, task: nat, now: int): State
    requires r < |s.reqs|
  {
    Rebind(s, r, ReqV(Some(task), None, false, now)).(clock := now)
  }

  function Arrive(s: State, r: nat): State
    requires r < |s.reqs|
  {
    s.(hist := s.hist.(arrivals := s.hist.arrivals + [MarkOf(s, r)]))
  }

  /** The outcome of the search for a free slot, and whether its
      reconfiguration is to be skipped. */
  datatype Pick = Pick(slot: nat, skip: bool)

  function PushReq(s: State, r: nat, task: nat, now: int, pick: Option<Pick>): (s': State)
    requires Shape(s) && r < |s.reqs| && task < |s.lay.taskPart| && s.lay.taskPart[task] < |s.parts|
    requires pick.Some? ==> pick.value.slot < |s.slots|
    requires r !in s.fri && s.devcfg != Some(r)
    ensures Shape(s')
  {
    var s1 := Arrive(Stamp(s, r, task, now), r);
    match pick
    case None =>
      var p := s.lay.taskPart[task];
      s1.(parts := s1.parts[p := s1.parts[p] + [r]])
    case Some(g) =>
      PushFri(Reserve(s1, r, g.slot, g.skip), r)
  }

  /** The port falls idle and the slot it programmed is re-enabled. */
  function Programmed(s: State): (s': State)
    requires Shape(s) && s.devcfg.Some?
    ensures Shape(s')
  {
    var i := s.reqs[s.devcfg.value].slot.value;
    s.(devcfg := None, slots := s.slots[i := s.slots[i].To(Ready)])
  }

  /** The programmed slot starts executing. */
  function Finished(s: State): (s': State)
    requires Shape(s) && s.devcfg.Some?
    ensures Shape(s')
  {
    StartExec(Programmed(s), s.devcfg.value)
  }

  /** The port has finished programming. */
  function RcfgComplete(s: State): (s': State)
    requires Shape(s) && s.devcfg.Some?
    ensures Shape(s')
  {
    Drain(Finished(s))
  }

  /** A slot has finished executing, or its watchdog has expired. */
  function SlotEnd(s: State, i: nat, msg: Message): (s': State)
    requires Shape(s) && i < |s.slots| && s.slots[i].execReq.Some? && Placed(s, s.slots[i].execReq.value)
    ensures Shape(s')
  {
    Pull(Release(s, i, msg), s.slots[i].execReq.value)
  }
}
