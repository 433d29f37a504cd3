/** The two ends of a client's connection: the library's calls and the server's
    processing of its messages. */
module FredClient {
  import opened Wrappers
  import opened FredState
  import opened SchedInv
  import opened SchedEvents
  import opened FredObjects
  import S = SchedulerFred

  const MAX_HW_TASKS := 128

  /** To the server. Unknown stands for any other head. */
  datatype Request = InitMsg | BindMsg(id: nat) | RunMsg(id: nat) | Unknown

  /** To the client. The buffer list that follows BUFFS is taken with it. */
  datatype Reply = Ack | ErrorMsg | Buffs | DoneMsg | OverrunMsg

  // ---------------------------------------------------------------- library

  datatype CliState = CliError | CliInit | CliIdle | CliAccel

  /** `tasks` lists the identifiers of the bound hw-tasks. */
  datatype Cli = Cli(state: CliState, tasks: seq<nat>)

  datatype Code = Success | ErrReq | ErrMem | ErrComm | ErrInt

  function Fail(c: Cli): Cli {
    c.(state := CliError)
  }

  // What each call does with the answer it waits for; None when the connection
  // is closed.

  function AfterInit(c: Cli, reply: Option<Reply>): (Cli, Code) {
    match reply
    case None => (Fail(c), ErrComm)
    case Some(m) => if m == Ack then (c.(state := CliInit), Success) else (Fail(c), ErrInt)
  }

  predicate MayBind(c: Cli) {
    c.state == CliInit || c.state == CliIdle
  }

  /** What fred_async_accel does when the RUN message can be sent, or not. */
  function AfterAccel(c: Cli, sent: bool): (Cli, Code) {
    if c.state != CliIdle then (c, ErrReq)
    else if !sent then (Fail(c), ErrComm)
    else (c.(state := CliAccel), Success)
  }

  /** fred_free refuses while an acceleration is under way. */
  predicate MayFree(c: Cli) {
    c.state != CliAccel
  }

  /** `mem` says whether the client can allocate the record of the hw-task. */
  function AfterBind(c: Cli, id: nat, reply: Option<Reply>, mem: bool): (Cli, Code) {
    match reply
    case None => (Fail(c), ErrComm)
    case Some(m) =>
      if m != Buffs then (c, ErrReq)
      else if !mem then (Fail(c), ErrMem)
      else (Cli(CliIdle, c.tasks + [id]), Success)
  }

  function AfterWait(c: Cli, reply: Option<Reply>): (Cli, Code) {
    match reply
    case None => (Fail(c), ErrComm)
    case Some(m) => if m == DoneMsg then (c.(state := CliIdle), Success) else (Fail(c), ErrInt)
  }

  /** struct fred_data; `fd` is what connecting to the server answered. Whether a
      message could be sent and the answer received are parameters of the calls. */
  class FredData {
    const fd: int
    var state: CliState
    var tasks: seq<nat>

    function V(): Cli
      reads this
    {
      Cli(state, tasks)
    }

    /** fred_init; freshly allocated the state is CLI_ERROR. */
    constructor (fd: int, sent: bool, reply: Option<Reply>)
      ensures this.fd == fd
      ensures V() == if fd > 0 && sent then AfterInit(Cli(CliError, []), reply).0 else Cli(CliError, [])
      ensures tasks == [] && state == if fd > 0 && sent && reply == Some(Ack) then CliInit else CliError
    {
      this.fd, state, tasks := fd, CliError, [];
      if fd > 0 && sent && reply == Some(Ack) {
        state := CliInit;
      }
    }

    /** `msg` is the message it sends, or tries to send. */
    method Bind(id: nat, sent: bool, reply: Option<Reply>, mem: bool) returns (code: Code, msg: Option<Request>)
      requires |tasks| < MAX_HW_TASKS
      modifies this
      ensures (V(), code) == if !MayBind(old(V())) then (old(V()), ErrReq)
                             else if !sent then (Fail(old(V())), ErrComm)
                             else AfterBind(old(V()), id, reply, mem)
      ensures msg == if old(state) in {CliInit, CliIdle} then Some(BindMsg(id)) else None
      ensures code == Success <==> old(state) in {CliInit, CliIdle} && sent && reply == Some(Buffs) && mem
      ensures if code == Success then state == CliIdle && tasks == old(tasks) + [id] else tasks == old(tasks)
      ensures code == ErrReq <==> msg == None || (sent && reply.Some? && reply != Some(Buffs))
      ensures code == ErrReq ==> state == old(state)
      ensures code == ErrComm <==> msg.Some? && (!sent || reply == None)
      ensures code in {ErrComm, ErrMem} ==> state == CliError
    {
      if !(state == CliInit || state == CliIdle) {
        return ErrReq, None;
      }
      msg := Some(BindMsg(id));
      if !sent || reply.None? {
        state := CliError;
        return ErrComm, msg;
      }
      if reply.value != Buffs {
        return ErrReq, msg;
      }
      if !mem {
        state := CliError;
        return ErrMem, msg;
      }
      tasks := tasks + [id];
      state := CliIdle;
      return Success, msg;
    }

    method AsyncAccel(id: nat, sent: bool) returns (code: Code, msg: Option<Request>)
      modifies this
      ensures (V(), code) == AfterAccel(old(V()), sent)
      ensures msg == (if old(state) == CliIdle then Some(RunMsg(id)) else None) && tasks == old(tasks)
      ensures code == Success <==> old(state) == CliIdle && sent
      ensures code == ErrReq <==> old(state) != CliIdle
      ensures state == if code == Success then CliAccel else if code == ErrReq then old(state) else CliError
    {
      if state != CliIdle {
        return ErrReq, None;
      }
      msg := Some(RunMsg(id));
      if !sent {
        state := CliError;
        return ErrComm, msg;
      }
      state := CliAccel;
      return Success, msg;
    }

    method AsyncWaitForAccel(reply: Option<Reply>) returns (code: Code)
      modifies this
      ensures (V(), code) == if old(state) != CliAccel then (old(V()), ErrReq) else AfterWait(old(V()), reply)
      ensures tasks == old(tasks)
      ensures code == Success <==> old(state) == CliAccel && reply == Some(DoneMsg)
      ensures code == ErrReq <==> old(state) != CliAccel
      ensures code == ErrComm <==> old(state) == CliAccel && reply == None
      ensures code == ErrInt <==> old(state) == CliAccel && reply.Some? && reply != Some(DoneMsg)
      ensures state == if code == Success then CliIdle else if code == ErrReq then old(state) else CliError
    {
      if state != CliAccel {
        return ErrReq;
      }
      if reply.None? {
        state := CliError;
        return ErrComm;
      }
      if reply.value != DoneMsg {
        state := CliError;
        return ErrInt;
      }
      state := CliIdle;
      return Success;
    }

    /** fred_free: the hw-tasks whose buffers it unmaps and whose records it frees,
        and whether it closes the connection. */
    method Free() returns (freed: seq<nat>, closed: bool)
      ensures freed == if state != CliAccel then tasks else []
      ensures closed <==> state != CliAccel && fd > 0
      ensures MayFree(V()) <==> state != CliAccel
    {
      freed := [];
      if state == CliAccel {
        return freed, false;
      }
      for i := 0 to |tasks|
        invariant freed == tasks[..i]
      {
        freed := freed + [tasks[i]];
      }
      closed := fd > 0;
    }
  }

  // ----------------------------------------------------------------- server

  datatype SrvState = ClientEmpty | ClientReady | ClientBusy

  /** `tasks` lists the bound hw-tasks by their position in the system layout. */
  datatype Srv = Srv(state: SrvState, tasks: seq<nat>)

  datatype Action = Send(reply: Reply) | PushTask(task: nat) | Detach

  /** The first of `tasks` with identifier `id`. */
  function Find(ids: seq<nat>, tasks: seq<nat>, id: nat): (t: Option<nat>)
    ensures t.Some? ==> t.value in tasks && t.value < |ids| && ids[t.value] == id
    ensures t.None? ==> forall k | 0 <= k < |tasks| && tasks[k] < |ids| :: ids[tasks[k]] != id
  {
    if tasks == [] then None
    else if tasks[0] < |ids| && ids[tasks[0]] == id then Some(tasks[0])
    else Find(ids, tasks[1..], id)
  }

  function Positions(n: nat): (ts: seq<nat>)
    ensures |ts| == n && forall t | 0 <= t < n :: ts[t] == t
  {
    seq(n, t requires 0 <= t => t)
  }

  /** The system layout's hw-task with identifier `id`. */
  function Lookup(ids: seq<nat>, id: nat): Option<nat> {
    Find(ids, Positions(|ids|), id)
  }

  /** What the outside world does to the handling of a message: whether the data
      buffers can be allocated, and whether the answer can be written. */
  datatype Luck = Luck(alloc: bool, sent: bool)

  /** An answer that cannot be written detaches the client. */
  function Answer(m: Reply, luck: Luck): Action {
    if luck.sent then Send(m) else Detach
  }

  // What the server answers is stated apart from how it finds out.

  /** No two hw-tasks of the system have the same identifier. */
  predicate Distinct(ids: seq<nat>) {
    forall t, u | 0 <= t < u < |ids| :: ids[t] != ids[u]
  }

  /** A RUN for `id` may be pushed: for hw-task `t`, bound and not banned. */
  predicate MayRun(v: Srv, ids: seq<nat>, banned: set<nat>, id: nat, t: nat) {
    v.state == ClientReady && t in v.tasks && t < |ids| && ids[t] == id && t !in banned
  }

  /** A BIND of `id` is granted: for hw-task `t`, known and not banned. */
  predicate MayBindTask(v: Srv, ids: seq<nat>, banned: set<nat>, id: nat, t: nat) {
    v.state == ClientReady && |v.tasks| < MAX_HW_TASKS - 1 && t < |ids| && ids[t] == id && t !in banned
  }

  /** `a` sends `m`, or detaches the client if it cannot be written. */
  predicate Answers(a: Action, m: Reply, luck: Luck) {
    a == if luck.sent then Send(m) else Detach
  }

  /** How message `m` is to be treated: `v'` is the client's record afterwards. */
  ghost predicate Treats(v: Srv, m: Request, ids: seq<nat>, banned: set<nat>, luck: Luck, v': Srv, a: Action) {
    match m
    case InitMsg =>
      if v.state == ClientEmpty then v' == Srv(ClientReady, v.tasks) && Answers(a, Ack, luck)
      else v' == v && Answers(a, ErrorMsg, luck)
    case BindMsg(id) =>
      && (forall t: nat | MayBindTask(v, ids, banned, id, t) ::
            if luck.alloc && luck.sent then v' == Srv(ClientReady, v.tasks + [t]) && a == Send(Buffs)
            else v' == v && a == Detach)
      && ((forall t: nat :: !MayBindTask(v, ids, banned, id, t)) ==> v' == v && Answers(a, ErrorMsg, luck))
    case RunMsg(id) =>
      && v' == v
      && (forall t: nat | MayRun(v, ids, banned, id, t) :: a == PushTask(t))
      && ((forall t: nat :: !MayRun(v, ids, banned, id, t)) ==> Answers(a, ErrorMsg, luck))
    case Unknown => v' == v && Answers(a, ErrorMsg, luck)
  }

  /** How the server treats a message. */
  function Process(v: Srv, m: Request, ids: seq<nat>, banned: set<nat>, luck: Luck): (r: (Srv, Action))
    ensures r.1.PushTask? ==> m.RunMsg? && r.1.task in v.tasks && r.1.task < |ids| && ids[r.1.task] == m.id
    ensures r.1.PushTask? ==> r.1.task !in banned && r.0 == v
    ensures forall t | t in r.0.tasks :: t in v.tasks || t < |ids|
  {
    match m
    case InitMsg =>
      if v.state != ClientEmpty then (v, Answer(ErrorMsg, luck)) else (v.(state := ClientReady), Answer(Ack, luck))
    case BindMsg(id) =>
      if v.state != ClientReady then (v, Answer(ErrorMsg, luck))
      else
        (match Lookup(ids, id)
         case None => (v, Answer(ErrorMsg, luck))
         case Some(t) =>
           if t in banned || |v.tasks| >= MAX_HW_TASKS - 1 then (v, Answer(ErrorMsg, luck))
           else if !luck.alloc || !luck.sent then (v, Detach)
           else (v.(tasks := v.tasks + [t]), Send(Buffs)))
    case RunMsg(id) =>
      if v.state != ClientReady then (v, Answer(ErrorMsg, luck))
      else
        (match Find(ids, v.tasks, id)
         case None => (v, Answer(ErrorMsg, luck))
         case Some(t) => if t in banned then (v, Answer(ErrorMsg, luck)) else (v, PushTask(t)))
    case Unknown => (v, Answer(ErrorMsg, luck))
  }

  /** The lookup finds the only hw-task with the identifier. */
  lemma FindsOnly(ids: seq<nat>, tasks: seq<nat>, id: nat, t: nat)
    requires Distinct(ids) && t in tasks && t < |ids| && ids[t] == id
    ensures Find(ids, tasks, id) == Some(t)
  {
    var k :| 0 <= k < |tasks| && tasks[k] == t;
    assert ids[tasks[k]] == id;
  }

  lemma RunTreats(v: Srv, id: nat, ids: seq<nat>, banned: set<nat>, luck: Luck)
    requires Distinct(ids)
    ensures var r := Process(v, RunMsg(id), ids, banned, luck); Treats(v, RunMsg(id), ids, banned, luck, r.0, r.1)
  {
    forall t: nat | MayRun(v, ids, banned, id, t) ensures Process(v, RunMsg(id), ids, banned, luck).1 == PushTask(t) {
      FindsOnly(ids, v.tasks, id, t);
    }
    var found := Find(ids, v.tasks, id);
    if found.Some? && v.state == ClientReady && found.value !in banned {
      assert MayRun(v, ids, banned, id, found.value);
    }
  }

  lemma BindTreats(v: Srv, id: nat, ids: seq<nat>, banned: set<nat>, luck: Luck)
    requires Distinct(ids)
    ensures var r := Process(v, BindMsg(id), ids, banned, luck); Treats(v, BindMsg(id), ids, banned, luck, r.0, r.1)
  {
    forall t: nat | MayBindTask(v, ids, banned, id, t) ensures Lookup(ids, id) == Some(t) {
      assert Positions(|ids|)[t] == t;
      FindsOnly(ids, Positions(|ids|), id, t);
    }
    var found := Lookup(ids, id);
    if found.Some? && v.state == ClientReady && found.value !in banned && |v.tasks| < MAX_HW_TASKS - 1 {
      assert MayBindTask(v, ids, banned, id, found.value);
    }
  }

  /** So the server treats every message as it is to be treated. */
  lemma ProcessTreats(v: Srv, m: Request, ids: seq<nat>, banned: set<nat>, luck: Luck)
    requires Distinct(ids)
    ensures var r := Process(v, m, ids, banned, luck); Treats(v, m, ids, banned, luck, r.0, r.1)
  {
    match m
    case RunMsg(id) => RunTreats(v, id, ids, banned, luck);
    case BindMsg(id) => BindTreats(v, id, ids, banned, luck);
    case _ =>
  }

  /** What the notification callback sends. */
  function ReplyTo(msg: Message): (m: Reply)
    ensures msg == Done ==> m == DoneMsg
    ensures msg == Overrun ==> m == OverrunMsg
  {
    if msg == Done then DoneMsg else OverrunMsg
  }

  /** The arrival of `r` takes `s` to `s'`, if all went well, with some answer
      `at` of the slot search. */
  ghost predicate PushedAt(s: State, s': State, r: nat, task: nat, now: int, mode: S.Mode, ok: bool, at: int) {
    && Inv(s) && task < |s.lay.taskPart| && S.Answer(s, task, at)
    && var e := Push(r, task, now, S.PickOf(s, task, at, mode));
       Enabled(s, e) && (ok ==> s' == Step(s, e))
  }

  ghost predicate Pushed(s: State, s': State, r: nat, task: nat, now: int, mode: S.Mode, ok: bool) {
    exists at: int :: PushedAt(s, s', r, task, now, mode, ok, at)
  }

  /** What came of an action on the request `r`: the reply, the result, and the
      scheduler's state; `ok` says that no driver call failed. */
  ghost predicate Came(s: State, s': State, r: nat, now: int, mode: S.Mode, action: Action,
                       ret: int, reply: Option<Reply>, ok: bool)
  {
    match action
    case Send(m) => ret == 0 && reply == Some(m) && s' == s
    case Detach => ret == 1 && reply == None && s' == s
    case PushTask(t) => ret == (if ok then 0 else -1) && reply == None && Pushed(s, s', r, t, now, mode, ok)
  }

  /** The reply and the result by which an action other than a push shows. */
  predicate Told(a: Action, ret: int, reply: Option<Reply>) {
    match a
    case Send(m) => ret == 0 && reply == Some(m)
    case Detach => ret == 1 && reply == None
    case PushTask(_) => false
  }

  /** The message has been treated as it is to be, with what came of it. */
  ghost predicate Treated(v: Srv, m: Request, ids: seq<nat>, banned: set<nat>, luck: Luck, v': Srv,
                          s: State, s': State, r: nat, now: int, mode: S.Mode, ret: int, reply: Option<Reply>, ok: bool)
  {
    exists a: Action :: Treats(v, m, ids, banned, luck, v', a) && Came(s, s', r, now, mode, a, ret, reply, ok)
  }

  lemma ProcessIsTreated(v: Srv, m: Request, ids: seq<nat>, banned: set<nat>, luck: Luck, v': Srv,
                         s: State, s': State, r: nat, now: int, mode: S.Mode, ret: int, reply: Option<Reply>, ok: bool)
    requires Distinct(ids)
    requires var (v1, a) := Process(v, m, ids, banned, luck); v' == v1 && Came(s, s', r, now, mode, a, ret, reply, ok)
    ensures Treated(v, m, ids, banned, luck, v', s, s', r, now, mode, ret, reply, ok)
  {
    ProcessTreats(v, m, ids, banned, luck);
    var a := Process(v, m, ids, banned, luck).1;
    assert Treats(v, m, ids, banned, luck, v', a);
  }

  /** `s1` is `s` with request `r` bound to a hw-task. */
  ghost predicate BoundTo(s: State, s1: State, r: nat, task: nat) {
    r < |s.reqs| && s1 == Rebind(s, r, ReqV(Some(task), None, false, s.reqs[r].ts))
  }

  lemma BoundIsReady(s: State, s1: State, r: nat, task: nat, now: int)
    requires Inv(s) && Nowhere(s, r) && BoundTo(s, s1, r, task)
    ensures Inv(s1) && Nowhere(s1, r) && r < |s1.reqs| && s1.reqs[r] == ReqV(Some(task), None, false, s.reqs[r].ts)
    ensures s1.lay == s.lay && s1.clock == s.clock && s1.slots == s.slots
  {
    RebindKeeps(s, r, ReqV(Some(task), None, false, s.reqs[r].ts));
  }

  lemma BoundStep(s: State, s1: State, e: Event)
    requires Inv(s) && Inv(s1) && e.Push? && BoundTo(s, s1, e.req, e.task) && Nowhere(s, e.req) && Enabled(s1, e)
    ensures Enabled(s, e) && Step(s, e) == Step(s1, e)
  {
    NowhereIsNotLive(s, e.req);
    assert Stamp(s1, e.req, e.task, e.now) == Stamp(s, e.req, e.task, e.now);
  }

  lemma BoundAnswer(s: State, s1: State, task: nat, at: int, mode: S.Mode)
    requires S.Answer(s1, task, at) && s1.slots == s.slots && s1.lay == s.lay
    ensures S.Answer(s, task, at) && S.PickOf(s, task, at, mode) == S.PickOf(s1, task, at, mode)
  {
  }

  /** An arrival overwrites whatever the request was bound to. */
  lemma BoundPushed(s: State, s1: State, s': State, r: nat, task: nat, now: int, mode: S.Mode, ok: bool, at: int)
    requires Inv(s) && Inv(s1) && Nowhere(s, r) && BoundTo(s, s1, r, task)
    requires PushedAt(s1, s', r, task, now, mode, ok, at)
    ensures Pushed(s, s', r, task, now, mode, ok)
  {
    BoundAnswer(s, s1, task, at, mode);
    BoundStep(s, s1, Push(r, task, now, S.PickOf(s1, task, at, mode)));
    assert PushedAt(s, s', r, task, now, mode, ok, at);
  }

  function HwIds(tasks: seq<HwTask>): (ids: seq<nat>)
    ensures |ids| == |tasks| && forall t | 0 <= t < |tasks| :: ids[t] == tasks[t].hwId
  {
    seq(|tasks|, t requires 0 <= t < |tasks| => tasks[t].hwId)
  }

  function TaskIds(tasks: seq<HwTask>): (ids: seq<nat>)
    ensures |ids| == |tasks| && forall t | 0 <= t < |tasks| :: ids[t] == tasks[t].id
  {
    seq(|tasks|, t requires 0 <= t < |tasks| => tasks[t].id)
  }

  /** The search loop both lookups share: `from` are positions in `all`. */
  method Search(all: seq<HwTask>, from: seq<HwTask>, id: nat) returns (task: HwTask?)
    requires forall k | 0 <= k < |from| :: from[k].id < |all| && all[from[k].id] == from[k]
    ensures TaskId(task) == Find(HwIds(all), TaskIds(from), id)
    ensures task != null ==> task in from
  {
    for i := 0 to |from|
      invariant Find(HwIds(all), TaskIds(from), id) == Find(HwIds(all), TaskIds(from)[i..], id)
    {
      if from[i].hwId == id {
        return from[i];
      }
      assert TaskIds(from)[i..][1..] == TaskIds(from)[i + 1..];
    }
    task := null;
  }

  /** struct sw_task_client. `sched.tasks` are the system layout's hw-tasks. */
  class SwTaskClient {
    var state: SrvState
    var tasks: seq<HwTask>
    const req: AccelReq
    const sched: S.Scheduler

    constructor (sched: S.Scheduler, req: AccelReq)
      requires sched.KnownReq(req)
      ensures this.sched == sched && this.req == req && Known() && V() == Srv(ClientEmpty, [])
    {
      this.sched, this.req, state, tasks := sched, req, ClientEmpty, [];
      new;
      assert TaskIds([]) == [];
    }

    ghost predicate Known()
      reads this
    {
      sched.KnownReq(req) && forall k | 0 <= k < |tasks| :: sched.KnownTask(tasks[k])
    }

    ghost function V(): Srv
      reads this
    {
      Srv(state, TaskIds(tasks))
    }

    /** What a push asks for: the scheduler between two events, the request not
        live, and a clock that has not run backwards. */
    ghost predicate MayPush(now: Timespec)
      reads sched
    {
      Inv(sched.view) && Nowhere(sched.view, req.id) && now.Valid() && Nanos(now) >= sched.view.clock
    }

    /** Processes a message: it answers with `reply`, or pushes the request. The
        result is 0, 1 to detach the client, or -1 when a driver call fails. */
    method ProcessMsg(m: Request, now: Timespec, luck: Luck) returns (ret: int, reply: Option<Reply>)
      requires Known() && sched.Built() && sched.Valid()
      requires Process(V(), m, HwIds(sched.tasks), sched.view.banned, luck).1.PushTask? ==> MayPush(now)
      modifies this, sched`view, sched`fri, sched`parts, sched.slots, sched.timers, sched.reqs, sched.devcfg, sched.hw
      ensures Known() && (ret >= 0 ==> sched.Valid())
      ensures var (v', action) := Process(old(V()), m, HwIds(sched.tasks), old(sched.view).banned, luck);
              && V() == v'
              && Came(old(sched.view), sched.view, req.id, Nanos(now), sched.mode, action, ret, reply,
                      sched.hw.AllOk(old(sched.hw.calls)))
      ensures Treated(old(V()), m, HwIds(sched.tasks), old(sched.view).banned, luck, V(), old(sched.view), sched.view,
                      req.id, Nanos(now), sched.mode, ret, reply, sched.hw.AllOk(old(sched.hw.calls)))
    {
      ghost var v, s, calls := V(), sched.view, sched.hw.calls;
      ret, reply := Dispatch(m, now, luck);
      ProcessIsTreated(v, m, HwIds(sched.tasks), s.banned, luck, V(), s, sched.view, req.id, Nanos(now), sched.mode,
                       ret, reply, sched.hw.AllOk(calls));
    }

    /** The switch over the message's head. */
    method Dispatch(m: Request, now: Timespec, luck: Luck) returns (ret: int, reply: Option<Reply>)
      requires Known() && sched.Built() && sched.Valid()
      requires Process(V(), m, HwIds(sched.tasks), sched.view.banned, luck).1.PushTask? ==> MayPush(now)
      modifies this, sched`view, sched`fri, sched`parts, sched.slots, sched.timers, sched.reqs, sched.devcfg, sched.hw
      ensures Known() && (ret >= 0 ==> sched.Valid())
      ensures var (v', action) := Process(old(V()), m, HwIds(sched.tasks), old(sched.view).banned, luck);
              && V() == v'
              && Came(old(sched.view), sched.view, req.id, Nanos(now), sched.mode, action, ret, reply,
                      sched.hw.AllOk(old(sched.hw.calls)))
    {
      match m
      case InitMsg =>
        ret, reply := InitTask(luck);
      case BindMsg(id) =>
        if state == ClientReady {
          ret, reply := BindTask(id, luck);
        } else {
          ret, reply := SendReply(ErrorMsg, luck);
        }
      case RunMsg(id) =>
        if state == ClientReady {
          ret, reply := RunTask(id, now, luck);
        } else {
          ret, reply := SendReply(ErrorMsg, luck);
        }
      case Unknown =>
        ret, reply := SendReply(ErrorMsg, luck);
    }

    method InitTask(luck: Luck) returns (ret: int, reply: Option<Reply>)
      modifies this`state
      ensures var (v', action) := Process(old(V()), InitMsg, HwIds(sched.tasks), {}, luck);
              && V() == v' && !action.PushTask? && reply == (if action.Send? then Some(action.reply) else None)
              && ret == (if action.Detach? then 1 else 0)
      ensures state == if old(state) == ClientEmpty then ClientReady else old(state)
      ensures luck.sent ==> ret == 0 && reply == Some(if old(state) == ClientEmpty then Ack else ErrorMsg)
      ensures !luck.sent ==> ret == 1 && reply == None
    {
      ret, reply := SendReply(if state == ClientEmpty then Ack else ErrorMsg, luck);
      if state == ClientEmpty {
        state := ClientReady;
      }
    }

    /** The notification callback, called when an execution has ended. */
    method NotifyAction(msg: Message, luck: Luck) returns (ret: int, reply: Option<Reply>)
      ensures luck.sent ==> ret == 0 && reply == Some(if msg == Overrun then OverrunMsg else DoneMsg)
      ensures !luck.sent ==> ret == 1 && reply == None
    {
      match msg
      case Done =>
        ret, reply := SendReply(DoneMsg, luck);
      case Overrun =>
        ret, reply := SendReply(OverrunMsg, luck);
    }

    method SendReply(m: Reply, luck: Luck) returns (ret: int, reply: Option<Reply>)
      ensures ret == (if luck.sent then 0 else 1) && reply == (if luck.sent then Some(m) else None)
    {
      if luck.sent {
        return 0, Some(m);
      }
      return 1, None;
    }

    method BindTask(id: nat, luck: Luck) returns (ret: int, reply: Option<Reply>)
      requires Known() && sched.Built() && sched.Valid() && state == ClientReady
      modifies this
      ensures Known()
      ensures var (v', action) := Process(old(V()), BindMsg(id), HwIds(sched.tasks), sched.view.banned, luck);
              && V() == v' && !action.PushTask? && reply == (if action.Send? then Some(action.reply) else None)
              && ret == (if action.Detach? then 1 else 0)
      ensures exists a: Action :: Told(a, ret, reply)
                && Treats(old(V()), BindMsg(id), HwIds(sched.tasks), sched.view.banned, luck, V(), a)
    {
      ProcessTreats(V(), BindMsg(id), HwIds(sched.tasks), sched.view.banned, luck);
      ghost var a := Process(V(), BindMsg(id), HwIds(sched.tasks), sched.view.banned, luck).1;
      assert Told(a, if a.Detach? then 1 else 0, if a.Send? then Some(a.reply) else None);
      var task := Search(sched.tasks, sched.tasks, id);
      assert TaskIds(sched.tasks) == Positions(|sched.tasks|);
      if task == null || task.banned || |tasks| >= MAX_HW_TASKS - 1 {
        ret, reply := SendReply(ErrorMsg, luck);
        return;
      }
      if !luck.alloc {
        return 1, None;
      }
      ret, reply := SendReply(Buffs, luck);
      if ret == 0 {
        assert TaskIds(tasks + [task]) == TaskIds(tasks) + [task.id];
        tasks := tasks + [task];
      }
    }

    method RunTask(id: nat, now: Timespec, luck: Luck) returns (ret: int, reply: Option<Reply>)
      requires Known() && sched.Built() && sched.Valid() && state == ClientReady
      requires Process(V(), RunMsg(id), HwIds(sched.tasks), sched.view.banned, luck).1.PushTask? ==> MayPush(now)
      modifies sched`view, sched`fri, sched`parts, sched.slots, sched.timers, sched.reqs, sched.devcfg, sched.hw
      ensures ret >= 0 ==> sched.Valid()
      ensures var action := Process(V(), RunMsg(id), HwIds(sched.tasks), old(sched.view).banned, luck).1;
              Came(old(sched.view), sched.view, req.id, Nanos(now), sched.mode, action, ret, reply,
                   sched.hw.AllOk(old(sched.hw.calls)))
      ensures Treated(V(), RunMsg(id), HwIds(sched.tasks), old(sched.view).banned, luck, V(), old(sched.view), sched.view,
                      req.id, Nanos(now), sched.mode, ret, reply, sched.hw.AllOk(old(sched.hw.calls)))
    {
      ghost var s, calls := sched.view, sched.hw.calls;
      ret, reply := RunIfBound(id, now, luck);
      ProcessIsTreated(V(), RunMsg(id), HwIds(sched.tasks), s.banned, luck, V(), s, sched.view, req.id, Nanos(now),
                       sched.mode, ret, reply, sched.hw.AllOk(calls));
    }

    method RunIfBound(id: nat, now: Timespec, luck: Luck) returns (ret: int, reply: Option<Reply>)
      requires Known() && sched.Built() && sched.Valid() && state == ClientReady
      requires Process(V(), RunMsg(id), HwIds(sched.tasks), sched.view.banned, luck).1.PushTask? ==> MayPush(now)
      modifies sched`view, sched`fri, sched`parts, sched.slots, sched.timers, sched.reqs, sched.devcfg, sched.hw
      ensures ret >= 0 ==> sched.Valid()
      ensures var action := Process(V(), RunMsg(id), HwIds(sched.tasks), old(sched.view).banned, luck).1;
              Came(old(sched.view), sched.view, req.id, Nanos(now), sched.mode, action, ret, reply,
                   sched.hw.AllOk(old(sched.hw.calls)))
    {
      var task := Runnable(id);
      if task == null {
        ret, reply := SendReply(ErrorMsg, luck);
      } else {
        var ok := Run(task, now);
        ret, reply := if ok then 0 else -1, None;
      }
    }

    /** The bound hw-task to run, null if there is none or it is banned. */
    method Runnable(id: nat) returns (task: HwTask?)
      requires Known() && sched.Valid()
      ensures var t := Find(HwIds(sched.tasks), V().tasks, id);
              TaskId(task) == if t.Some? && t.value !in sched.view.banned then t else None
      ensures task != null ==> sched.KnownTask(task)
    {
      task := Search(sched.tasks, tasks, id);
      if task != null && task.banned {
        task := null;
      }
    }

    /** The request is unbound, bound to the hw-task and passed to the scheduler. */
    method Run(task: HwTask, now: Timespec) returns (ok: bool)
      requires Known() && sched.Built() && sched.Valid() && sched.KnownTask(task) && MayPush(now)
      modifies sched`view, sched`fri, sched`parts, sched.slots, sched.timers, sched.reqs, sched.devcfg, sched.hw
      ensures ok == sched.hw.AllOk(old(sched.hw.calls)) && (ok ==> sched.Valid())
      ensures Pushed(old(sched.view), sched.view, req.id, task.id, Nanos(now), sched.mode, ok)
    {
      ghost var s := sched.view;
      ghost var at;
      BindReq(task);
      ghost var s1 := sched.view;
      BoundIsReady(s, s1, req.id, task.id, Nanos(now));
      ok, at := sched.PushAccelReq(req, now);
      assert PushedAt(s1, sched.view, req.id, task.id, Nanos(now), sched.mode, ok, at);
      BoundPushed(s, s1, sched.view, req.id, task.id, Nanos(now), sched.mode, ok, at);
    }

    method BindReq(task: HwTask)
      requires Known() && sched.Built() && sched.Valid() && sched.KnownTask(task)
      modifies sched`view, req
      ensures sched.Valid() && BoundTo(old(sched.view), sched.view, req.id, task.id)
    {
      assert req.V() == sched.view.reqs[req.id];
      req.Unbind();
      req.hwTask := task;
      sched.view := Rebind(sched.view, req.id, req.V());
    }
  }
}
