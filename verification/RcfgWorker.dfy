/** The kernel's reconfiguration worker and the driver calls of the server that
    feed it, interleaved step by step. */
module RcfgWorker {
  import Runs

  /** A bitstream in physical memory. */
  datatype Bits = Bits(addr: nat, size: nat)

  /** Where the server stands in devcfg_drv_start_rcfg: it writes the address,
      the size and the start attribute; the start store checks, marks the port
      busy and completes the worker's completion. In Prog it waits for the done
      notification; a failed write halts it. */
  datatype Server = Idle | Addr(b: Bits) | Size(b: Bits) | Check(b: Bits) | Mark(b: Bits) | Complete(b: Bits)
                  | Prog | Halted

  datatype Worker = Wait | Load | Notify | Reinit | Clear | Dead

  /** How a load ends: the clock cannot be enabled, the firmware reports an
      error, or it succeeds. */
  datatype Outcome = NoClock | Failed | Succeeded

  /** What the worker tried to load, and how that ended. */
  datatype Try = Try(bits: Bits, out: Outcome)

  /** The bitstreams loaded with success. */
  function Loaded(tries: seq<Try>): seq<Bits> {
    if tries == [] then []
    else Loaded(tries[..|tries| - 1]) + (if tries[|tries| - 1].out.Succeeded? then [tries[|tries| - 1].bits] else [])
  }

  /** `done` counts the completion, `note` says that a done notification is
      pending; `accepted` and `tries` record the starts accepted and the loads
      tried. `encrypted` is the flag that makes every start fail. */
  datatype Link = Link(addr: nat, size: nat, encrypted: bool, rcfg: bool, done: nat, note: bool,
                       srv: Server, wrk: Worker, accepted: seq<Bits>, tries: seq<Try>)
  {
    /** What has really been loaded. */
    function Loads(): seq<Bits> {
      Loaded(tries)
    }
  }

  function Boot(encrypted: bool): Link {
    Link(0, 0, encrypted, false, 0, false, Idle, Wait, [], [])
  }

  datatype Act = Submit(b: Bits) | ServerStep | TakeNote | WorkerStep(out: Outcome)

  predicate CanAct(l: Link, a: Act) {
    match a
    case Submit(_) => l.srv.Idle?
    case ServerStep => !l.srv.Idle? && !l.srv.Prog? && !l.srv.Halted?
    case TakeNote => l.srv.Prog? && l.note
    case WorkerStep(_) => !l.wrk.Dead? && (l.wrk.Wait? ==> l.done > 0)
  }

  /** The start store's answer: zero, or the error. */
  datatype Answer = Accepted | Invalid | NoSuchDevice | BusyPort

  function StartStore(l: Link): Answer {
    if l.addr == 0 || l.size == 0 then Invalid
    else if l.encrypted then NoSuchDevice
    else if l.rcfg then BusyPort
    else Accepted
  }

  function Next(l: Link, a: Act): Link
    requires CanAct(l, a)
  {
    match a
    case Submit(b) => l.(srv := Addr(b))
    case TakeNote => l.(note := false, srv := Idle)
    case ServerStep => ServerNext(l)
    case WorkerStep(out) => WorkerNext(l, out)
  }

  function ServerNext(l: Link): Link
    requires CanAct(l, ServerStep)
  {
    match l.srv
    case Addr(b) => l.(addr := b.addr, srv := Size(b))
    case Size(b) => l.(size := b.size, srv := Check(b))
    case Check(b) => l.(srv := if StartStore(l).Accepted? then Mark(b) else Halted)
    case Mark(b) => l.(rcfg := true, accepted := l.accepted + [b], srv := Complete(b))
    case Complete(b) => l.(done := l.done + 1, srv := Prog)
  }

  function WorkerNext(l: Link, out: Outcome): Link
    requires CanAct(l, WorkerStep(out))
  {
    match l.wrk
    case Wait => l.(done := l.done - 1, wrk := Load)
    case Load =>
      l.(tries := l.tries + [Try(Bits(l.addr, l.size), out)], wrk := if out.Succeeded? then Notify else Dead)
    case Notify => l.(note := true, wrk := Reinit)
    case Reinit => l.(done := 0, wrk := Clear)
    case Clear => l.(rcfg := false, wrk := Wait)
  }

  // -------------------------------------------------------------- invariant

  /** The last accepted start has not been loaded; its bitstream stands in the
      address and size the worker will read. */
  predicate Owing(l: Link, loads: seq<Bits>) {
    && |l.accepted| > 0 && loads == l.accepted[..|l.accepted| - 1]
    && Bits(l.addr, l.size) == l.accepted[|l.accepted| - 1]
  }

  /** What the server has written so far. */
  predicate Written(l: Link) {
    match l.srv
    case Size(b) => l.addr == b.addr
    case Check(b) => Bits(l.addr, l.size) == b
    case Mark(b) => Bits(l.addr, l.size) == b && StartStore(l).Accepted?
    case Complete(b) => Bits(l.addr, l.size) == b && |l.accepted| > 0 && l.accepted[|l.accepted| - 1] == b
    case _ => true
  }

  /** The server waits and its notification is not yet sent, or it does not wait
      for one. */
  predicate Handshake(l: Link, loads: seq<Bits>) {
    match l.wrk
    case Wait =>
      if l.srv.Complete? then l.rcfg && l.done == 0 && !l.note && Owing(l, loads)
      else if l.done > 0 then l.rcfg && l.done == 1 && l.srv.Prog? && !l.note && Owing(l, loads)
      else !l.rcfg && (l.note <==> l.srv.Prog?) && loads == l.accepted
    case Load => l.rcfg && l.done == 0 && l.srv.Prog? && !l.note && Owing(l, loads)
    case Notify => l.rcfg && l.done == 0 && l.srv.Prog? && !l.note && loads == l.accepted
    case Dead => l.rcfg && l.done == 0 && l.srv.Prog? && !l.note && Owing(l, loads)
    case _ =>
      l.rcfg && l.done == 0 && !l.srv.Mark? && !l.srv.Complete? && (l.note <==> l.srv.Prog?) && loads == l.accepted
  }

  predicate Succeeds(tries: seq<Try>) {
    forall k | 0 <= k < |tries| :: tries[k].out.Succeeded?
  }

  /** The worker has stopped exactly if its last load failed; all others succeeded. */
  predicate Tried(l: Link) {
    if l.wrk.Dead? then |l.tries| > 0 && Succeeds(l.tries[..|l.tries| - 1]) && !l.tries[|l.tries| - 1].out.Succeeded?
    else Succeeds(l.tries) && (Announced(l) ==> |l.tries| > 0)
  }

  /** A notification is pending, about to be sent or has just been sent. */
  predicate Announced(l: Link) {
    l.note || l.wrk.Notify? || l.wrk.Reinit? || l.wrk.Clear?
  }

  predicate Inv(l: Link) {
    Written(l) && Handshake(l, l.Loads()) && Tried(l)
  }

  lemma LoadedOn(tries: seq<Try>, t: Try)
    ensures Loaded(tries + [t]) == Loaded(tries) + (if t.out.Succeeded? then [t.bits] else [])
  {
    assert (tries + [t])[..|tries|] == tries;
  }

  lemma MarkKeeps(l: Link)
    requires Inv(l) && l.srv.Mark?
    ensures Inv(ServerNext(l))
  {
    assert (l.accepted + [l.srv.b])[..|l.accepted|] == l.accepted;
  }

  lemma LoadKeeps(l: Link, out: Outcome)
    requires Inv(l) && l.wrk.Load?
    ensures Inv(WorkerNext(l, out))
  {
    var t := Try(Bits(l.addr, l.size), out);
    LoadedOn(l.tries, t);
    assert (l.tries + [t])[..|l.tries|] == l.tries;
    assert l.Loads() + [t.bits] == l.accepted;
  }

  lemma OthersKeep(l: Link, a: Act, loads: seq<Bits>)
    requires Written(l) && Handshake(l, loads) && Tried(l) && CanAct(l, a)
    requires !(a == ServerStep && l.srv.Mark?) && !(a.WorkerStep? && l.wrk.Load?)
    ensures Written(Next(l, a)) && Handshake(Next(l, a), loads) && Tried(Next(l, a)) && Next(l, a).tries == l.tries
  {
  }

  lemma NextKeeps(l: Link, a: Act)
    requires Inv(l) && CanAct(l, a)
    ensures Inv(Next(l, a))
  {
    if a == ServerStep && l.srv.Mark? {
      MarkKeeps(l);
    } else if a.WorkerStep? && l.wrk.Load? {
      LoadKeeps(l, a.out);
    } else {
      OthersKeep(l, a, l.Loads());
    }
  }

  lemma {:induction false} AllLoaded(tries: seq<Try>)
    requires Succeeds(tries)
    ensures |Loaded(tries)| == |tries| && forall k | 0 <= k < |tries| :: tries[k] == Try(Loaded(tries)[k], Succeeded)
  {
    if tries != [] {
      AllLoaded(tries[..|tries| - 1]);
    }
  }

  /** The tries are the loads, and one more if the worker has stopped. */
  lemma TriesAreLoads(l: Link)
    requires Tried(l)
    ensures var n := |l.Loads()|;
      && n <= |l.tries| && |l.tries| == n + (if l.wrk.Dead? then 1 else 0)
      && (forall k | 0 <= k < n :: l.tries[k] == Try(l.Loads()[k], Succeeded))
      && (l.wrk.Dead? ==> l.tries[n].out != Succeeded)
  {
    if l.wrk.Dead? {
      AllLoaded(l.tries[..|l.tries| - 1]);
      assert forall k | 0 <= k < |l.tries| - 1 :: l.tries[k] == l.tries[..|l.tries| - 1][k];
    } else {
      AllLoaded(l.tries);
    }
  }

  ghost function Boots(): Link -> bool {
    (l: Link) => exists encrypted: bool :: l == Boot(encrypted)
  }

  ghost function Takes(): (Link, Act, Link) -> bool {
    (l: Link, a: Act, l': Link) => CanAct(l, a) && l' == Next(l, a)
  }

  /** Some interleaving leads to `l`. */
  ghost predicate Reachable(l: Link) {
    Runs.Reachable(Boots(), Takes(), l)
  }

  ghost function Known(): Link -> bool {
    (l: Link) => Inv(l)
  }

  lemma KnownIsClosed()
    ensures Runs.Closed(Boots(), Takes(), Known())
  {
    forall l: Link, a: Act, l': Link | Takes()(l, a, l') && Known()(l) ensures Known()(l') {
      NextKeeps(l, a);
    }
  }

  lemma ReachableInv(l: Link)
    requires Reachable(l)
    ensures Inv(l)
  {
    KnownIsClosed();
    assert Known()(l);
  }

  // ---------------------------------------------------------------- theorems

  /** Every accepted start is loaded with success at most once, in order and with
      its own bitstream, at most the last one being still to come, or failed; a load
      in progress reads the bitstream accepted last. */
  lemma LoadsAreAccepted(l: Link)
    requires Reachable(l)
    ensures var n := |l.Loads()|; n <= |l.accepted| <= n + 1 && l.Loads() == l.accepted[..n]
    ensures l.wrk.Load? ==> |l.accepted| == |l.Loads()| + 1 && Bits(l.addr, l.size) == l.accepted[|l.Loads()|]
  {
    ReachableInv(l);
  }

  /** A load that fails is never announced: where a notification is pending, about
      to be sent or just sent, the last load succeeded. Only the last can have
      failed, and the worker has then stopped. */
  lemma OnlySuccessIsAnnounced(l: Link)
    requires Reachable(l)
    ensures l.note || l.wrk.Notify? || l.wrk.Reinit? || l.wrk.Clear? ==>
              |l.tries| > 0 && l.tries[|l.tries| - 1].out == Succeeded
    ensures forall k | 0 <= k < |l.tries| - 1 :: l.tries[k].out == Succeeded
    ensures l.wrk.Dead? <==> |l.tries| > 0 && l.tries[|l.tries| - 1].out != Succeeded
  {
    ReachableInv(l);
    if l.wrk.Dead? {
      assert forall k | 0 <= k < |l.tries| - 1 :: l.tries[..|l.tries| - 1][k] == l.tries[k];
    }
  }

  /** From such a failure on nothing happens any more: the server waits for a
      notification that never comes. */
  lemma FailureIsFinal(l: Link, acts: seq<Act>, l': Link)
    requires Reachable(l) && |l.tries| > 0 && l.tries[|l.tries| - 1].out != Succeeded
    requires Runs.Leads(l, Takes(), acts, l')
    ensures acts == [] && l' == l && l.wrk == Dead && l.srv == Prog && !l.note
    ensures forall a :: !CanAct(l, a)
  {
    OnlySuccessIsAnnounced(l);
    ReachableInv(l);
    var p: (seq<Act>, Link) -> bool := (es: seq<Act>, l1: Link) => es == [] && l1 == l;
    assert p(acts, l');
  }

  /** What is tried in each step that loads, by how it ends. */
  function Attempts(ls: seq<Link>, acts: seq<Act>): seq<Try>
    requires |ls| >= |acts|
  {
    if acts == [] then []
    else
      var n := |acts| - 1;
      Attempts(ls, acts[..n])
        + (if acts[n].WorkerStep? && ls[n].wrk.Load? then [Try(Bits(ls[n].addr, ls[n].size), acts[n].out)] else [])
  }

  lemma {:induction false} AttemptsPrefix(ls: seq<Link>, acts: seq<Act>, m: nat)
    requires |acts| <= m <= |ls|
    ensures Attempts(ls[..m], acts) == Attempts(ls, acts)
  {
    if acts != [] {
      AttemptsPrefix(ls, acts[..|acts| - 1], m);
    }
  }

  lemma StepTries(l: Link, a: Act)
    requires CanAct(l, a)
    ensures Next(l, a).tries
            == l.tries + (if a.WorkerStep? && l.wrk.Load? then [Try(Bits(l.addr, l.size), a.out)] else [])
  {
  }

  /** The record of a run's loads is true: each step that loads adds what stands in
      address and size then, with the outcome that step had, and nothing else adds. */
  lemma {:induction false} TriesAreAttempts(ls: seq<Link>, acts: seq<Act>)
    requires Runs.Trace(Takes(), ls, acts) && ls[0].tries == []
    ensures ls[|acts|].tries == Attempts(ls, acts)
    decreases |acts|
  {
    if acts != [] {
      var n := |acts| - 1;
      Runs.TracePrefix(Takes(), ls, acts);
      TriesAreAttempts(ls[..|acts|], acts[..n]);
      AttemptsPrefix(ls, acts[..n], |acts|);
      StepTries(ls[n], acts[n]);
    }
  }

  /** Reinitialising the completion never discards a start: nothing is pending
      then, and a pending start finds the worker waiting for it. */
  lemma NoStartDiscarded(l: Link)
    requires Reachable(l)
    ensures l.wrk.Reinit? ==> l.done == 0
    ensures l.done > 0 ==> l.done == 1 && l.wrk.Wait? && CanAct(l, WorkerStep(Succeeded))
  {
    ReachableInv(l);
  }

  /** A start issued after a done notification is refused, and the server halts,
      exactly when the bitstream is empty, encryption is on, or the worker has not
      yet cleared its busy flag. */
  lemma StartRefusedIff(l: Link)
    requires Reachable(l) && l.srv.Check?
    ensures Next(l, ServerStep).srv.Halted? <==>
              l.srv.b.addr == 0 || l.srv.b.size == 0 || l.encrypted || l.wrk.Reinit? || l.wrk.Clear?
    ensures StartStore(l) == Invalid <==> l.srv.b.addr == 0 || l.srv.b.size == 0
    ensures StartStore(l) == NoSuchDevice <==> l.srv.b.addr > 0 && l.srv.b.size > 0 && l.encrypted
  {
    ReachableInv(l);
  }

  lemma ReachableNext(l: Link, a: Act) returns (l': Link)
    requires Reachable(l) && CanAct(l, a)
    ensures l' == Next(l, a) && Reachable(l')
  {
    l' := Next(l, a);
    assert Takes()(l, a, l');
    Runs.StepIsReachable(Boots(), Takes(), l, a, l');
  }

  /** A first start, as far as its notification. */
  lemma FirstLoad(b: Bits) returns (l: Link)
    requires b.addr > 0 && b.size > 0
    ensures Reachable(l) && l == Link(b.addr, b.size, false, true, 0, true, Prog, Reinit, [b], [Try(b, Succeeded)])
  {
    l := Boot(false);
    assert Boots()(l);
    Runs.BootIsReachable(Boots(), Takes(), l);
    l := ReachableNext(l, Submit(b));
    l := ReachableNext(l, ServerStep);
    l := ReachableNext(l, ServerStep);
    l := ReachableNext(l, ServerStep);
    l := ReachableNext(l, ServerStep);
    l := ReachableNext(l, ServerStep);
    l := ReachableNext(l, WorkerStep(Succeeded));
    l := ReachableNext(l, WorkerStep(Succeeded));
    l := ReachableNext(l, WorkerStep(Succeeded));
  }

  /** Such a run: the worker notifies before it clears the flag, the server starts
      the next reconfiguration in between, and is refused. */
  lemma RefusedAfterDone(b: Bits, c: Bits) returns (l: Link)
    requires b.addr > 0 && b.size > 0 && c.addr > 0 && c.size > 0
    ensures Reachable(l) && l.srv == Check(c) && l.tries == [Try(b, Succeeded)] && l.accepted == [b] && !l.note
    ensures StartStore(l).BusyPort? && Next(l, ServerStep).srv.Halted?
  {
    l := FirstLoad(b);
    l := ReachableNext(l, TakeNote);
    l := ReachableNext(l, Submit(c));
    l := ReachableNext(l, ServerStep);
    l := ReachableNext(l, ServerStep);
  }

  /** While the server waits the worker can step, whatever the outcome; a step
      notifies, brings the notification nearer, or is a load that fails, which stops
      the worker. */
  lemma WaitEnds(l: Link, out: Outcome)
    requires Reachable(l) && l.srv.Prog? && !l.note && !l.wrk.Dead?
    ensures CanAct(l, WorkerStep(out))
    ensures var l' := Next(l, WorkerStep(out));
      && l'.srv.Prog?
      && (l'.note <==> l.wrk.Notify?)
      && (l'.wrk.Dead? <==> l.wrk.Load? && out != Succeeded)
      && (!l'.note && !l'.wrk.Dead? ==> StepsToNote(l'.wrk) < StepsToNote(l.wrk))
  {
    ReachableInv(l);
  }

  function StepsToNote(w: Worker): nat {
    match w
    case Wait => 3
    case Load => 2
    case Notify => 1
    case _ => 0
  }
}
