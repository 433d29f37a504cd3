/** Which notices are sent, one for each execution that ends, saying how it ended;
    and what is banned, the hw-task that overran. */
module SchedNotices {
  import opened Wrappers
  import opened FredState
  import opened SchedInv
  import opened SchedEvents
  import opened SchedMoves
  import Runs

  lemma MoveNotifies(s: State, m: Move)
    requires Shape(s) && s.lay.Valid() && CanMove(s, m)
    ensures Do(s, m).hist.notices
            == s.hist.notices + (if m.Free? then [Notice(s.slots[m.slot].execReq.value, m.msg)] else [])
  {
  }

  /** Services and advances send none. */
  lemma {:induction false} PathQuiet(s: State, ms: seq<Move>, s': State)
    requires Shape(s) && s.lay.Valid() && Path(s, ms, s') && GoesOn(ms, 0)
    ensures s'.hist.notices == s.hist.notices
    decreases |ms|
  {
    if ms != [] {
      MoveNotifies(s, ms[0]);
      PathQuiet(Do(s, ms[0]), ms[1..], s');
    }
  }

  lemma PathNotifies(s: State, ms: seq<Move>, s': State)
    requires Shape(s) && s.lay.Valid() && Path(s, ms, s') && |ms| > 0 && GoesOn(ms, 1)
    ensures CanMove(s, ms[0]) && s'.hist.notices == Do(s, ms[0]).hist.notices
  {
    PathQuiet(Do(s, ms[0]), ms[1..], s');
  }

  /** A completion sends DONE and an overrun sends OVERRUN, to the request the slot
      executes; an arrival and the end of a reconfiguration send nothing. */
  lemma StepNotifies(s: State, e: Event)
    requires Inv(s) && Enabled(s, e)
    ensures match e
      case SlotDone(i) =>
        && s.slots[i].execReq.Some?
        && Step(s, e).hist.notices == s.hist.notices + [Notice(s.slots[i].execReq.value, Done)]
      case SlotTimeout(i) =>
        && s.slots[i].execReq.Some?
        && Step(s, e).hist.notices == s.hist.notices + [Notice(s.slots[i].execReq.value, Overrun)]
      case _ => Step(s, e).hist.notices == s.hist.notices
  {
    HandlerReady(s, e);
    var ms := StepPath(s, e);
    PathNotifies(s, ms, Step(s, e));
    MoveNotifies(s, ms[0]);
  }

  // ------------------------------------------------------------------- bans

  lemma QuietBans(s: State, m: Move)
    requires Shape(s) && s.lay.Valid() && CanMove(s, m) && !m.Free?
    ensures Do(s, m).banned == s.banned
  {
  }

  lemma FreeBans(s: State, i: nat, msg: Message)
    requires Shape(s) && s.lay.Valid() && ExecOwns(s) && CanMove(s, Free(i, msg))
    ensures s.slots[i].execReq.value < |s.reqs| && s.reqs[s.slots[i].execReq.value].task.Some?
    ensures Do(s, Free(i, msg)).banned
            == s.banned + (if msg == Overrun then {s.reqs[s.slots[i].execReq.value].task.value} else {})
  {
    assert PartOf(s, s.slots[i].execReq.value) == s.lay.slotPart[i];
  }

  lemma {:induction false} PathBansNone(s: State, ms: seq<Move>, s': State)
    requires Shape(s) && s.lay.Valid() && Path(s, ms, s') && GoesOn(ms, 0)
    ensures s'.banned == s.banned
    decreases |ms|
  {
    if ms != [] {
      QuietBans(s, ms[0]);
      PathBansNone(Do(s, ms[0]), ms[1..], s');
    }
  }

  lemma PathBans(s: State, ms: seq<Move>, s': State)
    requires Shape(s) && s.lay.Valid() && Path(s, ms, s') && |ms| > 0 && GoesOn(ms, 1)
    ensures CanMove(s, ms[0]) && s'.banned == Do(s, ms[0]).banned
  {
    PathBansNone(Do(s, ms[0]), ms[1..], s');
  }

  /** An overrun bans the hw-task its slot was executing; nothing else ever bans or
      pardons one. */
  lemma StepBans(s: State, e: Event)
    requires Inv(s) && Enabled(s, e)
    ensures match e
      case SlotTimeout(i) =>
        && s.slots[i].execReq.Some? && s.slots[i].execReq.value < |s.reqs|
        && s.reqs[s.slots[i].execReq.value].task.Some?
        && Step(s, e).banned == s.banned + {s.reqs[s.slots[i].execReq.value].task.value}
      case _ => Step(s, e).banned == s.banned
  {
    HandlerReady(s, e);
    var ms := StepPath(s, e);
    PathBans(s, ms, Step(s, e));
    var m := ms[0];
    if m.Free? {
      FreeBans(s, m.slot, m.msg);
    } else {
      QuietBans(s, m);
    }
  }

  // ------------------------------------------------------------------- runs

  /** The event ends an execution of request `r`. */
  predicate EndsIt(s: State, e: Event, r: nat) {
    && (e.SlotDone? || e.SlotTimeout?) && e.slot < |s.slots|
    && s.slots[e.slot].state == Exec && s.slots[e.slot].execReq == Some(r)
  }

  /** How the executions of `r` have ended, in the order of the events. */
  function Endings(ss: seq<State>, es: seq<Event>, r: nat): seq<Message>
    requires |ss| >= |es|
  {
    if es == [] then []
    else
      var n := |es| - 1;
      Endings(ss, es[..n], r) + (if EndsIt(ss[n], es[n], r) then [if es[n].SlotDone? then Done else Overrun] else [])
  }

  lemma {:induction false} EndingsPrefix(ss: seq<State>, es: seq<Event>, r: nat, m: nat)
    requires |es| <= m <= |ss|
    ensures Endings(ss[..m], es, r) == Endings(ss, es, r)
  {
    if es != [] {
      EndingsPrefix(ss, es[..|es| - 1], r, m);
    }
  }

  /** The messages sent to request `r`. */
  function MessagesTo(ns: seq<Notice>, r: nat): seq<Message> {
    if ns == [] then []
    else MessagesTo(ns[..|ns| - 1], r) + (if ns[|ns| - 1].req == r then [ns[|ns| - 1].msg] else [])
  }

  lemma MessagesOn(ns: seq<Notice>, n: Notice, r: nat)
    ensures MessagesTo(ns + [n], r) == MessagesTo(ns, r) + (if n.req == r then [n.msg] else [])
  {
    assert (ns + [n])[..|ns|] == ns;
  }

  lemma StepTells(s: State, e: Event, r: nat)
    requires Inv(s) && Enabled(s, e)
    ensures MessagesTo(Step(s, e).hist.notices, r)
            == MessagesTo(s.hist.notices, r)
               + (if EndsIt(s, e, r) then [if e.SlotDone? then Done else Overrun] else [])
  {
    StepNotifies(s, e);
    HandlerReady(s, e);
    if e.SlotDone? || e.SlotTimeout? {
      MessagesOn(s.hist.notices, Notice(s.slots[e.slot].execReq.value, if e.SlotDone? then Done else Overrun), r);
    }
  }

  lemma {:induction false} TraceTells(ss: seq<State>, es: seq<Event>, r: nat)
    requires Runs.Trace(Takes(), ss, es) && ss[0].hist.notices == []
    ensures MessagesTo(ss[|es|].hist.notices, r) == Endings(ss, es, r)
    decreases |es|
  {
    if es != [] {
      var n := |es| - 1;
      Runs.TracePrefix(Takes(), ss, es);
      TraceTells(ss[..|es|], es[..n], r);
      EndingsPrefix(ss, es[..n], r, |es|);
      StepTells(ss[n], es[n], r);
    }
  }

  /** In every run from start-up the messages sent to a request are, in order, how
      its executions ended. */
  lemma NoticesAreEndings(lay: Layout, clients: nat, now: int, es: seq<Event>, s: State, r: nat)
    returns (ss: seq<State>)
    requires lay.Valid() && RunTo(Init(lay, clients, now), es, s)
    ensures Runs.TraceTo(Init(lay, clients, now), Takes(), ss, es, s)
    ensures MessagesTo(s.hist.notices, r) == Endings(ss, es, r)
  {
    ss := Runs.LeadsTraced(Init(lay, clients, now), Takes(), es, s);
    TraceTells(ss, es, r);
  }
}
