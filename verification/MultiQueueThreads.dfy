/** Any number of producers and consumers of one multi-queue, interleaved at each
    mutex, condition-variable and memory step. */
module MultiQueueThreads {
  import opened Wrappers
  import opened MultiQueue
  import Runs

  datatype Op = Push(i: nat, x: Elem) | Pop

  /** Where a thread is. In Test, Again, Act, Ring and Unlock it holds the mutex;
      Again is the return from a wait, Act the store or the copy, Ring the signals
      that follow. */
  datatype Pc = Out | Lock(op: Op) | Test(op: Op) | Asleep(op: Op) | Awake(op: Op) | Again(op: Op)
              | Act(op: Op) | Ring(op: Op, k: nat) | Unlock(op: Op)

  /** A condition variable: cv_ready, or the cv_busy of an input. */
  datatype Cv = Ready | Busy(i: nat)

  /** `pushed[i]` and `popped` record the elements stored in cell i and the rows
      taken. */
  datatype State = State(q: Queue, holder: Option<nat>, pc: seq<Pc>, pushed: seq<seq<Elem>>, popped: seq<seq<Elem>>)
  {
    function N(): nat {
      |q.elems|
    }
  }

  function Init(elems: seq<Elem>, threads: nat): State {
    State(Queue(0, elems, seq(|elems|, _ => 0)), None, seq(threads, _ => Out), seq(|elems|, _ => []), [])
  }

  predicate OpSized(op: Op, n: nat) {
    op.Push? ==> op.i < n
  }

  ghost predicate Sized(s: State) {
    && s.q.Sized() && |s.pushed| == s.N()
    && forall t | 0 <= t < |s.pc| && !s.pc[t].Out? :: OpSized(s.pc[t].op, s.N())
  }

  // ------------------------------------------------------------------ steps

  /** A thread starts a call, takes its next step (if it signals, `w` is the
      sleeper woken), or wakes for no reason. */
  datatype Event = Call(t: nat, op: Op) | Go(t: nat, w: nat) | Spurious(t: nat)

  function CvOf(op: Op): Cv {
    if op.Pop? then Ready else Busy(op.i)
  }

  predicate Sleeps(pc: Pc, cv: Cv) {
    pc.Asleep? && CvOf(pc.op) == cv
  }

  predicate Blocked(q: Queue, op: Op)
  {
    if op.Push? then Bit(q.mask, op.i) else !q.Full()
  }

  /** The condition variable signalled by the next step of a ringing thread. */
  function Signals(q: Queue, pc: Pc): Option<Cv>
    requires q.Sized() && pc.Ring?
  {
    if pc.op.Push? then (if q.Full() then Some(Ready) else None)
    else if pc.k < |q.elems| && q.waiting[pc.k] > 0 then Some(Busy(pc.k)) else None
  }

  ghost predicate Enabled(s: State, e: Event)
    requires Sized(s)
  {
    && e.t < |s.pc|
    && match e
       case Call(t, op) => s.pc[t].Out? && OpSized(op, s.N())
       case Spurious(t) => s.pc[t].Asleep?
       case Go(t, w) =>
         && !s.pc[t].Out? && !s.pc[t].Asleep?
         && (s.pc[t].Lock? || s.pc[t].Awake? ==> s.holder.None?)
         && (s.pc[t].Ring? && Signals(s.q, s.pc[t]).Some? ==>
               var cv := Signals(s.q, s.pc[t]).value;
               (exists u :: 0 <= u < |s.pc| && Sleeps(s.pc[u], cv)) ==> w < |s.pc| && Sleeps(s.pc[w], cv))
  }

  /** `pc_signal`: wakes `w` if the variable has a sleeper. */
  function Woken(pc: seq<Pc>, cv: Option<Cv>, w: nat): (r: seq<Pc>)
    ensures |r| == |pc|
  {
    if cv.Some? && w < |pc| && Sleeps(pc[w], cv.value) then pc[w := Awake(pc[w].op)] else pc
  }

  function Step(s: State, e: Event): State
    requires Sized(s) && Enabled(s, e)
  {
    match e
    case Call(t, op) => s.(pc := s.pc[t := Lock(op)])
    case Spurious(t) => s.(pc := s.pc[t := Awake(s.pc[t].op)])
    case Go(t, w) => GoOn(s, t, w)
  }

  function GoOn(s: State, t: nat, w: nat): State
    requires Sized(s) && t < |s.pc| && !s.pc[t].Out? && !s.pc[t].Asleep?
  {
    match s.pc[t]
    case Lock(op) => s.(holder := Some(t), pc := s.pc[t := Test(op)])
    case Awake(op) => s.(holder := Some(t), pc := s.pc[t := Again(op)])
    case Again(op) =>
      s.(q := if op.Push? then s.q.Wait(op.i, -1) else s.q, pc := s.pc[t := Test(op)])
    case Test(op) =>
      if Blocked(s.q, op)
      then s.(q := if op.Push? then s.q.Wait(op.i, 1) else s.q, holder := None, pc := s.pc[t := Asleep(op)])
      else s.(pc := s.pc[t := Act(op)])
    case Act(op) =>
      var s1 := s.(pc := s.pc[t := Ring(op, 0)]);
      if op.Push? then s1.(q := s.q.Stored(op.i, op.x), pushed := s.pushed[op.i := s.pushed[op.i] + [op.x]])
      else s1.(q := s.q.Emptied(), popped := s.popped + [s.q.elems])
    case Ring(op, k) =>
      s.(pc := Woken(s.pc, Signals(s.q, s.pc[t]), w)
               [t := if op.Pop? && k < s.N() then Ring(op, k + 1) else Unlock(op)])
    case Unlock(op) => s.(holder := None, pc := s.pc[t := Out])
  }

  // -------------------------------------------------------------- invariant

  predicate Inside(pc: Pc) {
    pc.Test? || pc.Again? || pc.Act? || pc.Ring? || pc.Unlock?
  }

  /** The mutex is held by the one thread inside; what that thread has tested
      still holds. */
  ghost predicate Locked(s: State) {
    && (s.holder.Some? ==> s.holder.value < |s.pc|)
    && (forall t | 0 <= t < |s.pc| :: Inside(s.pc[t]) <==> s.holder == Some(t))
    && (forall t | 0 <= t < |s.pc| && s.pc[t].Act? :: !Blocked(s.q, s.pc[t].op))
  }

  /** Cell i is filled when one more element was pushed than rows popped. */
  function Filled(s: State): (c: seq<bool>)
    requires |s.pushed| == s.N()
    ensures |c| == s.N() && forall i | 0 <= i < s.N() :: c[i] == (|s.pushed[i]| > |s.popped|)
  {
    seq(s.N(), i requires 0 <= i < |s.pushed| => |s.pushed[i]| > |s.popped|)
  }

  ghost predicate Masked(s: State)
    requires |s.pushed| == s.N()
  {
    s.q.mask == MaskOf(Filled(s))
  }

  /** The k-th row holds the k-th push of every input, and the cells those not
      popped yet. */
  ghost predicate Cells(s: State)
    requires |s.pushed| == s.N()
  {
    && (forall i | 0 <= i < s.N() :: |s.popped| <= |s.pushed[i]| <= |s.popped| + 1)
    && (forall i | 0 <= i < s.N() && |s.pushed[i]| > |s.popped| :: s.q.elems[i] == s.pushed[i][|s.popped|])
    && (forall k | 0 <= k < |s.popped| :: |s.popped[k]| == s.N())
    && (forall i, k | 0 <= i < s.N() && 0 <= k < |s.popped| :: |s.popped[k]| == s.N() && s.popped[k][i] == s.pushed[i][k])
  }

  predicate Waits(pc: Pc, i: nat) {
    (pc.Asleep? || pc.Awake? || pc.Again?) && pc.op.Push? && pc.op.i == i
  }

  function Waiters(pc: seq<Pc>, i: nat): (n: nat)
    ensures n == 0 ==> forall t | 0 <= t < |pc| :: !Waits(pc[t], i)
  {
    if pc == [] then 0
    else Waiters(pc[..|pc| - 1], i) + (if Waits(pc[|pc| - 1], i) then 1 else 0)
  }

  /** waiting[i] counts the producers of i that are in a wait. */
  ghost predicate Counted(s: State)
    requires s.q.Sized()
  {
    forall i | 0 <= i < s.N() :: s.q.waiting[i] == Waiters(s.pc, i)
  }

  /** A sleeper on `cv` could go on. */
  predicate Wanted(q: Queue, cv: Cv)
    requires q.Sized()
  {
    if cv.Ready? then q.Full() else !Bit(q.mask, cv.i)
  }

  /** A thread that will use up what makes `cv` wanted, or signal it. */
  predicate Helps(pc: Pc, cv: Cv) {
    || ((pc.Awake? || pc.Again? || pc.Test? || pc.Act?) && CvOf(pc.op) == cv)
    || (pc.Ring? && pc.op.Push? && cv.Ready?)
    || (pc.Ring? && pc.op.Pop? && cv.Busy? && pc.k <= cv.i)
  }

  ghost predicate SomeHelps(pcs: seq<Pc>, cv: Cv) {
    exists u :: 0 <= u < |pcs| && Helps(pcs[u], cv)
  }

  /** No wakeup is lost: if a sleeper could go on, a thread is on its way. */
  ghost predicate NoLostWakeup(s: State)
    requires s.q.Sized()
  {
    forall t | 0 <= t < |s.pc| && s.pc[t].Asleep? && Wanted(s.q, CvOf(s.pc[t].op)) ::
      SomeHelps(s.pc, CvOf(s.pc[t].op))
  }

  ghost predicate Inv(s: State) {
    Sized(s) && Locked(s) && Masked(s) && Cells(s) && Counted(s) && NoLostWakeup(s)
  }

  // ------------------------------------------------------------ preservation

  /** What the mask says about a cell. */
  lemma MaskMeans(s: State, i: nat)
    requires Sized(s) && Masked(s) && i < s.N()
    ensures Bit(s.q.mask, i) <==> |s.pushed[i]| > |s.popped|
    ensures s.q.Full() ==> |s.pushed[i]| > |s.popped|
  {
    MaskBit(Filled(s), i);
    MaskFull(Filled(s));
    assert Filled(s)[i] == (|s.pushed[i]| > |s.popped|);
  }

  lemma EmptyIsNotFull(q: Queue)
    requires q.Sized() && q.mask == 0
    ensures !q.Full()
  {
    assert Pow2(|q.elems|) == 2 * Pow2(|q.elems| - 1);
  }

  lemma StepSized(s: State, e: Event)
    requires Sized(s) && Enabled(s, e)
    ensures Sized(Step(s, e)) && Step(s, e).N() == s.N() && |Step(s, e).pc| == |s.pc|
  {
  }

  lemma StepLocked(s: State, e: Event)
    requires Sized(s) && Locked(s) && Enabled(s, e)
    ensures Locked(Step(s, e))
  {
  }

  lemma {:induction false} WaitersSet(pc: seq<Pc>, t: nat, p: Pc, i: nat)
    requires t < |pc|
    ensures Waiters(pc[t := p], i)
            == Waiters(pc, i) + (if Waits(p, i) then 1 else 0) - (if Waits(pc[t], i) then 1 else 0)
  {
    var n := |pc| - 1;
    if t < n {
      WaitersSet(pc[..n], t, p, i);
      assert pc[t := p][..n] == pc[..n][t := p];
    } else {
      assert pc[t := p][..n] == pc[..n];
    }
  }

  function One(b: bool): int {
    if b then 1 else 0
  }

  /** A step that signals nobody moves one thread, and waiting[i] with it. */
  lemma QuietStep(s: State, e: Event, i: nat)
    requires Sized(s) && Enabled(s, e) && !(e.Go? && s.pc[e.t].Ring?) && i < s.N()
    ensures var s' := Step(s, e);
      && |s'.q.waiting| == s.N() && s'.pc == s.pc[e.t := s'.pc[e.t]]
      && s'.q.waiting[i] == s.q.waiting[i] + One(Waits(s'.pc[e.t], i)) - One(Waits(s.pc[e.t], i))
  {
  }

  /** A signal moves two, neither in nor out of the waiters. */
  lemma RingStep(s: State, t: nat, w: nat, i: nat)
    requires Sized(s) && t < |s.pc| && s.pc[t].Ring? && i < s.N()
    ensures Waiters(GoOn(s, t, w).pc, i) == Waiters(s.pc, i)
  {
    var mid := Woken(s.pc, Signals(s.q, s.pc[t]), w);
    if w < |s.pc| {
      WaitersSet(s.pc, w, mid[w], i);
    }
    WaitersSet(mid, t, GoOn(s, t, w).pc[t], i);
  }

  lemma StepCounted(s: State, e: Event)
    requires Sized(s) && Counted(s) && Enabled(s, e)
    ensures Sized(Step(s, e)) && Counted(Step(s, e))
  {
    StepSized(s, e);
    var s' := Step(s, e);
    forall i: nat | i < s.N() ensures s'.q.waiting[i] == Waiters(s'.pc, i) {
      if e.Go? && s.pc[e.t].Ring? {
        RingStep(s, e.t, e.w, i);
      } else {
        QuietStep(s, e, i);
        WaitersSet(s.pc, e.t, s'.pc[e.t], i);
      }
    }
  }

  lemma StepMasked(s: State, e: Event)
    requires Sized(s) && Masked(s) && Cells(s) && Locked(s) && Enabled(s, e)
    ensures Sized(Step(s, e)) && Masked(Step(s, e))
  {
    StepSized(s, e);
    var s' := Step(s, e);
    if e.Go? && s.pc[e.t].Act? {
      var op := s.pc[e.t].op;
      if op.Push? {
        MaskMeans(s, op.i);
        MaskSet(Filled(s), op.i);
        assert Filled(s') == Filled(s)[op.i := true];
      } else {
        MaskNone(Filled(s'));
      }
    } else {
      assert Filled(s') == Filled(s);
    }
  }

  lemma StepCells(s: State, e: Event)
    requires Sized(s) && Masked(s) && Cells(s) && Locked(s) && Enabled(s, e)
    ensures Sized(Step(s, e)) && Cells(Step(s, e))
  {
    StepSized(s, e);
    if e.Go? && s.pc[e.t].Act? {
      if s.pc[e.t].op.Push? {
        MaskMeans(s, s.pc[e.t].op.i);
      } else {
        forall i | 0 <= i < s.N() ensures |s.pushed[i]| == |s.popped| + 1 {
          MaskMeans(s, i);
        }
      }
    }
  }

  /** A waiter is counted. */
  lemma WaiterCounted(s: State, t: nat)
    requires Sized(s) && Counted(s) && t < |s.pc| && s.pc[t].Asleep? && s.pc[t].op.Push?
    ensures s.q.waiting[s.pc[t].op.i] > 0
  {
    assert Waits(s.pc[t], s.pc[t].op.i);
  }

  /** A step that leaves the mask keeps the help a sleeper `t` has. */
  lemma HelpStays(s: State, e: Event, t: nat)
    requires Sized(s) && Locked(s) && Counted(s) && NoLostWakeup(s) && Enabled(s, e)
    requires !(e.Go? && s.pc[e.t].Act?) && t < |s.pc| && Step(s, e).pc[t].Asleep?
    requires Wanted(s.q, CvOf(Step(s, e).pc[t].op))
    ensures SomeHelps(Step(s, e).pc, CvOf(Step(s, e).pc[t].op))
  {
    StepSized(s, e);
    var s' := Step(s, e);
    assert s.pc[t].Asleep? && s.pc[t].op == s'.pc[t].op;
    var cv := CvOf(s.pc[t].op);
    var u :| 0 <= u < |s.pc| && Helps(s.pc[u], cv);
    if u == e.t && s.pc[u].Ring? && Signals(s.q, s.pc[u]) == Some(cv) {
      assert Sleeps(s.pc[t], cv);
      assert Helps(s'.pc[e.w], cv);
    } else {
      if u == e.t && s.pc[u].Ring? && cv.Busy? {
        WaiterCounted(s, t);
      }
      assert Helps(s'.pc[u], cv);
    }
  }

  /** A store or a take helps whomever it makes wanted. */
  lemma ActHelps(s: State, e: Event, t: nat)
    requires Sized(s) && Masked(s) && Cells(s) && Locked(s) && NoLostWakeup(s) && Enabled(s, e)
    requires e.Go? && s.pc[e.t].Act? && t < |s.pc| && Step(s, e).pc[t].Asleep? && Sized(Step(s, e))
    requires Wanted(Step(s, e).q, CvOf(Step(s, e).pc[t].op))
    ensures SomeHelps(Step(s, e).pc, CvOf(Step(s, e).pc[t].op))
  {
    var s', op := Step(s, e), s.pc[e.t].op;
    assert s.pc[t].Asleep? && s.pc[t].op == s'.pc[t].op;
    var cv := CvOf(s.pc[t].op);
    if op.Pop? {
      EmptyIsNotFull(s'.q);
      assert Helps(s'.pc[e.t], cv);
    } else if cv.Ready? {
      assert Helps(s'.pc[e.t], cv);
    } else {
      StepMasked(s, e);
      MaskMeans(s', cv.i);
      MaskMeans(s, cv.i);
      MaskMeans(s, op.i);
      var u :| 0 <= u < |s.pc| && Helps(s.pc[u], cv);
      assert Helps(s'.pc[u], cv);
    }
  }

  lemma StepNoLost(s: State, e: Event)
    requires Inv(s) && Enabled(s, e)
    ensures Sized(Step(s, e)) && NoLostWakeup(Step(s, e))
  {
    StepSized(s, e);
    var s' := Step(s, e);
    forall t | 0 <= t < |s'.pc| && s'.pc[t].Asleep? && Wanted(s'.q, CvOf(s'.pc[t].op))
      ensures SomeHelps(s'.pc, CvOf(s'.pc[t].op))
    {
      if e.Go? && s.pc[e.t].Act? {
        ActHelps(s, e, t);
      } else {
        HelpStays(s, e, t);
      }
    }
  }

  lemma StepKeeps(s: State, e: Event)
    requires Inv(s) && Enabled(s, e)
    ensures Inv(Step(s, e)) && Step(s, e).N() == s.N()
  {
    StepSized(s, e);
    StepLocked(s, e);
    StepMasked(s, e);
    StepCells(s, e);
    StepCounted(s, e);
    StepNoLost(s, e);
  }

  lemma {:induction false} NoWaiters(n: nat, i: nat)
    ensures Waiters(seq(n, _ => Out), i) == 0
  {
    if n > 0 {
      NoWaiters(n - 1, i);
      assert seq(n, _ => Out)[..n - 1] == seq(n - 1, _ => Out);
    }
  }

  lemma InitHolds(elems: seq<Elem>, threads: nat)
    requires |elems| > 0
    ensures Inv(Init(elems, threads))
  {
    var s := Init(elems, threads);
    forall i | 0 <= i < s.N() ensures s.q.waiting[i] == Waiters(s.pc, i) {
      NoWaiters(threads, i);
    }
    MaskNone(Filled(s));
  }

  // -------------------------------------------------------------------- runs

  /** The queue as initialised, for any number of threads. */
  ghost function Boots(): State -> bool {
    (s: State) => exists elems: seq<Elem>, threads: nat :: |elems| > 0 && s == Init(elems, threads)
  }

  ghost function Takes(): (State, Event, State) -> bool {
    (s: State, e: Event, s': State) => Sized(s) && Enabled(s, e) && s' == Step(s, e)
  }

  /** Some interleaving leads to `s`. */
  ghost predicate Reachable(s: State) {
    Runs.Reachable(Boots(), Takes(), s)
  }

  ghost function Known(): State -> bool {
    (s: State) => Inv(s)
  }

  lemma KnownIsClosed()
    ensures Runs.Closed(Boots(), Takes(), Known())
  {
    forall s: State | Boots()(s) ensures Known()(s) {
      var elems: seq<Elem>, threads: nat :| |elems| > 0 && s == Init(elems, threads);
      InitHolds(elems, threads);
    }
    forall s: State, e: Event, s': State | Takes()(s, e, s') && Known()(s) ensures Known()(s') {
      StepKeeps(s, e);
    }
  }

  lemma ReachableInv(s: State)
    requires Reachable(s)
    ensures Inv(s)
  {
    KnownIsClosed();
    assert Known()(s);
  }

  // ---------------------------------------------------------------- theorems

  /** The queue is a row of one-place cells: bit i is set exactly when input i
      holds one push not yet popped, never more; the mask is all ones exactly
      when every cell is filled; and up to 30 inputs it is an int. */
  lemma OnePlaceCells(s: State)
    requires Reachable(s)
    ensures Inv(s)
    ensures forall i | 0 <= i < s.N() :: |s.pushed[i]| == |s.popped| + (if Bit(s.q.mask, i) then 1 else 0)
    ensures s.q.Full() <==> forall i | 0 <= i < s.N() :: |s.pushed[i]| == |s.popped| + 1
    ensures s.N() <= 30 ==> s.q.mask < 0x4000_0000
  {
    ReachableInv(s);
    forall i | 0 <= i < s.N()
      ensures Bit(s.q.mask, i) <==> |s.pushed[i]| == |s.popped| + 1
      ensures Filled(s)[i] == (|s.pushed[i]| > |s.popped|)
    {
      MaskMeans(s, i);
    }
    MaskFull(Filled(s));
    if s.N() <= 30 {
      PowGrows(s.N(), 30);
      FitsInt(30);
    }
  }

  /** The k-th pop returns the k-th push of every input. */
  lemma PopsArePushes(s: State, k: nat, i: nat)
    requires Reachable(s) && k < |s.popped| && i < s.N()
    ensures i < |s.pushed| && k < |s.pushed[i]|
    ensures |s.popped[k]| == s.N() && s.popped[k][i] == s.pushed[i][k]
  {
    ReachableInv(s);
  }

  /** A producer asleep on i although cell i is free, or a consumer asleep
      although all are filled, has a thread on its way to them; so once no thread
      can take a step, each sleeper sleeps for a reason. */
  lemma SleepersHaveReason(s: State, t: nat)
    requires Reachable(s) && t < |s.pc| && s.pc[t].Asleep?
    ensures Sized(s)
    ensures !Blocked(s.q, s.pc[t].op) ==> SomeHelps(s.pc, CvOf(s.pc[t].op))
    ensures (forall u, w: nat :: !Enabled(s, Go(u, w))) ==> Blocked(s.q, s.pc[t].op)
  {
    ReachableInv(s);
    if !Blocked(s.q, s.pc[t].op) {
      var u :| 0 <= u < |s.pc| && Helps(s.pc[u], CvOf(s.pc[t].op));
      var w := SomeoneGoesOn(s, u);
    }
  }

  /** Unless every thread is out or asleep, one can go on. */
  lemma SomeoneGoesOn(s: State, u: nat) returns (e: Event)
    requires Sized(s) && Locked(s) && u < |s.pc| && !s.pc[u].Out? && !s.pc[u].Asleep?
    ensures e.Go? && Enabled(s, e)
  {
    var v := if s.holder.Some? then s.holder.value else u;
    e := Go(v, 0);
    if s.pc[v].Ring? && Signals(s.q, s.pc[v]).Some? {
      var cv := Signals(s.q, s.pc[v]).value;
      if w :| 0 <= w < |s.pc| && Sleeps(s.pc[w], cv) {
        e := Go(v, w);
      }
    }
  }

  /** waiting[i] is the number of producers inside a wait on input i. */
  lemma WaitingIsExact(s: State, i: nat)
    requires Reachable(s) && i < s.N()
    ensures i < |s.q.waiting| && s.q.waiting[i] == Waiters(s.pc, i)
  {
    ReachableInv(s);
  }

  // ---------------------------------------------------- undisturbed passes

  /** The state in which a thread that was outside, or asleep, has taken the mutex
      and tests. */
  function Tests(s: State, t: nat): State
    requires Sized(s) && t < |s.pc| && (s.pc[t].Lock? || s.pc[t].Awake?)
  {
    var s1 := GoOn(s, t, 0);
    if s.pc[t].Awake? then GoOn(s1, t, 0) else s1
  }

  /** A push nobody disturbs does to the queue what MultiQueue.PushPass does: it
      is back asleep and counted, or has stored and is about to signal exactly if
      it filled the last cell. */
  lemma PushSteps(s: State, t: nat)
    requires Sized(s) && t < |s.pc| && (s.pc[t].Lock? || s.pc[t].Awake?) && s.pc[t].op.Push?
    ensures var op := s.pc[t].op; var q := if s.pc[t].Awake? then s.q.Wait(op.i, -1) else s.q;
      var s2 := Tests(s, t);
      && Sized(s2) && s2.pc[t] == Test(op) && s2.holder == Some(t) && s2.q == q
      && var s3 := GoOn(s2, t, 0);
         && Sized(s3)
         && (Bit(q.mask, op.i) ==> s3.q == q.Wait(op.i, 1) && s3.pc[t] == Asleep(op) && s3.holder == None)
         && (!Bit(q.mask, op.i) ==>
               && s3.pc[t] == Act(op)
               && var s4 := GoOn(s3, t, 0);
                  && Sized(s4) && s4.q == q.Stored(op.i, op.x) && s4.pc[t] == Ring(op, 0)
                  && Signals(s4.q, s4.pc[t]) == if s4.q.Full() then Some(Ready) else None)
  {
    var s1 := GoOn(s, t, 0);
    assert Sized(s1);
    var s2 := Tests(s, t);
    assert Sized(s2);
  }

  /** Likewise a pop and MultiQueue.PopPass. */
  lemma PopSteps(s: State, t: nat)
    requires Sized(s) && t < |s.pc| && (s.pc[t].Lock? || s.pc[t].Awake?) && s.pc[t].op.Pop?
    ensures var s2 := Tests(s, t);
      && Sized(s2) && s2.pc[t] == Test(Pop) && s2.holder == Some(t) && s2.q == s.q
      && var s3 := GoOn(s2, t, 0);
         && Sized(s3)
         && (!s.q.Full() ==> s3.q == s.q && s3.pc[t] == Asleep(Pop) && s3.holder == None)
         && (s.q.Full() ==>
               && s3.pc[t] == Act(Pop)
               && var s4 := GoOn(s3, t, 0);
                  && Sized(s4) && s4.q == s.q.Emptied() && s4.pc[t] == Ring(Pop, 0)
                  && s4.popped == s.popped + [s.q.elems]
                  && forall k: nat | k < s.N() ::
                       Signals(s4.q, Ring(Pop, k)) == if s.q.waiting[k] > 0 then Some(Busy(k)) else None)
  {
    var s1 := GoOn(s, t, 0);
    assert Sized(s1);
    var s2 := Tests(s, t);
    assert Sized(s2);
  }
}
