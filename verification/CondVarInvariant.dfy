/** What every reachable state of the condition variable satisfies. */
module CondVarInvariant {
  import opened Counting
  import opened Runs
  import opened CondVar
  import S = Semaphore

  // ----- what one thread contributes, by its program point

  /** Counted as a waiter and not retracted yet. */
  function Registered(p: Pc): nat
  {
    if p.LeavingGate? || p.Unlocking? || p.Queued? || p.Retracting? || p.Deciding? then 1 else 0
  }

  /** Holds a queue permit it has not accounted for yet. */
  function Took(p: Pc): nat
  {
    if (p.Retracting? || p.Deciding?) && p.took then 1 else 0
  }

  /** Signals counted but not posted. */
  function Pending(p: Pc): nat
  {
    if (p.SigReleasing? || p.SigPosting?) && p.n > 0 then p.n else 0
  }

  /** Owns the gate permit. */
  function Inside(p: Pc): nat
  {
    if p.Reading? || p.Writing? || p.LeavingGate? || p.FoldSubtract? || p.FoldPost? || p.SigClosing?
       || p.DstTrying? || p.DstGivingUp? || p.DstChecking? || p.DstBusyPost?
    then 1 else 0
  }

  /** Must open the gate: it retracted the last signal. */
  function Leaver(p: Pc): nat
  {
    if (p.Releasing? || p.Opening?) && p.left == 1 then 1 else 0
  }

  function InMutex(p: Pc): nat
  {
    if p.Deciding? || p.FoldAtGate? || p.FoldSubtract? || p.FoldPost? || p.FoldClear? || p.Releasing?
       || p.SigDeciding? || p.SigAtGate? || p.SigClosing? || p.SigReleasing?
       || p.DstChecking? || p.DstBusyPost? || p.DstBusyUnlock?
    then 1 else 0
  }

  /** Has subtracted the departures and not cleared them yet. */
  function Folded(p: Pc): nat { if p.FoldPost? || p.FoldClear? then 1 else 0 }

  function Folding(p: Pc): nat
  {
    if p.FoldAtGate? || p.FoldSubtract? || p.FoldPost? || p.FoldClear? then 1 else 0
  }

  /** Inside the gate semaphore's wait, past its decrement. */
  function AtKernel(p: Pc): nat
  {
    if p.GateLeaving? || ((p.AtGate? || p.FoldAtGate? || p.SigAtGate? || p.DstAtGate?) && p.blocked) then 1 else 0
  }

  // ----- the invariant

  ghost predicate WaitersConserved(s: State)
  {
    Sum(s.threads, Registered)
    == s.c.blocked - (if Sum(s.threads, Folded) > 0 then 0 else s.c.gone) + s.c.toUnblock
  }

  /** The ways the gate can be spoken for, added up. */
  ghost function GateCount(s: State): nat
  {
    s.gate.Supply() + Sum(s.threads, Inside) + (if s.c.toUnblock > 0 then 1 else 0) + Sum(s.threads, Leaver)
  }

  /** The counts of the gate semaphore account for the threads inside its wait. */
  ghost predicate GateWaitersOk(s: State)
  {
    Sum(s.threads, AtKernel) + s.skipped == s.gate.kernel + s.gate.Unserved()
  }

  /** Permits, present, on their way, or taken and not accounted for. */
  ghost function SignalsLive(s: State): nat
  {
    |s.permits| + Sum(s.threads, Pending) + Sum(s.threads, Took)
  }

  ghost predicate SignalsConserved(s: State)
  {
    && SignalsLive(s) + s.spurious == s.c.toUnblock + s.stolen
    && s.c.toUnblock <= SignalsLive(s)
  }

  ghost predicate MutexOk(s: State)
  {
    && Sum(s.threads, InMutex) == (if s.mtx.Some? then 1 else 0)
    && (s.mtx.Some? ==> s.mtx.value < |s.threads| && InMutex(s.threads[s.mtx.value]) == 1)
  }

  ghost predicate CountersOk(s: State)
  {
    && s.c.blocked >= 0 && s.c.toUnblock >= 0 && 0 <= s.c.gone <= FOLD_AT
    && (s.c.toUnblock > 0 ==> s.c.gone == 0)
    && (s.c.gone == FOLD_AT <==> Sum(s.threads, Folding) > 0)
  }

  predicate ThreadOk(s: State, p: Pc)
  {
    && (p.Writing? ==> p.read == s.c.blocked)
    && (p.SigAtGate? || p.SigClosing? ==> s.c.toUnblock == 0 && s.c.blocked > s.c.gone)
    && (p.SigReleasing? ==> p.n >= 0)
    && (p.SigPosting? ==> p.n > 0)
  }

  ghost predicate Inv(s: State)
  {
    && WaitersConserved(s)
    && GateCount(s) + s.lost == 1
    && GateWaitersOk(s)
    && SignalsConserved(s)
    && MutexOk(s)
    && CountersOk(s)
    && forall t :: 0 <= t < |s.threads| ==> ThreadOk(s, s.threads[t])
  }

  lemma InitInv(n: nat)
    ensures Inv(InitState(n))
  {
    var th := InitState(n).threads;
    SumZero(th, Registered);
    SumZero(th, Took);
    SumZero(th, Pending);
    SumZero(th, Inside);
    SumZero(th, Leaver);
    SumZero(th, InMutex);
    SumZero(th, Folded);
    SumZero(th, Folding);
    SumZero(th, AtKernel);
  }

  /** How one sum changes when thread `t` moves to `p`. */
  ghost predicate Moved(threads: seq<Pc>, t: nat, p: Pc, w: Pc -> nat)
    requires t < |threads|
  {
    && Sum(threads[t := p], w) == Sum(threads, w) - w(threads[t]) + w(p)
    && Sum(threads, w) >= w(threads[t])
  }

  lemma SumMoved(threads: seq<Pc>, t: nat, p: Pc, w: Pc -> nat)
    requires t < |threads|
    ensures Moved(threads, t, p, w)
  {
    SumUpdate(threads, t, p, w);
    SumAtLeast(threads, t, w);
  }

  lemma SumsMoved(threads: seq<Pc>, t: nat, p: Pc)
    requires t < |threads|
    ensures Moved(threads, t, p, Registered) && Moved(threads, t, p, Took) && Moved(threads, t, p, Pending)
    ensures Moved(threads, t, p, Inside) && Moved(threads, t, p, Leaver) && Moved(threads, t, p, InMutex)
    ensures Moved(threads, t, p, Folded) && Moved(threads, t, p, Folding) && Moved(threads, t, p, AtKernel)
  {
    SumMoved(threads, t, p, Registered);
    SumMoved(threads, t, p, Took);
    SumMoved(threads, t, p, Pending);
    SumMoved(threads, t, p, Inside);
    SumMoved(threads, t, p, Leaver);
    SumMoved(threads, t, p, InMutex);
    SumMoved(threads, t, p, Folded);
    SumMoved(threads, t, p, Folding);
    SumMoved(threads, t, p, AtKernel);
  }

  /** Nobody else is inside the mutex, or inside the gate, with thread `t`. */
  lemma Alone(s: State, t: nat)
    requires Inv(s) && t < |s.threads|
    ensures InMutex(s.threads[t]) == 1 ==>
              s.mtx == Some(t) && forall u :: 0 <= u < |s.threads| && u != t ==> InMutex(s.threads[u]) == 0
    ensures Inside(s.threads[t]) == 1 || s.c.toUnblock > 0 ==>
              forall u :: 0 <= u < |s.threads| && u != t ==> Inside(s.threads[u]) == 0
  {
    forall u | 0 <= u < |s.threads| && u != t
      ensures InMutex(s.threads[t]) + InMutex(s.threads[u]) <= Sum(s.threads, InMutex)
      ensures Inside(s.threads[t]) + Inside(s.threads[u]) <= Sum(s.threads, Inside)
    {
      SumAtLeastTwo(s.threads, t, u, InMutex);
      SumAtLeastTwo(s.threads, t, u, Inside);
    }
    SumAtLeast(s.threads, t, InMutex);
  }

  /** A fold is under way only in the hands of the mutex owner. */
  lemma FoldsBelongToOwner(s: State, t: nat)
    requires Inv(s) && t < |s.threads| && InMutex(s.threads[t]) == 1
    ensures Sum(s.threads, Folding) == Folding(s.threads[t])
    ensures Sum(s.threads, Folded) == Folded(s.threads[t])
  {
    Alone(s, t);
    SumOnlyAt(s.threads, t, Folding);
    SumOnlyAt(s.threads, t, Folded);
  }

  /** A step by `t` leaves the others as they should be: it changes the blocked count only inside the
      gate or while the gate is closed, and the rest only inside the mutex. */
  lemma OthersStayOk(s: State, s': State, t: nat)
    requires Inv(s) && t < |s.threads| && t < |s'.threads| && s'.threads == s.threads[t := s'.threads[t]]
    requires s'.c.blocked == s.c.blocked || Inside(s.threads[t]) == 1 || s.c.toUnblock > 0
    requires s'.c.blocked >= s.c.blocked || InMutex(s.threads[t]) == 1
    requires (s'.c.gone == s.c.gone && s'.c.toUnblock == s.c.toUnblock) || InMutex(s.threads[t]) == 1
    requires ThreadOk(s', s'.threads[t])
    ensures forall u :: 0 <= u < |s'.threads| ==> ThreadOk(s', s'.threads[u])
  {
    Alone(s, t);
    forall u | 0 <= u < |s'.threads| && u != t ensures ThreadOk(s', s'.threads[u]) {
      assert s'.threads[u] == s.threads[u] && ThreadOk(s, s.threads[u]);
    }
  }

  // ----- every step keeps it

  /** What is registered, as the counters tell it when `folded` says that a fold is half done. */
  function CountersSay(c: Counters, folded: nat): int
  {
    c.blocked - (if folded > 0 then 0 else c.gone) + c.toUnblock
  }

  function ClosedBySignals(c: Counters): nat { if c.toUnblock > 0 then 1 else 0 }

  /** A move of thread `t` from `p` to `p'` that balances the books keeps the invariant. */
  lemma MoveKeepsInv(s: State, s': State, t: nat, p: Pc, p': Pc)
    requires Inv(s) && t < |s.threads| && p == s.threads[t] && s'.threads == s.threads[t := p']
    requires s'.c.blocked == s.c.blocked || Inside(p) == 1 || s.c.toUnblock > 0
    requires s'.c.blocked >= s.c.blocked || InMutex(p) == 1
    requires (s'.c.gone == s.c.gone && s'.c.toUnblock == s.c.toUnblock) || InMutex(p) == 1
    requires ThreadOk(s', p')
    requires Registered(p') - Registered(p) == CountersSay(s'.c, Folded(p')) - CountersSay(s.c, Folded(p))
    requires InMutex(p) == 1 || (Folded(p') == Folded(p) == 0 && Folding(p') == Folding(p) == 0)
    requires s'.gate.Supply() + Inside(p') + ClosedBySignals(s'.c) + Leaver(p') + s'.lost
             == s.gate.Supply() + Inside(p) + ClosedBySignals(s.c) + Leaver(p) + s.lost
    requires AtKernel(p') + s'.skipped - s'.gate.kernel - s'.gate.Unserved()
             == AtKernel(p) + s.skipped - s.gate.kernel - s.gate.Unserved()
    requires |s'.permits| + Pending(p') + Took(p') + s'.spurious - s'.c.toUnblock - s'.stolen
             == |s.permits| + Pending(p) + Took(p) + s.spurious - s.c.toUnblock - s.stolen
    requires s'.c.toUnblock == 0 ||
             |s'.permits| + Pending(p') + Took(p') - s'.c.toUnblock >= |s.permits| + Pending(p) + Took(p) - s.c.toUnblock
    requires if InMutex(p) == InMutex(p') then s'.mtx == s.mtx
             else if InMutex(p) == 0 then s.mtx == None && s'.mtx == Some(t)
             else s'.mtx == None
    requires s'.c.blocked >= 0 && s'.c.toUnblock >= 0 && 0 <= s'.c.gone <= FOLD_AT
    requires s'.c.toUnblock > 0 ==> s'.c.gone == 0
    requires InMutex(p) == 1 ==> (s'.c.gone == FOLD_AT <==> Folding(p') == 1)
    ensures Inv(s')
  {
    SumsMoved(s.threads, t, p');
    OthersStayOk(s, s', t);
    if InMutex(p) == 1 {
      FoldsBelongToOwner(s, t);
      Alone(s, t);
    }
  }

  lemma StartKeepsInv(s: State, t: nat, p: Pc)
    requires Inv(s) && t < |s.threads| && StepStart(s, t, p).Some?
    requires p == AtGate(false) || p.SigAtLock? || p == DstAtGate(false)
    ensures Inv(StepStart(s, t, p).value)
  {
    MoveKeepsInv(s, StepStart(s, t, p).value, t, Idle, p);
  }

  /** What being inside the gate, or inside the mutex, lets a thread rely on. */
  lemma OwnFacts(s: State, t: nat)
    requires Inv(s) && t < |s.threads|
    ensures Inside(s.threads[t]) == 1 ==> s.gate.Supply() == 0 && s.c.toUnblock == 0 && s.lost == 0
    ensures s.gate.Supply() <= 1
    ensures Leaver(s.threads[t]) == 1 ==> s.gate.Supply() == 0
    ensures AtKernel(s.threads[t]) == 1 ==> s.gate.kernel + s.gate.Unserved() > 0
    ensures InMutex(s.threads[t]) == 1 ==>
              s.mtx == Some(t) && (s.c.gone == FOLD_AT <==> Folding(s.threads[t]) == 1)
    ensures Folding(s.threads[t]) == 1 ==> s.c.gone == FOLD_AT
    ensures Registered(s.threads[t]) == 1 && InMutex(s.threads[t]) == 1 ==> CountersSay(s.c, 0) >= 1
    ensures Folding(s.threads[t]) == 1 && Folded(s.threads[t]) == 0 ==> CountersSay(s.c, 0) >= 0
    ensures Took(s.threads[t]) == 1 ==> SignalsLive(s) >= 1
    ensures s.c.blocked >= 0 && s.c.toUnblock >= 0 && 0 <= s.c.gone <= FOLD_AT
    ensures s.c.toUnblock > 0 ==> s.c.gone == 0
    ensures ThreadOk(s, s.threads[t])
  {
    assert ThreadOk(s, s.threads[t]);
    SumAtLeast(s.threads, t, Inside);
    SumAtLeast(s.threads, t, AtKernel);
    SumAtLeast(s.threads, t, Leaver);
    SumAtLeast(s.threads, t, Folding);
    SumAtLeast(s.threads, t, Registered);
    SumAtLeast(s.threads, t, Took);
    Alone(s, t);
    if InMutex(s.threads[t]) == 1 {
      FoldsBelongToOwner(s, t);
    }
  }

  /** What the gate semaphore's own sections do to its supply of permits, and to the waiters that its
      counts account for. */
  lemma GatePosted(f: S.Fields)
    requires f.Supply() == 0
    ensures var f' := S.AfterPost(f).0; f'.Supply() == 1 && f'.kernel + f'.Unserved() == f.kernel + f.Unserved()
  {
  }

  lemma GateEntered(f: S.Fields)
    ensures var f' := S.AfterDecrement(f);
            if f.value > 0 then f'.Supply() == f.Supply() - 1 && f'.kernel + f'.Unserved() == f.kernel + f.Unserved()
            else f'.Supply() == f.Supply() && f'.kernel + f'.Unserved() == f.kernel + f.Unserved() + 1
    ensures f.kernel > 0 ==>
              var f' := f.(kernel := f.kernel - 1); f'.Supply() == f.Supply() - 1 && f'.Unserved() == f.Unserved()
  {
  }

  /** Two program points alike but for their part in the gate semaphore. */
  predicate Alike(p: Pc, p': Pc)
  {
    && Registered(p') == Registered(p) && Took(p') == Took(p) && Pending(p') == Pending(p)
    && Leaver(p') == Leaver(p) && InMutex(p') == InMutex(p)
    && Folding(p') == Folding(p) && Folded(p') == Folded(p) == 0
  }

  /** A step of the gate semaphore that keeps its books. */
  lemma GateMoveKeepsInv(s: State, t: nat, f: S.Fields, p': Pc)
    requires Inv(s) && t < |s.threads| && Alike(s.threads[t], p')
    requires f.Supply() + Inside(p') == s.gate.Supply() + Inside(s.threads[t])
    requires AtKernel(p') - f.kernel - f.Unserved() == AtKernel(s.threads[t]) - s.gate.kernel - s.gate.Unserved()
    requires ThreadOk(s, p')
    ensures Inv(s.(gate := f).Move(t, p'))
  {
    OwnFacts(s, t);
    hide Inv, SignalsLive, S.Fields.Supply, S.Fields.Unserved, Registered, Took, Pending, Leaver, InMutex, Folding, Folded,
         Inside, AtKernel;
    MoveKeepsInv(s, s.(gate := f).Move(t, p'), t, s.threads[t], p');
  }

  lemma GateKeepsInv(s: State, t: nat)
    requires Inv(s) && t < |s.threads| && StepGo(s, t).Some?
    requires s.threads[t].AtGate?
    ensures Inv(StepGo(s, t).value)
  {
    OwnFacts(s, t);
    GateEntered(s.gate);
    assert s.gate.value > 0 || s.gate.kernel > 0 ==> s.gate.Supply() > 0;
    hide Inv, SignalsLive, S.Fields.Supply, S.Fields.Unserved, S.AfterPost;
    GateMoveKeepsInv(s, t, StepGo(s, t).value.gate, StepGo(s, t).value.threads[t]);
  }

  lemma DestroyerGateKeepsInv(s: State, t: nat)
    requires Inv(s) && t < |s.threads| && StepGo(s, t).Some?
    requires s.threads[t].DstAtGate?
    ensures Inv(StepGo(s, t).value)
  {
    OwnFacts(s, t);
    GateEntered(s.gate);
    assert s.gate.value > 0 || s.gate.kernel > 0 ==> s.gate.Supply() > 0;
    hide Inv, SignalsLive, S.Fields.Supply, S.Fields.Unserved, S.AfterPost;
    GateMoveKeepsInv(s, t, StepGo(s, t).value.gate, StepGo(s, t).value.threads[t]);
  }

  lemma FoldGateKeepsInv(s: State, t: nat)
    requires Inv(s) && t < |s.threads| && StepGo(s, t).Some?
    requires s.threads[t].FoldAtGate?
    ensures Inv(StepGo(s, t).value)
  {
    OwnFacts(s, t);
    GateEntered(s.gate);
    assert s.gate.value > 0 || s.gate.kernel > 0 ==> s.gate.Supply() > 0;
    hide Inv, SignalsLive, S.Fields.Supply, S.Fields.Unserved, S.AfterPost;
    GateMoveKeepsInv(s, t, StepGo(s, t).value.gate, StepGo(s, t).value.threads[t]);
  }

  lemma SignalGateKeepsInv(s: State, t: nat)
    requires Inv(s) && t < |s.threads| && StepGo(s, t).Some?
    requires s.threads[t].SigAtGate?
    ensures Inv(StepGo(s, t).value)
  {
    OwnFacts(s, t);
    GateEntered(s.gate);
    assert s.gate.value > 0 || s.gate.kernel > 0 ==> s.gate.Supply() > 0;
    hide Inv, SignalsLive, S.Fields.Supply, S.Fields.Unserved, S.AfterPost;
    GateMoveKeepsInv(s, t, StepGo(s, t).value.gate, StepGo(s, t).value.threads[t]);
  }

  lemma CleanupKeepsInv(s: State, t: nat)
    requires Inv(s) && t < |s.threads| && StepGo(s, t).Some?
    requires var p := s.threads[t]; p.GateLeaving?
    ensures Inv(StepGo(s, t).value)
  {
    OwnFacts(s, t);
    hide Inv, SignalsLive;
    MoveKeepsInv(s, StepGo(s, t).value, t, s.threads[t], StepGo(s, t).value.threads[t]);
  }

  lemma RegisterKeepsInv(s: State, t: nat)
    requires Inv(s) && t < |s.threads| && StepGo(s, t).Some?
    requires var p := s.threads[t]; p.Reading? || p.Writing?
    ensures Inv(StepGo(s, t).value)
  {
    OwnFacts(s, t);
    hide Inv, SignalsLive, S.Fields.Supply, S.Fields.Unserved, S.AfterPost;
    MoveKeepsInv(s, StepGo(s, t).value, t, s.threads[t], StepGo(s, t).value.threads[t]);
  }

  lemma LeaveGateKeepsInv(s: State, t: nat)
    requires Inv(s) && t < |s.threads| && StepGo(s, t).Some?
    requires var p := s.threads[t]; p.LeavingGate?
    ensures Inv(StepGo(s, t).value)
  {
    OwnFacts(s, t);
    if s.gate.Supply() == 0 { GatePosted(s.gate); }
    hide Inv, SignalsLive, S.Fields.Supply, S.Fields.Unserved, S.AfterPost;
    MoveKeepsInv(s, StepGo(s, t).value, t, s.threads[t], StepGo(s, t).value.threads[t]);
  }

  lemma QueueKeepsInv(s: State, t: nat)
    requires Inv(s) && t < |s.threads| && StepGo(s, t).Some?
    requires var p := s.threads[t]; p.Unlocking? || p.Relocking?
    ensures Inv(StepGo(s, t).value)
  {
    OwnFacts(s, t);
    hide Inv, SignalsLive, S.Fields.Supply, S.Fields.Unserved, S.AfterPost;
    MoveKeepsInv(s, StepGo(s, t).value, t, s.threads[t], StepGo(s, t).value.threads[t]);
  }

  lemma RetractKeepsInv(s: State, t: nat)
    requires Inv(s) && t < |s.threads| && StepGo(s, t).Some?
    requires var p := s.threads[t]; p.Retracting?
    ensures Inv(StepGo(s, t).value)
  {
    OwnFacts(s, t);
    var p, s' := s.threads[t], StepGo(s, t).value;
    assert s.mtx == None && s' == s.(mtx := Some(t)).Move(t, Deciding(p.reg, p.took));
    hide Inv, SignalsLive, S.Fields.Supply, S.Fields.Unserved, S.AfterPost, StepGo;
    MoveKeepsInv(s, s', t, p, Deciding(p.reg, p.took));
  }

  lemma DecideKeepsInv(s: State, t: nat)
    requires Inv(s) && t < |s.threads| && StepGo(s, t).Some?
    requires var p := s.threads[t]; p.Deciding?
    ensures Inv(StepGo(s, t).value)
  {
    OwnFacts(s, t);
    hide Inv, SignalsLive, S.Fields.Supply, S.Fields.Unserved, S.AfterPost;
    MoveKeepsInv(s, StepGo(s, t).value, t, s.threads[t], StepGo(s, t).value.threads[t]);
  }

  lemma ReleaseKeepsInv(s: State, t: nat)
    requires Inv(s) && t < |s.threads| && StepGo(s, t).Some?
    requires var p := s.threads[t]; p.Releasing?
    ensures Inv(StepGo(s, t).value)
  {
    OwnFacts(s, t);
    hide Inv, SignalsLive, S.Fields.Supply, S.Fields.Unserved, S.AfterPost;
    MoveKeepsInv(s, StepGo(s, t).value, t, s.threads[t], StepGo(s, t).value.threads[t]);
  }

  lemma OpenKeepsInv(s: State, t: nat)
    requires Inv(s) && t < |s.threads| && StepGo(s, t).Some?
    requires var p := s.threads[t]; p.Opening?
    ensures Inv(StepGo(s, t).value)
  {
    OwnFacts(s, t);
    if s.gate.Supply() == 0 { GatePosted(s.gate); }
    hide Inv, SignalsLive, S.Fields.Supply, S.Fields.Unserved, S.AfterPost;
    MoveKeepsInv(s, StepGo(s, t).value, t, s.threads[t], StepGo(s, t).value.threads[t]);
  }

  lemma FoldKeepsInv(s: State, t: nat)
    requires Inv(s) && t < |s.threads| && StepGo(s, t).Some?
    requires var p := s.threads[t]; p.FoldSubtract? || p.FoldPost? || p.FoldClear?
    ensures Inv(StepGo(s, t).value)
  {
    OwnFacts(s, t);
    if s.gate.Supply() == 0 { GatePosted(s.gate); }
    hide Inv, SignalsLive, S.Fields.Supply, S.Fields.Unserved, S.AfterPost;
    MoveKeepsInv(s, StepGo(s, t).value, t, s.threads[t], StepGo(s, t).value.threads[t]);
  }

  lemma SignalKeepsInv(s: State, t: nat)
    requires Inv(s) && t < |s.threads| && StepGo(s, t).Some?
    requires var p := s.threads[t]; p.SigAtLock? || p.SigDeciding?
    ensures Inv(StepGo(s, t).value)
  {
    OwnFacts(s, t);
    hide Inv, SignalsLive, S.Fields.Supply, S.Fields.Unserved, S.AfterPost;
    MoveKeepsInv(s, StepGo(s, t).value, t, s.threads[t], StepGo(s, t).value.threads[t]);
  }

  lemma CloseKeepsInv(s: State, t: nat)
    requires Inv(s) && t < |s.threads| && StepGo(s, t).Some?
    requires var p := s.threads[t]; p.SigClosing?
    ensures Inv(StepGo(s, t).value)
  {
    OwnFacts(s, t);
    hide Inv, SignalsLive, S.Fields.Supply, S.Fields.Unserved, S.AfterPost;
    MoveKeepsInv(s, StepGo(s, t).value, t, s.threads[t], StepGo(s, t).value.threads[t]);
  }

  lemma PostKeepsInv(s: State, t: nat)
    requires Inv(s) && t < |s.threads| && StepGo(s, t).Some?
    requires var p := s.threads[t]; p.SigReleasing? || p.SigPosting?
    ensures Inv(StepGo(s, t).value)
  {
    OwnFacts(s, t);
    hide Inv, SignalsLive, S.Fields.Supply, S.Fields.Unserved, S.AfterPost;
    MoveKeepsInv(s, StepGo(s, t).value, t, s.threads[t], StepGo(s, t).value.threads[t]);
  }

  lemma DestroyKeepsInv(s: State, t: nat)
    requires Inv(s) && t < |s.threads| && StepGo(s, t).Some?
    requires var p := s.threads[t]; p.DstTrying? || p.DstGivingUp?
    ensures Inv(StepGo(s, t).value)
  {
    OwnFacts(s, t);
    if s.gate.Supply() == 0 { GatePosted(s.gate); }
    hide Inv, SignalsLive, S.Fields.Supply, S.Fields.Unserved, S.AfterPost;
    MoveKeepsInv(s, StepGo(s, t).value, t, s.threads[t], StepGo(s, t).value.threads[t]);
  }

  lemma CheckKeepsInv(s: State, t: nat)
    requires Inv(s) && t < |s.threads| && StepGo(s, t).Some?
    requires var p := s.threads[t]; p.DstChecking?
    ensures Inv(StepGo(s, t).value)
  {
    OwnFacts(s, t);
    hide Inv, SignalsLive, S.Fields.Supply, S.Fields.Unserved, S.AfterPost;
    MoveKeepsInv(s, StepGo(s, t).value, t, s.threads[t], StepGo(s, t).value.threads[t]);
  }

  lemma BusyKeepsInv(s: State, t: nat)
    requires Inv(s) && t < |s.threads| && StepGo(s, t).Some?
    requires var p := s.threads[t]; p.DstBusyPost? || p.DstBusyUnlock?
    ensures Inv(StepGo(s, t).value)
  {
    OwnFacts(s, t);
    if s.gate.Supply() == 0 { GatePosted(s.gate); }
    hide Inv, SignalsLive, S.Fields.Supply, S.Fields.Unserved, S.AfterPost;
    MoveKeepsInv(s, StepGo(s, t).value, t, s.threads[t], StepGo(s, t).value.threads[t]);
  }

  lemma GoKeepsInv(s: State, t: nat)
    requires Inv(s) && t < |s.threads| && StepGo(s, t).Some?
    ensures Inv(StepGo(s, t).value)
  {
    hide Inv;
    match s.threads[t]
    case AtGate(_) => GateKeepsInv(s, t);
    case GateLeaving => CleanupKeepsInv(s, t);
    case Reading => RegisterKeepsInv(s, t);
    case Writing(_) => RegisterKeepsInv(s, t);
    case LeavingGate(_) => LeaveGateKeepsInv(s, t);
    case Unlocking(_) => QueueKeepsInv(s, t);
    case Relocking => QueueKeepsInv(s, t);
    case Retracting(_, _) => RetractKeepsInv(s, t);
    case Deciding(_, _) => DecideKeepsInv(s, t);
    case Releasing(_) => ReleaseKeepsInv(s, t);
    case Opening(_) => OpenKeepsInv(s, t);
    case FoldAtGate(_) => FoldGateKeepsInv(s, t);
    case FoldSubtract => FoldKeepsInv(s, t);
    case FoldPost => FoldKeepsInv(s, t);
    case FoldClear => FoldKeepsInv(s, t);
    case SigAtLock(_) => SignalKeepsInv(s, t);
    case SigDeciding(_) => SignalKeepsInv(s, t);
    case SigAtGate(_, _) => SignalGateKeepsInv(s, t);
    case SigClosing(_) => CloseKeepsInv(s, t);
    case SigReleasing(_, _) => PostKeepsInv(s, t);
    case SigPosting(_, _) => PostKeepsInv(s, t);
    case DstAtGate(_) => DestroyerGateKeepsInv(s, t);
    case DstTrying => DestroyKeepsInv(s, t);
    case DstGivingUp => DestroyKeepsInv(s, t);
    case DstChecking => CheckKeepsInv(s, t);
    case DstBusyPost => BusyKeepsInv(s, t);
    case DstBusyUnlock => BusyKeepsInv(s, t);
  }

  lemma TakeKeepsInv(s: State, t: nat, stamp: nat)
    requires Inv(s) && t < |s.threads| && StepTake(s, t, stamp).Some?
    ensures Inv(StepTake(s, t, stamp).value)
  {
    OwnFacts(s, t);
    hide Inv, SignalsLive;
    var s' := StepTake(s, t, stamp).value;
    assert |s'.permits| == |s.permits| - 1;
    MoveKeepsInv(s, s', t, s.threads[t], s'.threads[t]);
  }

  lemma AbandonKeepsInv(s: State, t: nat)
    requires Inv(s) && t < |s.threads| && StepAbandon(s, t).Some?
    ensures Inv(StepAbandon(s, t).value)
  {
    OwnFacts(s, t);
    hide Inv, SignalsLive;
    MoveKeepsInv(s, StepAbandon(s, t).value, t, s.threads[t], StepAbandon(s, t).value.threads[t]);
  }

  lemma CancelKeepsInv(s: State, t: nat)
    requires Inv(s) && t < |s.threads| && StepCancelAtGate(s, t).Some?
    ensures Inv(StepCancelAtGate(s, t).value)
  {
    OwnFacts(s, t);
    hide Inv, SignalsLive;
    MoveKeepsInv(s, StepCancelAtGate(s, t).value, t, s.threads[t], StepCancelAtGate(s, t).value.threads[t]);
  }

  lemma StepKeepsInv(s: State, a: Action)
    requires Inv(s) && Step(s, a).Some?
    ensures Inv(Step(s, a).value)
  {
    hide Inv, StepGo, StepTake, StepAbandon, StepCancelAtGate;
    match a
    case StartWait(t) => StartKeepsInv(s, t, AtGate(false));
    case StartSignal(t, all) => StartKeepsInv(s, t, SigAtLock(all));
    case StartDestroy(t) => StartKeepsInv(s, t, DstAtGate(false));
    case Go(t) => GoKeepsInv(s, t);
    case Take(t, stamp) => TakeKeepsInv(s, t, stamp);
    case Abandon(t) => AbandonKeepsInv(s, t);
    case CancelAtGate(t) => CancelKeepsInv(s, t);
  }

  lemma StepKeepsThreadCount(s: State, a: Action)
    requires Step(s, a).Some?
    ensures |Step(s, a).value.threads| == |s.threads|
  {
  }

  lemma {:induction false} RunKeepsInv(s: State, run: seq<Action>)
    requires Inv(s) && Exec(s, run, Step).Some?
    ensures Inv(Exec(s, run, Step).value)
    ensures |Exec(s, run, Step).value.threads| == |s.threads|
    decreases |run|
  {
    if run != [] {
      StepKeepsInv(s, run[0]);
      StepKeepsThreadCount(s, run[0]);
      RunKeepsInv(Step(s, run[0]).value, run[1..]);
    }
  }

  ghost predicate Reachable(s: State, n: nat)
  {
    exists run: seq<Action> :: Exec(InitState(n), run, Step) == Some(s)
  }

  lemma ReachableInv(s: State, n: nat)
    requires Reachable(s, n)
    ensures Inv(s) && |s.threads| == n
  {
    var run: seq<Action> :| Exec(InitState(n), run, Step) == Some(s);
    InitInv(n);
    RunKeepsInv(InitState(n), run);
  }

  // ----- times of registration and of issue

  /** While no signal has been stolen, every permit, posted or on its way, was issued after every
      waiter that could get it had registered. */
  ghost predicate StampsOk(s: State)
  {
    && (forall t :: 0 <= t < |s.threads| && Registered(s.threads[t]) == 1 ==> s.threads[t].reg < s.clock)
    && (s.stolen == 0 ==>
          forall t :: 0 <= t < |s.threads| && Registered(s.threads[t]) == 1 && Took(s.threads[t]) == 0 ==>
            && (forall stamp :: stamp in s.permits ==> s.threads[t].reg < stamp)
            && (forall u :: 0 <= u < |s.threads| && Pending(s.threads[u]) > 0 ==>
                  s.threads[t].reg < s.threads[u].stamp))
  }

  /** While no signal has been stolen, a permit anywhere means that the gate is closed. */
  lemma PermitsMeanClosed(s: State)
    requires Inv(s) && s.stolen == 0
    ensures s.spurious == 0 && SignalsLive(s) == s.c.toUnblock
    ensures s.c.toUnblock == 0 ==> s.permits == multiset{}
    ensures s.c.toUnblock == 0 ==> forall u :: 0 <= u < |s.threads| ==> Pending(s.threads[u]) == 0
  {
    if s.c.toUnblock == 0 {
      assert |s.permits| == 0;
      forall u | 0 <= u < |s.threads| ensures Pending(s.threads[u]) == 0 {
        SumAtLeast(s.threads, u, Pending);
      }
    }
  }

  /** A move that registers nobody while permits are about, and adds only permits that are already on
      their way or are issued now, keeps the times in order. */
  lemma MoveKeepsStamps(s: State, s': State, t: nat, p: Pc, p': Pc)
    requires Inv(s) && StampsOk(s) && t < |s.threads| && p == s.threads[t] && s'.threads == s.threads[t := p']
    requires s.clock <= s'.clock && s.stolen <= s'.stolen
    requires Registered(p') == 1 ==> p'.reg < s'.clock
    requires Registered(p') == 1 && Registered(p) == 1 ==> p'.reg == p.reg && Took(p) <= Took(p')
    requires Registered(p') == 1 && Registered(p) == 0 ==> s.c.toUnblock == 0 && Pending(p') == 0
    requires forall stamp :: stamp in s'.permits ==> stamp in s.permits || (Pending(p) > 0 && p.stamp == stamp)
    requires Pending(p') > 0 ==> (Pending(p) > 0 && p.stamp == p'.stamp) || p'.stamp == s.clock
    ensures StampsOk(s')
  {
    if s.stolen == 0 {
      PermitsMeanClosed(s);
    }
  }

  lemma PostKeepsStamps(s: State, t: nat)
    requires Inv(s) && StampsOk(s) && t < |s.threads| && StepGo(s, t).Some?
    requires var p := s.threads[t]; p.SigDeciding? || p.SigClosing? || p.SigReleasing? || p.SigPosting?
    ensures StampsOk(StepGo(s, t).value)
  {
    OwnFacts(s, t);
    hide Inv, StampsOk, SignalsLive;
    MoveKeepsStamps(s, StepGo(s, t).value, t, s.threads[t], StepGo(s, t).value.threads[t]);
  }

  lemma RegisteredKeepsStamps(s: State, t: nat)
    requires Inv(s) && StampsOk(s) && t < |s.threads| && StepGo(s, t).Some?
    requires var p := s.threads[t]; Registered(p) == 1 || p.Writing?
    ensures StampsOk(StepGo(s, t).value)
  {
    OwnFacts(s, t);
    hide Inv, StampsOk, SignalsLive;
    MoveKeepsStamps(s, StepGo(s, t).value, t, s.threads[t], StepGo(s, t).value.threads[t]);
  }

  lemma WaiterKeepsStamps(s: State, t: nat)
    requires Inv(s) && StampsOk(s) && t < |s.threads| && StepGo(s, t).Some?
    requires var p := s.threads[t]; p.AtGate? || p.GateLeaving? || p.Reading? || p.Releasing? || p.Opening? || p.Relocking? || p.SigAtLock? || p.SigAtGate?
    ensures StampsOk(StepGo(s, t).value)
  {
    OwnFacts(s, t);
    hide Inv, StampsOk, SignalsLive;
    MoveKeepsStamps(s, StepGo(s, t).value, t, s.threads[t], StepGo(s, t).value.threads[t]);
  }

  lemma FoldKeepsStamps(s: State, t: nat)
    requires Inv(s) && StampsOk(s) && t < |s.threads| && StepGo(s, t).Some?
    requires var p := s.threads[t]; p.FoldAtGate? || p.FoldSubtract? || p.FoldPost? || p.FoldClear?
    ensures StampsOk(StepGo(s, t).value)
  {
    OwnFacts(s, t);
    hide Inv, StampsOk, SignalsLive;
    MoveKeepsStamps(s, StepGo(s, t).value, t, s.threads[t], StepGo(s, t).value.threads[t]);
  }

  lemma DestroyKeepsStamps(s: State, t: nat)
    requires Inv(s) && StampsOk(s) && t < |s.threads| && StepGo(s, t).Some?
    requires var p := s.threads[t]; p.DstAtGate? || p.DstTrying? || p.DstGivingUp? || p.DstChecking? || p.DstBusyPost? || p.DstBusyUnlock?
    ensures StampsOk(StepGo(s, t).value)
  {
    OwnFacts(s, t);
    hide Inv, StampsOk, SignalsLive;
    MoveKeepsStamps(s, StepGo(s, t).value, t, s.threads[t], StepGo(s, t).value.threads[t]);
  }

  lemma GoKeepsStamps(s: State, t: nat)
    requires Inv(s) && StampsOk(s) && t < |s.threads| && StepGo(s, t).Some?
    ensures StampsOk(StepGo(s, t).value)
  {
    hide Inv, StampsOk;
    var p := s.threads[t];
    if p.SigDeciding? || p.SigClosing? || p.SigReleasing? || p.SigPosting? {
      PostKeepsStamps(s, t);
    } else if Registered(p) == 1 || p.Writing? {
      RegisteredKeepsStamps(s, t);
    } else if p.FoldAtGate? || p.FoldSubtract? || p.FoldPost? || p.FoldClear? {
      FoldKeepsStamps(s, t);
    } else if p.DstAtGate? || p.DstTrying? || p.DstGivingUp? || p.DstChecking? || p.DstBusyPost? || p.DstBusyUnlock? {
      DestroyKeepsStamps(s, t);
    } else {
      WaiterKeepsStamps(s, t);
    }
  }

  lemma TakeKeepsStamps(s: State, a: Action)
    requires Inv(s) && StampsOk(s) && Step(s, a).Some? && (a.Take? || a.Abandon?)
    ensures StampsOk(Step(s, a).value)
  {
    hide Inv, StepGo;
    MoveKeepsStamps(s, Step(s, a).value, a.t, s.threads[a.t], Step(s, a).value.threads[a.t]);
  }

  lemma CallKeepsStamps(s: State, a: Action)
    requires Inv(s) && StampsOk(s) && Step(s, a).Some? && !a.Go? && !a.Take? && !a.Abandon?
    ensures StampsOk(Step(s, a).value)
  {
    hide Inv, StampsOk, StepGo;
    MoveKeepsStamps(s, Step(s, a).value, a.t, s.threads[a.t], Step(s, a).value.threads[a.t]);
  }

  lemma StepKeepsStamps(s: State, a: Action)
    requires Inv(s) && StampsOk(s) && Step(s, a).Some?
    ensures StampsOk(Step(s, a).value)
  {
    hide Inv, StampsOk, StepGo;
    if a.Go? {
      GoKeepsStamps(s, a.t);
    } else if a.Take? || a.Abandon? {
      TakeKeepsStamps(s, a);
    } else {
      CallKeepsStamps(s, a);
    }
  }

  lemma {:induction false} RunKeepsStamps(s: State, run: seq<Action>)
    requires Inv(s) && StampsOk(s) && Exec(s, run, Step).Some?
    ensures StampsOk(Exec(s, run, Step).value)
    decreases |run|
  {
    if run != [] {
      StepKeepsInv(s, run[0]);
      StepKeepsStamps(s, run[0]);
      RunKeepsStamps(Step(s, run[0]).value, run[1..]);
    }
  }

  lemma ReachableStamps(s: State, n: nat)
    requires Reachable(s, n)
    ensures StampsOk(s)
  {
    var run: seq<Action> :| Exec(InitState(n), run, Step) == Some(s);
    InitInv(n);
    RunKeepsStamps(InitState(n), run);
  }
}
