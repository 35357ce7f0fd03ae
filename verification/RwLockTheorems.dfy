/** What the read/write lock promises, for every run of fewer than INT_MAX threads that mixes reading,
    writing, trying, timing out, cancelling and destroying. */
module RwLockTheorems {
  import opened Counting
  import opened Runs
  import opened RwLock
  import opened RwLockInvariant

  predicate ActiveReader(p: Pc) { MeaningOf(p).active }
  predicate ActiveWriter(p: Pc) { MeaningOf(p).role.Exclusive? }
  predicate AwaitingReaders(p: Pc) { MeaningOf(p).role.Sleeping? || MeaningOf(p).role.Awake? }

  // ----- exclusion

  /** While a thread writes no thread reads, and no other thread writes. */
  lemma WriterExcludesAll(s: State, n: nat, t: nat)
    requires Reachable(s, n) && t < |s.threads| && ActiveWriter(s.threads[t])
    ensures forall u :: 0 <= u < |s.threads| ==> !ActiveReader(s.threads[u])
    ensures forall u :: 0 <= u < |s.threads| && ActiveWriter(s.threads[u]) ==> u == t
    ensures s.c == Counters(0, 1, 0)
  {
    ReachableInv(s, n);
    assert ThreadOk(s, t);
    forall u | 0 <= u < |s.threads|
      ensures !ActiveReader(s.threads[u]) && (ActiveWriter(s.threads[u]) ==> u == t)
    {
      assert ThreadOk(s, u);
      SumAtLeast(s.threads, u, Active);
    }
  }

  /** The read of `nExclusiveAccessCount` that pthread_rwlock_unlock makes without any mutex tells a
      reader from a writer. */
  lemma UnguardedReadClassifies(s: State, n: nat, t: nat)
    requires Reachable(s, n) && t < |s.threads| && (s.threads[t].Reading? || s.threads[t].Writing?)
    ensures s.c.exclusive == if s.threads[t].Reading? then 0 else 1
    ensures !s.freed ==> Step(s, Unlock(t)) == Some(s.Move(t, if s.threads[t].Reading? then RdUnlockAtInner else WrLeaving))
  {
    ReachableInv(s, n);
    assert ThreadOk(s, t);
    if s.threads[t].Reading? {
      SumAtLeast(s.threads, t, Active);
    }
  }

  // ----- the counters

  /** The counters give the number of readers inside, in one way while a writer waits and in another
      otherwise, and stay in the range of an int through any number of locks and unlocks. */
  lemma CountersCountReaders(s: State, n: nat)
    requires Reachable(s, n)
    ensures OuterRole(s).Sleeping? || OuterRole(s).Awake? ==> Readers(s) == -s.c.completed
    ensures !OuterRole(s).Sleeping? && !OuterRole(s).Awake? ==> Readers(s) == s.c.shared - s.c.completed
    ensures 0 <= s.c.shared <= INT_MAX && -INT_MAX < s.c.completed <= INT_MAX && 0 <= s.c.exclusive <= 1
  {
    ReachableInv(s, n);
    SumBounded(s.threads, Active);
  }

  /** The fold is what keeps them there: the count reaches its limit only in the hands of the reader
      that will fold, and is below it again when that reader is done. */
  lemma LimitIsFoldedAway(s: State, n: nat, t: nat)
    requires Reachable(s, n) && t < |s.threads|
    ensures s.c.shared == INT_MAX && MeaningOf(s.threads[t]).outer ==> s.threads[t].RdFoldAtInner? || s.threads[t].RdFolding?
    ensures s.threads[t].RdCounting? ==> s.c.shared < INT_MAX
    ensures s.threads[t].RdFolding? && Step(s, Go(t)).Some? ==>
              var s' := Step(s, Go(t)).value; s'.c.completed == 0 && s'.c.shared == Readers(s) < INT_MAX
  {
    ReachableInv(s, n);
    assert ThreadOk(s, t);
    SumBounded(s.threads, Active);
  }

  // ----- a waiting writer

  lemma StepBesideWaitingWriter(s: State, a: Action)
    requires Local(s, a.t) && Step(s, a).Some? && s.outer.Some?
    requires a.t < |Step(s, a).value.threads|
    requires s.outer == Some(a.t) ==>
               AwaitingReaders(s.threads[a.t]) && AwaitingReaders(Step(s, a).value.threads[a.t])
    ensures ActiveReader(Step(s, a).value.threads[a.t]) ==> ActiveReader(s.threads[a.t])
    ensures Step(s, a).value.c.completed == s.c.completed + (if a.Go? && s.threads[a.t].RdCompleting? then 1 else 0)
  {
    hide OuterRole, SignalComing, SomeWriterWaits, Readers, CountsOk, Covered;
  }

  lemma AwaiterHasOuter(s: State, n: nat, w: nat, t: nat)
    requires Reachable(s, n) && w < |s.threads| && AwaitingReaders(s.threads[w]) && t < |s.threads|
    ensures s.outer == Some(w) && Local(s, t)
  {
    ReachableInv(s, n);
    assert ThreadOk(s, w);
    InvLocal(s, t);
  }

  /** While a writer awaits the readers it found, every step lets at most one of them go and no
      other in. */
  lemma AwaitedReadersOnlyLeave(s: State, n: nat, a: Action, w: nat)
    requires Reachable(s, n) && Step(s, a).Some? && w < |s.threads| && w < |Step(s, a).value.threads|
    requires AwaitingReaders(s.threads[w]) && AwaitingReaders(Step(s, a).value.threads[w])
    ensures var s' := Step(s, a).value;
            && |s'.threads| == |s.threads|
            && (forall u :: 0 <= u < |s.threads| && ActiveReader(s'.threads[u]) ==> ActiveReader(s.threads[u]))
            && s'.c.completed == s.c.completed + (if a.Go? && s.threads[a.t].RdCompleting? then 1 else 0)
  {
    OnlyOneMoves(s, a);
    AwaiterHasOuter(s, n, w, a.t);
    hide Step, Inv, Reachable, Local, MeaningOf, ActiveReader, AwaitingReaders;
    StepBesideWaitingWriter(s, a);
  }

  /** The threads of a run that keep a writer `w` waiting. */
  ghost predicate AwaitsThroughout(s: State, run: seq<Action>, w: nat)
    decreases |run|
  {
    && w < |s.threads| && AwaitingReaders(s.threads[w])
    && (run != [] ==> Step(s, run[0]).Some? && AwaitsThroughout(Step(s, run[0]).value, run[1..], w))
  }

  function Completions(s: State, run: seq<Action>): nat
    decreases |run|
  {
    if run == [] || Step(s, run[0]).None? then 0
    else (if run[0].Go? && s.threads[run[0].t].RdCompleting? then 1 else 0)
         + Completions(Step(s, run[0]).value, run[1..])
  }

  /** From the moment it waits until it stops waiting, a writer sees no new reader, and exactly as many
      of the old ones leave as are counted out. */
  lemma {:induction false} NoReaderAdmittedWhileWriterWaits(s: State, n: nat, run: seq<Action>, w: nat)
    requires Reachable(s, n) && AwaitsThroughout(s, run, w)
    ensures Exec(s, run, Step).Some?
    ensures var s' := Exec(s, run, Step).value;
            && |s'.threads| == |s.threads|
            && (forall u :: 0 <= u < |s.threads| && ActiveReader(s'.threads[u]) ==> ActiveReader(s.threads[u]))
            && Readers(s') == Readers(s) - Completions(s, run)
    decreases |run|
  {
    hide Step, Reachable, AwaitingReaders;
    AwaitedCount(s, n, w);
    if run != [] {
      var s1 := Step(s, run[0]).value;
      AwaitedReadersOnlyLeave(s, n, run[0], w);
      StepReachable(s, n, run[0]);
      AwaitedCount(s1, n, w);
      NoReaderAdmittedWhileWriterWaits(s1, n, run[1..], w);
    }
  }

  lemma AwaitedCount(s: State, n: nat, w: nat)
    requires Reachable(s, n) && w < |s.threads| && AwaitingReaders(s.threads[w])
    ensures Readers(s) == -s.c.completed
  {
    ReachableInv(s, n);
    assert ThreadOk(s, w);
  }

  lemma StepReachable(s: State, n: nat, a: Action)
    requires Reachable(s, n) && Step(s, a).Some?
    ensures Reachable(Step(s, a).value, n)
  {
    var run: seq<Action> :| Exec(InitState(n), run, Step) == Some(s);
    ExecSplits(InitState(n), run, [a], Step);
    assert Exec(InitState(n), run + [a], Step) == Some(Step(s, a).value);
  }

  /** A reader that counts itself out goes on to signal exactly when a writer waits and it was the last
      reader inside. */
  lemma LastReaderSignals(s: State, n: nat, t: nat)
    requires Reachable(s, n) && t < |s.threads| && s.threads[t].RdCompleting? && !s.freed
    ensures Step(s, Go(t)).Some?
    ensures Step(s, Go(t)).value.threads[t].RdSignalling? <==>
              (OuterRole(s).Sleeping? || OuterRole(s).Awake?) && Readers(s) == 1
  {
    ReachableInv(s, n);
    assert ThreadOk(s, t);
    SumAtLeast(s.threads, t, Active);
  }

  /** No lost wakeup: when no reader is left, a writer in the condition wait has been signalled, or the
      last reader is about to signal it. */
  lemma SleepingWriterIsSignalled(s: State, n: nat, t: nat)
    requires Reachable(s, n) && t < |s.threads| && s.threads[t].WrWaiting?
    requires forall u :: 0 <= u < |s.threads| ==> !ActiveReader(s.threads[u])
    ensures s.notified || exists u :: 0 <= u < |s.threads| && s.threads[u].RdSignalling?
  {
    ReachableInv(s, n);
    assert ThreadOk(s, t);
    SumZero(s.threads, Active);
  }

  // ----- progress

  /** A thread that has the inner mutex can take its next step, unless it is the active writer. */
  lemma InnerOwnerMoves(s: State, n: nat, t: nat)
    requires Reachable(s, n) && !s.freed && t < |s.threads| && MeaningOf(s.threads[t]).inner
    ensures s.threads[t].Writing? || StepGo(s, t).Some?
  {
    ReachableInv(s, n);
    assert ThreadOk(s, t);
  }

  /** A reader on its way out is never held up by a writer, active or waiting. */
  lemma ReaderCanLeave(s: State, n: nat, t: nat)
    requires Reachable(s, n) && !s.freed && t < |s.threads| && s.threads[t].RdUnlockAtInner?
    ensures StepGo(s, t).Some? || (s.inner.Some? && s.inner.value < |s.threads| && StepGo(s, s.inner.value).Some?)
  {
    ReachableInv(s, n);
    if s.inner.Some? {
      assert ThreadOk(s, s.inner.value);
      InnerOwnerMoves(s, n, s.inner.value);
      SumAtLeast(s.threads, t, Active);
    }
  }

  predicate AtRest(p: Pc) { p.Idle? || p.Reading? || p.Writing? }

  /** When nobody reads or writes, a thread inside the library never waits for nothing: some thread has
      an enabled step. */
  lemma NoDeadlock(s: State, n: nat, t: nat)
    requires Reachable(s, n) && !s.freed && t < |s.threads| && !AtRest(s.threads[t])
    requires forall u :: 0 <= u < |s.threads| ==> !s.threads[u].Reading? && !s.threads[u].Writing?
    ensures exists u :: 0 <= u < |s.threads| && StepGo(s, u).Some?
  {
    ReachableInv(s, n);
    assert ThreadOk(s, t);
    if s.inner.Some? {
      assert ThreadOk(s, s.inner.value);
      InnerOwnerMoves(s, n, s.inner.value);
    } else if s.outer.None? {
      assert StepGo(s, t).Some?;
    } else {
      var o := s.outer.value;
      assert ThreadOk(s, o);
      if StepGo(s, o).None? {
        assert s.threads[o].WrWaiting? && s.c.completed < 0;
        var r := SumWitness(s.threads, Active);
        assert ThreadOk(s, r);
        assert StepGo(s, r).Some?;
      }
    }
  }

  /** The longest path of library steps that a thread still has before it until it has let go of the lock
      again; a wakeup lets a waiting writer go round its loop once more. */
  function StepsLeft(p: Pc): nat
  {
    match p
    case Idle | Leaked => 0
    case RdAtOuter => 13
    case RdCounting => 12
    case RdFoldAtInner => 11
    case RdFolding => 10
    case RdReleasing => 9
    case Reading => 8
    case RdUnlockAtInner => 7
    case RdCompleting => 6
    case RdSignalling => 5
    case RdLeaving => 1
    case WrAtOuter(_) => 7
    case WrAtInner(_) => 6
    case WrGivingUp => 1
    case WrDeciding => 5
    case WrWaiting => 4
    case WrWoken(_) => 6
    case WrTesting(_) => 5
    case WrUndoing => 3
    case WrUndoInner => 2
    case WrUndoOuter => 1
    case Writing => 4
    case WrLeaving => 3
    case WrReleaseInner => 2
    case WrReleaseOuter => 1
    case TryAtInner => 6
    case TryDeciding => 5
    case TryBusyInner => 2
    case TryBusyOuter => 1
    case DstAtOuter => 5
    case DstAtInner => 4
    case DstChecking => 3
    case DstBusyInner => 2
    case DstBusyOuter => 1
  }

  ghost function Distance(s: State): nat { Sum(s.threads, StepsLeft) + if s.notified then 3 else 0 }

  predicate Advanced(s: State, s': State, t: nat)
    requires t < |s.threads|
  {
    && |s'.threads| == |s.threads| && s'.threads == s.threads[t := s'.threads[t]]
    && StepsLeft(s'.threads[t]) + (if s'.notified then 3 else 0) < StepsLeft(s.threads[t]) + if s.notified then 3 else 0
  }

  lemma ReaderAdvances(s: State, t: nat)
    requires t < |s.threads| && StepReader(s, t).Some?
    ensures Advanced(s, StepReader(s, t).value, t)
  {
    hide SomeWriterWaits;
  }

  lemma WriterAdvances(s: State, t: nat)
    requires t < |s.threads| && StepWriter(s, t).Some?
    ensures Advanced(s, StepWriter(s, t).value, t)
  {
    if StepsLeft(s.threads[t]) > 3 {
      WaitingWriterAdvances(s, t);
    } else {
      LeavingWriterAdvances(s, t);
    }
  }

  lemma WaitingWriterAdvances(s: State, t: nat)
    requires t < |s.threads| && StepWriter(s, t).Some? && StepsLeft(s.threads[t]) > 3
    ensures Advanced(s, StepWriter(s, t).value, t)
  {
  }

  lemma LeavingWriterAdvances(s: State, t: nat)
    requires t < |s.threads| && StepWriter(s, t).Some? && StepsLeft(s.threads[t]) <= 3
    ensures Advanced(s, StepWriter(s, t).value, t)
  {
  }

  lemma OtherAdvances(s: State, t: nat)
    requires t < |s.threads| && StepOther(s, t).Some? && !s.freed && !StepOther(s, t).value.freed
    ensures Advanced(s, StepOther(s, t).value, t)
  {
  }

  lemma GoAdvances(s: State, t: nat)
    requires Step(s, Go(t)).Some? && !Step(s, Go(t)).value.freed
    ensures Advanced(s, Step(s, Go(t)).value, t)
  {
    hide StepReader, StepWriter, StepOther, StepsLeft;
    if ReaderPc(s.threads[t]) {
      ReaderAdvances(s, t);
    } else if WriterPc(s.threads[t]) {
      WriterAdvances(s, t);
    } else {
      OtherAdvances(s, t);
    }
  }

  /** The steps that finish what has been begun: library steps, and unlocks by threads that have the lock. */
  predicate Finishing(a: Action) { a.Go? || a.Unlock? }

  /** They cannot go on for ever without new calls, spurious wakeups and timeouts. */
  lemma LibraryStepsRunOut(s: State, n: nat, a: Action)
    requires Reachable(s, n) && Finishing(a) && Step(s, a).Some? && !Step(s, a).value.freed
    ensures Distance(Step(s, a).value) < Distance(s)
  {
    var s' := Step(s, a).value;
    if a.Go? {
      GoAdvances(s, a.t);
    } else {
      UnguardedReadClassifies(s, n, a.t);
    }
    hide Reachable, Step;
    SumUpdate(s.threads, a.t, s'.threads[a.t], StepsLeft);
  }

  /** Until a call has returned there is such a step. */
  lemma UnfinishedMoves(s: State, n: nat, w: nat) returns (a: Action)
    requires Reachable(s, n) && !s.freed && w < |s.threads| && !AtRest(s.threads[w])
    ensures Finishing(a) && a != Unlock(w) && Step(s, a).Some?
  {
    if u :| 0 <= u < |s.threads| && (s.threads[u].Reading? || s.threads[u].Writing?) {
      a := Unlock(u);
    } else {
      NoDeadlock(s, n, w);
      var u :| 0 <= u < |s.threads| && StepGo(s, u).Some?;
      a := Go(u);
    }
  }

  ghost predicate OnlyFinishing(run: seq<Action>) { forall i :: 0 <= i < |run| ==> Finishing(run[i]) }

  function Inside(w: nat): State -> bool
  {
    (s: State) => w < |s.threads| && !AtRest(s.threads[w])
  }

  /** Every call returns under every schedule: for as long as a call is under way, the threads that have the
      lock unlock it and the library goes on, each step brings all of them nearer to the end, in whatever
      order they are taken, and some step can be taken. */
  lemma {:induction false} EveryScheduleEnds(s: State, n: nat, w: nat, run: seq<Action>)
    requires Reachable(s, n) && !s.freed && OnlyFinishing(run) && While(s, run, Step, Inside(w))
    ensures Exec(s, run, Step).Some?
    ensures var s' := Exec(s, run, Step).value;
            !s'.freed ==>
              && Distance(s') + |run| <= Distance(s) && |s'.threads| == |s.threads|
              && (w < |s'.threads| && !AtRest(s'.threads[w]) ==> exists a :: Finishing(a) && a != Unlock(w) && Step(s', a).Some?)
    decreases |run|
  {
    if run == [] {
      if w < |s.threads| && !AtRest(s.threads[w]) {
        var a := UnfinishedMoves(s, n, w);
      }
    } else {
      var s1 := Step(s, run[0]).value;
      assert Finishing(run[0]);
      StepReachable(s, n, run[0]);
      OnlyOneMoves(s, run[0]);
      assert OnlyFinishing(run[1..]);
      if !s1.freed {
        LibraryStepsRunOut(s, n, run[0]);
        hide Step, Reachable, Distance, OnlyFinishing;
        EveryScheduleEnds(s1, n, w, run[1..]);
      }
    }
  }

  /** A writer somewhere in its call that has not given up. */
  predicate OnItsWay(p: Pc)
  {
    p.WrAtOuter? || p.WrAtInner? || p.WrDeciding? || p.WrWaiting? || p == WrWoken(true) || p == WrTesting(true)
  }

  predicate Destroyer(p: Pc) { p.DstAtOuter? || p.DstAtInner? || p.DstChecking? || p.DstBusyInner? || p.DstBusyOuter? }

  /** Nobody is about to destroy the lock before the writer has the outer mutex. */
  ghost predicate Undestroyed(s: State, w: nat)
    requires w < |s.threads|
  {
    MeaningOf(s.threads[w]).outer || forall u :: 0 <= u < |s.threads| ==> !Destroyer(s.threads[u])
  }

  lemma FinishingKeepsWay(s: State, n: nat, w: nat, a: Action)
    requires Reachable(s, n) && !s.freed && w < |s.threads| && OnItsWay(s.threads[w]) && Undestroyed(s, w)
    requires Finishing(a) && a != Unlock(w) && Step(s, a).Some?
    ensures var s' := Step(s, a).value;
            && !s'.freed && |s'.threads| == |s.threads|
            && (s'.threads[w].Writing? || (OnItsWay(s'.threads[w]) && Undestroyed(s', w)))
  {
    ReachableInv(s, n);
    OnlyOneMoves(s, a);
    assert ThreadOk(s, a.t) && ThreadOk(s, w);
    if a.t == w {
      WayGoesOn(s, w);
    } else {
      DestroyerStep(s, a);
    }
    hide Inv, Step;
  }

  lemma WayGoesOn(s: State, w: nat)
    requires w < |s.threads| && OnItsWay(s.threads[w]) && StepGo(s, w).Some? && !s.freed
    ensures !StepGo(s, w).value.freed && w < |StepGo(s, w).value.threads|
    ensures var p, p' := s.threads[w], StepGo(s, w).value.threads[w]; p'.Writing? || (OnItsWay(p') && MeaningOf(p').outer)
  {
  }

  lemma DestroyerStep(s: State, a: Action)
    requires Finishing(a) && Step(s, a).Some? && !s.freed
    ensures a.t < |s.threads| && a.t < |Step(s, a).value.threads|
    ensures Destroyer(Step(s, a).value.threads[a.t]) ==> Destroyer(s.threads[a.t])
    ensures Step(s, a).value.freed ==> s.threads[a.t].DstChecking?
  {
    hide SomeWriterWaits;
  }

  /** A writer comes to write from every point of its call: if it does not give up, the threads that have
      the lock, and those that come to have it before the writer, unlock it again, and nobody destroys it,
      then a bounded number of steps brings it there. */
  lemma {:induction false} WriterComesToWrite(s: State, n: nat, w: nat) returns (run: seq<Action>)
    requires Reachable(s, n) && !s.freed && w < |s.threads| && OnItsWay(s.threads[w]) && Undestroyed(s, w)
    ensures OnlyFinishing(run) && |run| <= Distance(s)
    ensures Exec(s, run, Step).Some? && w < |Exec(s, run, Step).value.threads|
    ensures Exec(s, run, Step).value.threads[w].Writing?
    decreases Distance(s)
  {
    var a := UnfinishedMoves(s, n, w);
    FinishingKeepsWay(s, n, w, a);
    LibraryStepsRunOut(s, n, a);
    StepReachable(s, n, a);
    hide Reachable, Step, OnlyFinishing, Finishing, OnItsWay, Undestroyed, Distance;
    var s' := Step(s, a).value;
    if s'.threads[w].Writing? {
      run := [a];
      ExecTrace([s, s'], run, Step);
      OneFinishing(a, []);
      assert [a] + [] == run;
    } else {
      var rest := WriterComesToWrite(s', n, w);
      run := [a] + rest;
      assert run[0] == a && run[1..] == rest;
      OneFinishing(a, rest);
    }
  }

  lemma OneFinishing(a: Action, rest: seq<Action>)
    requires Finishing(a) && (rest == [] || OnlyFinishing(rest))
    ensures OnlyFinishing([a] + rest)
  {
  }

  /** No caller is ever told EBUSY while it still has the two mutexes locked: the branch of
      pthread_rwlock_trywrlock that would do so is not taken. */
  lemma BusyWriterHoldsNothing(s: State, n: nat, t: nat)
    requires Reachable(s, n) && t < |s.threads|
    ensures !s.threads[t].Leaked?
    ensures s.threads[t].Idle? ==> s.outer != Some(t) && s.inner != Some(t)
    ensures s.threads[t].TryDeciding? || s.threads[t].WrDeciding? ==> s.c.exclusive == 0
  {
    ReachableInv(s, n);
    assert ThreadOk(s, t);
  }

  /** The lock is freed exactly when the destroyer finds no reader inside and no writer active. */
  lemma DestroyFreesOnlyUnused(s: State, n: nat, t: nat)
    requires Reachable(s, n) && !s.freed && t < |s.threads| && s.threads[t].DstChecking?
    ensures Step(s, Go(t)).Some?
    ensures Step(s, Go(t)).value.freed <==> forall u :: 0 <= u < |s.threads| ==> !ActiveReader(s.threads[u])
    ensures forall u :: 0 <= u < |s.threads| ==> !ActiveWriter(s.threads[u]) && !AwaitingReaders(s.threads[u])
  {
    ReachableInv(s, n);
    assert ThreadOk(s, t);
    forall u | 0 <= u < |s.threads| ensures !ActiveWriter(s.threads[u]) && !AwaitingReaders(s.threads[u]) {
      assert ThreadOk(s, u);
    }
    if Readers(s) == 0 {
      forall u | 0 <= u < |s.threads| ensures !ActiveReader(s.threads[u]) {
        SumAtLeast(s.threads, u, Active);
      }
    } else {
      var r := SumWitness(s.threads, Active);
    }
  }

  // ----- refinement of an abstract read/write lock

  datatype Abstract = Abstract(readers: set<nat>, writers: set<nat>)

  function Abs(s: State): Abstract
  {
    Abstract(set t | 0 <= t < |s.threads| && ActiveReader(s.threads[t]),
             set t | 0 <= t < |s.threads| && ActiveWriter(s.threads[t]))
  }

  /** A reader comes in when there is no writer, a writer when there is nobody, and each leaves alone. */
  predicate AbstractStep(a: Abstract, a': Abstract, t: nat)
  {
    || a' == a
    || (a.writers == {} && t !in a.readers && a' == a.(readers := a.readers + {t}))
    || (a == Abstract({}, {}) && a' == Abstract({}, {t}))
    || (t in a.readers && a' == a.(readers := a.readers - {t}))
    || (a.writers == {t} && a' == a.(writers := {}))
  }

  lemma RefinesReadWriteLock(s: State, n: nat, a: Action)
    requires Reachable(s, n) && Step(s, a).Some?
    ensures AbstractStep(Abs(s), Abs(Step(s, a).value), a.t)
  {
    var s' := Step(s, a).value;
    var t := a.t;
    StepReachable(s, n, a);
    OnlyOneMoves(s, a);
    SideKept(s, n, a);
    hide Step, Reachable, ActiveReader, ActiveWriter;
    if ActiveWriter(s.threads[t]) {
      WriterExcludesAll(s, n, t);
      assert Abs(s) == Abstract({}, {t});
      assert Abs(s').readers == {};
      assert Abs(s').writers == if ActiveWriter(s'.threads[t]) then {t} else {};
    } else if ActiveWriter(s'.threads[t]) {
      WriterExcludesAll(s', n, t);
      assert Abs(s') == Abstract({}, {t});
      assert Abs(s) == Abstract({}, {});
    } else {
      assert Abs(s').writers == Abs(s).writers;
      assert Abs(s').readers == if ActiveReader(s'.threads[t]) then Abs(s).readers + {t} else Abs(s).readers - {t};
      assert t !in Abs(s).readers ==> Abs(s).readers - {t} == Abs(s).readers;
      assert t in Abs(s).readers ==> Abs(s).readers + {t} == Abs(s).readers;
      if ActiveReader(s'.threads[t]) && Abs(s').writers != {} {
        var w :| w in Abs(s').writers;
        WriterExcludesAll(s', n, w);
      }
    }
  }

  lemma OnlyOneMoves(s: State, a: Action)
    requires Step(s, a).Some?
    ensures a.t < |s.threads| && |Step(s, a).value.threads| == |s.threads|
    ensures forall u :: 0 <= u < |s.threads| && u != a.t ==> Step(s, a).value.threads[u] == s.threads[u]
  {
  }

  /** No thread turns from a reader into a writer or back in one step. */
  lemma ReadersStayReaders(s: State, a: Action)
    requires Step(s, a).Some?
    requires s.threads[a.t].Reading? ==> s.c.exclusive == 0
    requires s.threads[a.t].Writing? ==> s.c.exclusive == 1
    ensures ActiveWriter(Step(s, a).value.threads[a.t]) ==> !ActiveReader(s.threads[a.t])
    ensures ActiveWriter(s.threads[a.t]) ==> !ActiveReader(Step(s, a).value.threads[a.t])
  {
  }

  lemma SideKept(s: State, n: nat, a: Action)
    requires Reachable(s, n) && Step(s, a).Some?
    ensures ActiveWriter(Step(s, a).value.threads[a.t]) ==> !ActiveReader(s.threads[a.t])
    ensures ActiveWriter(s.threads[a.t]) ==> !ActiveReader(Step(s, a).value.threads[a.t])
  {
    hide Reachable, ActiveReader, ActiveWriter;
    if s.threads[a.t].Reading? || s.threads[a.t].Writing? {
      UnguardedReadClassifies(s, n, a.t);
    }
    ReadersStayReaders(s, a);
  }
}
