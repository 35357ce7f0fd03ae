/** What the condition variable promises, for every run of any number of threads. */
module CondVarTheorems {
  import opened Counting
  import opened Runs
  import opened CondVar
  import opened CondVarInvariant
  import S = Semaphore

  // ----- conservation

  /** Waiters that registered and have not retracted are exactly what the counters say, except
      between the two writes of a fold, where the departures are still on the books. */
  lemma WaitersAreConserved(s: State, n: nat)
    requires Reachable(s, n)
    ensures Sum(s.threads, Folded) == 0 ==>
              Sum(s.threads, Registered) == s.c.blocked - s.c.gone + s.c.toUnblock
    ensures Sum(s.threads, Folded) > 0 ==>
              Sum(s.threads, Registered) == s.c.blocked && s.c.toUnblock == 0
  {
    ReachableInv(s, n);
    if Sum(s.threads, Folded) > 0 {
      var t := SumWitness(s.threads, Folded);
      FoldsBelongToOwner(s, t);
    }
  }

  /** No counter goes negative, departures reach the fold limit only while a thread folds them, and
      everything fits a C long for as long as the threads number at most INT_MAX / 2. */
  lemma CountersInRange(s: State, n: nat)
    requires Reachable(s, n)
    ensures 0 <= s.c.toUnblock <= n
    ensures 0 <= s.c.blocked <= n + FOLD_AT
    ensures 0 <= s.c.gone <= FOLD_AT
    ensures s.c.gone == FOLD_AT <==> exists t :: 0 <= t < |s.threads| && Folding(s.threads[t]) == 1
  {
    ReachableInv(s, n);
    SumBounded(s.threads, Registered);
    if Sum(s.threads, Folded) > 0 {
      var t := SumWitness(s.threads, Folded);
      FoldsBelongToOwner(s, t);
    }
    if s.c.gone == FOLD_AT {
      var t := SumWitness(s.threads, Folding);
    }
    forall t | 0 <= t < |s.threads| && Folding(s.threads[t]) == 1 ensures s.c.gone == FOLD_AT {
      SumAtLeast(s.threads, t, Folding);
    }
  }

  // ----- the gate

  /** A cancelled thread, cleaning up after its wait at the gate, meets a count that is not zero and a
      permit in the kernel semaphore. */
  predicate TakesGatePermit(s: State, a: Action)
  {
    && a.Go? && a.t < |s.threads| && s.threads[a.t].GateLeaving?
    && s.gate.value != 0 && s.gate.kernel > 0
  }

  /** The gate is spoken for in one way, a free permit, one thread inside, outstanding signals, or one
      thread about to open it; a step leaves it in none if and only if it is the cleanup of a cancelled
      thread at those counts. */
  lemma GateLostIff(s: State, n: nat, a: Action)
    requires Reachable(s, n) && GateCount(s) == 1 && Step(s, a).Some?
    ensures GateCount(Step(s, a).value) == 0 <==> TakesGatePermit(s, a)
    ensures GateCount(Step(s, a).value) <= 1
  {
    ReachableInv(s, n);
    StepKeepsInv(s, a);
    LostMoves(s, a);
  }

  lemma LostMoves(s: State, a: Action)
    requires Step(s, a).Some?
    ensures Step(s, a).value.lost == s.lost + if TakesGatePermit(s, a) then 1 else 0
  {
    if a.Go? {
      GoMovesLost(s, a.t);
    }
  }

  lemma GoMovesLost(s: State, t: nat)
    requires t < |s.threads| && StepGo(s, t).Some?
    ensures StepGo(s, t).value.lost == s.lost + if TakesGatePermit(s, Go(t)) then 1 else 0
  {
  }

  function GateLosses(s: State, run: seq<Action>): nat
    decreases |run|
  {
    if run == [] || Step(s, run[0]).None? then 0
    else (if TakesGatePermit(s, run[0]) then 1 else 0) + GateLosses(Step(s, run[0]).value, run[1..])
  }

  lemma {:induction false} LossesCounted(s: State, run: seq<Action>)
    requires Exec(s, run, Step).Some?
    ensures Exec(s, run, Step).value.lost == s.lost + GateLosses(s, run)
    decreases |run|
  {
    if run != [] {
      LostMoves(s, run[0]);
      hide Step, TakesGatePermit;
      LossesCounted(Step(s, run[0]).value, run[1..]);
    }
  }

  /** Over whole runs: after any run the gate is spoken for in exactly one way, so that each closing has
      exactly one opener, if and only if the run has no such cleanup; and no run has two. */
  lemma GateExclusiveIff(n: nat, run: seq<Action>)
    requires Exec(InitState(n), run, Step).Some?
    ensures GateCount(Exec(InitState(n), run, Step).value) == 1 <==> GateLosses(InitState(n), run) == 0
    ensures GateCount(Exec(InitState(n), run, Step).value) + GateLosses(InitState(n), run) == 1
  {
    LossesCounted(InitState(n), run);
    assert Reachable(Exec(InitState(n), run, Step).value, n);
    ReachableInv(Exec(InitState(n), run, Step).value, n);
  }

  /** The permit that such a cleanup takes was posted for somebody else: unless an earlier cancelled
      thread left the semaphore's count without withdrawing, another thread is in the wait too, and is
      left there with nothing to wake it. */
  lemma LostPermitWasAnothers(s: State, n: nat, a: Action) returns (u: nat)
    requires Reachable(s, n) && s.skipped == 0 && TakesGatePermit(s, a) && Step(s, a).Some?
    ensures u < |s.threads| && u != a.t && AtKernel(s.threads[u]) == 1
    ensures var s' := Step(s, a).value; s'.gate.Supply() == 0 && s'.gate.Unserved() > 0
  {
    ReachableInv(s, n);
    OwnFacts(s, a.t);
    assert s.gate.kernel == 1 && s.gate.Unserved() > 0;
    assert Sum(s.threads, AtKernel) >= 2;
    u := OtherAtKernel(s.threads, a.t);
    hide Inv;
  }

  lemma OtherAtKernel(threads: seq<Pc>, t: nat) returns (u: nat)
    requires t < |threads| && Sum(threads, AtKernel) >= 2
    ensures u < |threads| && u != t && AtKernel(threads[u]) == 1
  {
    if forall v :: 0 <= v < |threads| && v != t ==> AtKernel(threads[v]) == 0 {
      SumOnlyAt(threads, t, AtKernel);
    }
    u :| 0 <= u < |threads| && u != t && AtKernel(threads[u]) != 0;
  }

  // ----- no lost wakeup, no stealing

  /** The permits present, about to be posted, or taken and not yet accounted for, always cover the
      waiters still to be unblocked, whatever has timed out or been cancelled. */
  lemma NoLostWakeup(s: State, n: nat)
    requires Reachable(s, n)
    ensures s.c.toUnblock <= |s.permits| + Sum(s.threads, Pending) + Sum(s.threads, Took)
  {
    ReachableInv(s, n);
  }

  function Uncovered(p: Pc): nat
  {
    if Registered(p) == 1 && Took(p) == 0 then 1 else 0
  }

  /** Once a broadcast has been counted, every registered waiter that has no permit yet has one of
      its own, present or about to be posted. */
  lemma BroadcastCoversEveryWaiter(s: State, n: nat, t: nat)
    requires Reachable(s, n) && t < |s.threads|
    requires s.threads[t] == SigClosing(true) || (s.threads[t] == SigDeciding(true) && s.c.toUnblock != 0)
    requires Step(s, Go(t)).Some?
    ensures var s' := Step(s, Go(t)).value;
            && s'.c.blocked == 0
            && Sum(s'.threads, Uncovered) <= |s'.permits| + Sum(s'.threads, Pending)
  {
    ReachableInv(s, n);
    GoKeepsInv(s, t);
    var s' := Step(s, Go(t)).value;
    OwnFacts(s', t);
    FoldsBelongToOwner(s', t);
    SumAdd(s'.threads, Registered, Uncovered, Took);
  }

  /** A signal or broadcast that has the unblock mutex does nothing if and only if every registered
      waiter has been signalled already. */
  lemma SignalIgnoredIff(s: State, n: nat, t: nat)
    requires Reachable(s, n) && !s.freed && t < |s.threads| && s.threads[t].SigDeciding?
    ensures Step(s, Go(t)).Some?
    ensures (exists stamp :: Step(s, Go(t)).value.threads[t] == SigReleasing(0, stamp))
            <==> Sum(s.threads, Registered) == s.c.toUnblock
  {
    ReachableInv(s, n);
    OwnFacts(s, t);
    FoldsBelongToOwner(s, t);
    var p' := Step(s, Go(t)).value.threads[t];
    if p'.SigReleasing? && p'.n == 0 {
      assert p' == SigReleasing(0, p'.stamp);
    }
  }

  /** A broadcast that goes through counts every registered waiter that was not signalled yet, and a
      signal counts exactly one of them. */
  lemma SignalCounts(s: State, n: nat, t: nat, all: bool)
    requires Reachable(s, n) && !s.freed && t < |s.threads|
    requires s.threads[t] == SigClosing(all) || (s.threads[t] == SigDeciding(all) && s.c.toUnblock != 0)
    requires Sum(s.threads, Registered) > s.c.toUnblock
    ensures Step(s, Go(t)).Some?
    ensures var s' := Step(s, Go(t)).value;
            && s'.c.toUnblock == (if all then Sum(s.threads, Registered) else s.c.toUnblock + 1)
            && s'.threads[t] == SigReleasing(s'.c.toUnblock - s.c.toUnblock, s.clock)
  {
    ReachableInv(s, n);
    OwnFacts(s, t);
    FoldsBelongToOwner(s, t);
    assert ThreadOk(s, s.threads[t]);
  }

  /** Until some timeout or cancellation has used up a signal, a waiter only ever takes a permit
      issued after it registered, and no wakeup is spurious. */
  lemma NoStealing(s: State, n: nat, t: nat, stamp: nat)
    requires Reachable(s, n) && s.stolen == 0 && t < |s.threads|
    requires Step(s, Take(t, stamp)).Some?
    ensures s.threads[t].reg < stamp
    ensures s.spurious == 0
  {
    ReachableInv(s, n);
    ReachableStamps(s, n);
    PermitsMeanClosed(s);
  }

  /** In any run, wakeups that find no signal never outnumber the signals that retractions without a
      permit used up. */
  lemma SpuriousBounded(s: State, n: nat)
    requires Reachable(s, n)
    ensures s.spurious <= s.stolen
  {
    ReachableInv(s, n);
  }

  // ----- destruction

  /** The destroyer frees the object exactly when no waiter is registered; nobody else is then inside
      the gate or the mutex. */
  lemma DestroyFreesOnlyUnused(s: State, n: nat, t: nat)
    requires Reachable(s, n) && t < |s.threads| && s.threads[t].DstChecking? && !s.freed
    ensures Step(s, Go(t)).Some?
    ensures Step(s, Go(t)).value.freed <==> Sum(s.threads, Registered) == 0
    ensures forall u :: 0 <= u < |s.threads| && u != t ==> Inside(s.threads[u]) == 0 && InMutex(s.threads[u]) == 0
  {
    ReachableInv(s, n);
    OwnFacts(s, t);
    FoldsBelongToOwner(s, t);
    Alone(s, t);
  }

  // ----- no deadlock

  /** A step of a thread already inside a call that waits for nothing outside the condition variable. */
  predicate Internal(s: State, a: Action)
  {
    Step(s, a).Some? && (a.Take? || (a.Go? && !s.threads[a.t].Relocking?))
  }

  lemma HolderMoves(s: State)
    requires Inv(s) && !s.freed && s.mtx.Some?
    ensures var p := s.threads[s.mtx.value];
            Internal(s, Go(s.mtx.value)) || (s.gate.Supply() == 0 && (p.FoldAtGate? || p.SigAtGate?))
    ensures var p := s.threads[s.mtx.value];
            p.FoldAtGate? || p.SigAtGate? ==> s.c.toUnblock == 0
  {
    OwnFacts(s, s.mtx.value);
    assert ThreadOk(s, s.threads[s.mtx.value]);
  }

  /** While signals are outstanding, some step brings one of them closer to its waiter. */
  lemma SignalsMove(s: State) returns (a: Action)
    requires Inv(s) && !s.freed && s.c.toUnblock > 0
    ensures Internal(s, a)
  {
    var t;
    if Sum(s.threads, Pending) > 0 {
      t := SumWitness(s.threads, Pending);
    } else if Sum(s.threads, Took) > 0 {
      t := SumWitness(s.threads, Took);
    } else {
      if s.mtx.Some? {
        FoldsBelongToOwner(s, s.mtx.value);
        OwnFacts(s, s.mtx.value);
      } else if Sum(s.threads, Folded) > 0 {
        var u := SumWitness(s.threads, Folded);
        OwnFacts(s, u);
      }
      t := SumWitness(s.threads, Registered);
    }
    if s.threads[t].Queued? {
      assert |s.permits| > 0;
      var stamp :| stamp in s.permits;
      a := Take(t, stamp);
    } else if s.threads[t].Retracting? && s.mtx.Some? {
      HolderMoves(s);
      a := Go(s.mtx.value);
    } else {
      a := Go(t);
    }
  }

  /** While the gate is shut, some step brings its opening closer. */
  lemma ShutGateMoves(s: State) returns (a: Action)
    requires Inv(s) && !s.freed && GateCount(s) == 1 && s.gate.Supply() == 0
    ensures Internal(s, a)
  {
    if s.c.toUnblock > 0 {
      a := SignalsMove(s);
    } else if Sum(s.threads, Inside) > 0 {
      var t := SumWitness(s.threads, Inside);
      a := Go(t);
    } else {
      var t := SumWitness(s.threads, Leaver);
      a := Go(t);
    }
  }

  /** A waiter nobody has signalled may sleep, and a thread may wait for the user mutex; any other
      thread inside a call sees some internal step enabled, so the gate, the unblock mutex and a
      waiter standing at the gate with the user mutex in hand never block one another. */
  lemma NoDeadlock(s: State, n: nat, t: nat) returns (a: Action)
    requires Reachable(s, n) && !s.freed && GateCount(s) == 1 && t < |s.threads|
    requires !s.threads[t].Idle? && !s.threads[t].Relocking?
    requires s.threads[t].Queued? ==> s.c.toUnblock > 0 || |s.permits| > 0
    ensures Internal(s, a)
  {
    ReachableInv(s, n);
    var p := s.threads[t];
    if p.Queued? {
      if |s.permits| > 0 {
        var stamp :| stamp in s.permits;
        a := Take(t, stamp);
      } else {
        a := SignalsMove(s);
      }
    } else if p.AtGate? || p.FoldAtGate? || p.SigAtGate? || p.DstAtGate? {
      OwnFacts(s, t);
      if s.gate.Supply() == 0 && p.blocked {
        a := ShutGateMoves(s);
      } else {
        a := Go(t);
      }
    } else if (p.Retracting? || p.SigAtLock?) && s.mtx.Some? {
      HolderMoves(s);
      if Internal(s, Go(s.mtx.value)) {
        a := Go(s.mtx.value);
      } else {
        a := ShutGateMoves(s);
      }
    } else {
      a := Go(t);
    }
  }

  /** The longest path of library steps that a thread still has before it. */
  function StepsLeft(p: Pc): nat
  {
    match p
    case Idle => 0
    case AtGate(b) => if b then 16 else 17
    case GateLeaving => 1
    case Reading => 15
    case Writing(_) => 14
    case LeavingGate(_) => 13
    case Unlocking(_) => 12
    case Queued(_) => 11
    case Retracting(_, _) => 10
    case Deciding(_, _) => 9
    case FoldAtGate(b) => if b then 7 else 8
    case FoldSubtract => 6
    case FoldPost => 5
    case FoldClear => 4
    case Releasing(_) => 3
    case Opening(_) => 2
    case Relocking => 1
    case SigAtLock(_) => 7
    case SigDeciding(_) => 6
    case SigAtGate(_, b) => if b then 4 else 5
    case SigClosing(_) => 3
    case SigReleasing(_, _) => 2
    case SigPosting(_, _) => 1
    case DstAtGate(b) => if b then 6 else 7
    case DstTrying => 5
    case DstGivingUp => 1
    case DstChecking => 3
    case DstBusyPost => 2
    case DstBusyUnlock => 1
  }

  /** Internal steps cannot go on forever without new calls: each one uses up the distance left. */
  lemma InternalStepsRunOut(s: State, a: Action)
    requires Internal(s, a) && !Step(s, a).value.freed
    ensures Sum(Step(s, a).value.threads, StepsLeft) < Sum(s.threads, StepsLeft)
  {
    var p' := Step(s, a).value.threads[a.t];
    StepAdvances(s, a);
    SumUpdate(s.threads, a.t, p', StepsLeft);
  }

  predicate Advanced(s: State, s': State, t: nat)
    requires t < |s.threads|
  {
    && |s'.threads| == |s.threads|
    && s'.threads == s.threads[t := s'.threads[t]]
    && StepsLeft(s'.threads[t]) < StepsLeft(s.threads[t])
  }

  lemma StepAdvances(s: State, a: Action)
    requires Internal(s, a) && !Step(s, a).value.freed
    ensures Advanced(s, Step(s, a).value, a.t)
  {
    if a.Go? {
      if StepsLeft(s.threads[a.t]) > 6 {
        EarlyGoAdvances(s, a.t);
      } else if StepsLeft(s.threads[a.t]) <= 3 {
        LastGoAdvances(s, a.t);
      } else {
        LateGoAdvances(s, a.t);
      }
    }
  }

  lemma EarlyGoAdvances(s: State, t: nat)
    requires t < |s.threads| && StepGo(s, t).Some? && StepsLeft(s.threads[t]) > 6
    ensures Advanced(s, StepGo(s, t).value, t)
  {
  }

  lemma LateGoAdvances(s: State, t: nat)
    requires t < |s.threads| && StepGo(s, t).Some? && !StepGo(s, t).value.freed && !s.freed
    requires 3 < StepsLeft(s.threads[t]) <= 6
    ensures Advanced(s, StepGo(s, t).value, t)
  {
    hide AfterSignalClosed;
  }

  lemma LastGoAdvances(s: State, t: nat)
    requires t < |s.threads| && StepGo(s, t).Some? && !StepGo(s, t).value.freed && !s.freed
    requires StepsLeft(s.threads[t]) <= 3
    ensures Advanced(s, StepGo(s, t).value, t)
  {
    hide AfterSignalClosing, S.AfterPost;
  }

  /** And where they stop, everything is at rest: the gate is open, no signal is outstanding, and the
      threads inside a call wait for the user mutex or sleep unsignalled. A permit can be left over
      only when nobody sleeps, and only by a retraction that used up its signal. */
  lemma RestingState(s: State, n: nat)
    requires Reachable(s, n) && !s.freed && GateCount(s) == 1
    requires forall a :: !Internal(s, a)
    ensures s.gate.Supply() == 1 && s.c.toUnblock == 0 && |s.permits| + s.spurious == s.stolen
    ensures forall t :: 0 <= t < |s.threads| ==>
              || s.threads[t].Idle? || s.threads[t].Relocking?
              || (s.threads[t].Queued? && s.permits == multiset{})
  {
    ReachableInv(s, n);
    if s.gate.Supply() == 0 {
      var a := ShutGateMoves(s);
    }
    forall t | 0 <= t < |s.threads| && !s.threads[t].Idle? && !s.threads[t].Relocking?
      ensures s.threads[t].Queued? && |s.permits| == 0
    {
      if !s.threads[t].Queued? || |s.permits| > 0 {
        var a := NoDeadlock(s, n, t);
      }
    }
    SumZero(s.threads, Pending);
    SumZero(s.threads, Took);
  }

  // ----- what a cancellation at the gate can do

  /** Once the gate is spoken for in none of the four ways it stays shut in every later state: no
      waiter registers, no signal is counted, and nobody who waits for it is let through. */
  lemma {:induction false} LostGateStaysShut(s: State, n: nat, run: seq<Action>)
    requires Reachable(s, n) && GateCount(s) == 0 && Exec(s, run, Step).Some?
    ensures var s' := Exec(s, run, Step).value;
            && s'.gate.Supply() == 0 && s'.c.toUnblock == 0
            && forall t :: 0 <= t < |s'.threads| ==> Inside(s'.threads[t]) == 0
    decreases |run|
  {
    ReachableInv(s, n);
    if run == [] {
      forall t | 0 <= t < |s.threads| ensures Inside(s.threads[t]) == 0 {
        SumAtLeast(s.threads, t, Inside);
      }
    } else {
      StepReachable(s, n, run[0]);
      ReachableInv(Step(s, run[0]).value, n);
      LostMoves(s, run[0]);
      hide Step, Reachable;
      LostGateStaysShut(Step(s, run[0]).value, n, run[1..]);
    }
  }

  lemma StepReachable(s: State, n: nat, a: Action)
    requires Reachable(s, n) && Step(s, a).Some?
    ensures Reachable(Step(s, a).value, n)
  {
    var run: seq<Action> :| Exec(InitState(n), run, Step) == Some(s);
    ExecSplits(InitState(n), run, [a], Step);
    assert Exec(InitState(n), run + [a], Step) == Some(Step(s, a).value);
  }

  lemma DoStep(s: State, n: nat, a: Action) returns (s': State)
    requires Reachable(s, n) && Step(s, a).Some?
    ensures s' == Step(s, a).value && Reachable(s', n)
  {
    s' := Step(s, a).value;
    StepReachable(s, n, a);
  }

  /** A thread comes to the gate and finds it shut. */
  lemma WaitAtGate(s: State, n: nat, t: nat) returns (s': State)
    requires Reachable(s, n) && !s.freed && t < |s.threads| && s.threads[t].Idle? && s.gate.value <= 0
    ensures Reachable(s', n)
    ensures s' == s.(gate := S.Fields(s.gate.value - 1, s.gate.kernel)).Move(t, AtGate(true))
  {
    hide Reachable;
    s' := DoStep(s, n, StartWait(t));
    s' := DoStep(s', n, Go(t));
    assert s'.threads == s.threads[t := AtGate(true)];
  }

  /** A thread comes in and is about to read the count. */
  lemma ComeIn(s: State, n: nat, t: nat) returns (s': State)
    requires Reachable(s, n) && !s.freed && t < |s.threads| && s.threads[t].Idle? && s.gate.value > 0
    ensures Reachable(s', n)
    ensures s' == s.(gate := S.Fields(s.gate.value - 1, s.gate.kernel)).Move(t, Reading)
  {
    hide Reachable;
    s' := DoStep(s, n, StartWait(t));
    s' := DoStep(s', n, Go(t));
    assert s'.threads == s.threads[t := Reading];
  }

  /** It registers and posts the gate. */
  lemma RegisterAndPost(s: State, n: nat, t: nat) returns (s': State)
    requires Reachable(s, n) && !s.freed && t < |s.threads| && s.threads[t].Reading?
    ensures Reachable(s', n) && !s'.freed && s'.lost == s.lost && s'.skipped == s.skipped
    ensures s'.gate == S.AfterPost(s.gate).0 && s'.threads == s.threads[t := Unlocking(s.clock)]
  {
    hide Reachable;
    s' := DoStep(s, n, Go(t));
    s' := DoStep(s', n, Go(t));
    s' := DoStep(s', n, Go(t));
  }

  lemma CancelledAtGate(s: State, n: nat, t: nat) returns (s': State)
    requires Reachable(s, n) && !s.freed && t < |s.threads| && s.threads[t] == AtGate(true)
    ensures Reachable(s', n) && s' == s.Move(t, GateLeaving)
  {
    hide Reachable;
    s' := DoStep(s, n, CancelAtGate(t));
  }

  /** A cancelled thread cleans up and takes the permit that it finds. */
  lemma TakeAnothersPermit(s: State, n: nat, t: nat) returns (s': State)
    requires Reachable(s, n) && !s.freed && t < |s.threads| && s.threads[t].GateLeaving?
    requires s.gate.value != 0 && s.gate.kernel > 0
    ensures Reachable(s', n) && s'.gate == S.Fields(s.gate.value, s.gate.kernel - 1)
    ensures s'.threads == s.threads[t := Idle] && s'.lost == s.lost + 1
  {
    hide Reachable;
    s' := DoStep(s, n, Go(t));
  }

  /** Three threads suffice: two wait at the gate, the second of them is cancelled, and its cleanup takes
      the permit that the thread inside posted for the first. */
  lemma CancelCanLoseTheGate()
    ensures exists s :: Reachable(s, 3) && GateCount(s) == 0 && |s.threads| == 3
                        && s.threads[1] == AtGate(true) && s.gate == S.Fields(-1, 0)
  {
    var s := InitState(3);
    assert Exec(s, [], Step) == Some(s);
    assert Reachable(s, 3);
    hide Reachable, GateCount, Step;
    s := ComeIn(s, 3, 0);
    s := WaitAtGate(s, 3, 1);
    s := WaitAtGate(s, 3, 2);
    s := CancelledAtGate(s, 3, 2);
    s := RegisterAndPost(s, 3, 0);
    assert s.gate == S.Fields(-1, 1) && s.threads[2] == GateLeaving && s.lost == 0;
    s := TakeAnothersPermit(s, 3, 2);
    ReachableInv(s, 3);
    assert GateCount(s) == 0;
  }
}
