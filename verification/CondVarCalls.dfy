/** What a call on a condition variable comes to between its start and its return, whatever other threads
    do meanwhile: a signal, a broadcast, a wait, a destruction, told by the argument of the call. */
module CondVarCalls {
  import opened Counting
  import opened Runs
  import opened CondVar
  import opened CondVarInvariant
  import opened CondVarTheorems
  import S = Semaphore

  /** The thread is in a call. */
  function InCall(t: nat): State -> bool
  {
    (s: State) => t < |s.threads| && !s.threads[t].Idle?
  }

  predicate IsCall(a: Action) { a.StartWait? || a.StartSignal? || a.StartDestroy? }

  /** What an observer notes of the steps of thread `t`: the signals they counted and the permits they
      posted; whether one left every registered waiter signalled; how often they registered, how many permits
      they took, and by how much they changed the number of waiters that the counters tell; whether the
      wait was given up, or cancelled at the gate; and whether one met a registered waiter, or another
      thread with the unblock mutex. */
  datatype Notes = Notes(counted: int, posted: int, covered: bool, registered: nat, taken: int, net: int,
                         abandoned: bool, cancelled: bool, used: bool)

  const BLANK := Notes(0, 0, false, 0, 0, 0, false, false, false)

  function Told(c: Counters): int { c.blocked - c.gone + c.toUnblock }

  ghost function Noted(t: nat, h: Notes, s: State, a: Action, s': State): Notes
  {
    if a.t != t then h
    else Notes(h.counted + if s'.c.toUnblock > s.c.toUnblock then s'.c.toUnblock - s.c.toUnblock else 0,
               h.posted + if |s'.permits| > |s.permits| then |s'.permits| - |s.permits| else 0,
               h.covered || Sum(s'.threads, Registered) == s'.c.toUnblock,
               h.registered + if s'.c.blocked > s.c.blocked then 1 else 0,
               h.taken + if |s'.permits| < |s.permits| then |s.permits| - |s'.permits| else 0,
               h.net + Told(s'.c) - Told(s.c),
               h.abandoned || a.Abandon?,
               h.cancelled || a.CancelAtGate?,
               h.used || Sum(s.threads, Registered) > 0 || (s.mtx.Some? && s.mtx.value != t))
  }

  ghost function Noting(t: nat): (Notes, State, Action, State) -> Notes
  {
    (h: Notes, s: State, a: Action, s': State) => Noted(t, h, s, a, s')
  }

  /** A broadcast signals every registered waiter; a signal one more, unless all are signalled already; and
      as many permits are posted as signals were counted. */
  predicate SignalOutcome(all: bool, h: Notes)
  {
    && h.posted == h.counted && h.registered == 0 && h.taken == 0 && h.net == 0
    && if all then h.covered else h.counted == 1 || (h.counted == 0 && h.covered)
  }

  /** A wait registers once and is off the books again at its return, with one permit of the queue
      semaphore taken if it was not given up and none otherwise. */
  predicate WaitOutcome(h: Notes)
  {
    && h.counted == 0 && h.posted == 0 && h.net == 0
    && h.registered == (if h.cancelled then 0 else 1)
    && h.taken == (if h.cancelled || h.abandoned then 0 else 1)
  }

  /** A destruction returns only when the object is in use. */
  predicate DestroyOutcome(h: Notes)
  {
    h.used && h.net == 0 && h.counted == 0 && h.posted == 0 && h.registered == 0 && h.taken == 0
  }

  predicate Outcome(call: Action, h: Notes)
  {
    match call
    case StartSignal(_, all) => SignalOutcome(all, h)
    case StartWait(_) => WaitOutcome(h)
    case StartDestroy(_) => DestroyOutcome(h)
    case _ => false
  }

  predicate SignalMidway(all: bool, p: Pc, h: Notes)
  {
    && h.registered == 0 && h.taken == 0 && h.net == 0 && h.posted == 0
    && match p
       case SigAtLock(b) => b == all && h.counted == 0
       case SigDeciding(b) => b == all && h.counted == 0
       case SigAtGate(b, _) => b == all && h.counted == 0
       case SigClosing(b) => b == all && h.counted == 0
       case SigReleasing(k, _) => h.counted == k >= 0 && (if all then h.covered else k == 1 || (k == 0 && h.covered))
       case SigPosting(k, _) => h.counted == k > 0 && (if all then h.covered else k == 1)
       case _ => false
  }

  predicate WaitMidway(p: Pc, h: Notes)
  {
    && h.counted == 0 && h.posted == 0
    && match p
       case AtGate(_) | Reading | Writing(_) => h.registered == 0 && h.taken == 0 && h.net == 0 && !h.abandoned && !h.cancelled
       case GateLeaving => h.registered == 0 && h.taken == 0 && h.net == 0 && h.cancelled
       case LeavingGate(_) | Unlocking(_) | Queued(_) =>
         h.registered == 1 && h.taken == 0 && h.net == 1 && !h.abandoned && !h.cancelled
       case Retracting(_, took) =>
         h.registered == 1 && h.net == 1 && !h.cancelled && h.abandoned == !took && h.taken == if took then 1 else 0
       case Deciding(_, took) =>
         h.registered == 1 && h.net == 1 && !h.cancelled && h.abandoned == !took && h.taken == if took then 1 else 0
       case FoldPost | FoldClear => WaitOutcome(h.(net := h.net + FOLD_AT)) && !h.cancelled
       case FoldAtGate(_) | FoldSubtract | Releasing(_) | Opening(_) | Relocking => WaitOutcome(h) && !h.cancelled
       case _ => false
  }

  predicate DestroyMidway(p: Pc, h: Notes)
  {
    && h.net == 0 && h.counted == 0 && h.posted == 0 && h.registered == 0 && h.taken == 0
    && (p.DstAtGate? || p.DstTrying? || p.DstGivingUp? || p.DstChecking? || p.DstBusyPost? || p.DstBusyUnlock?)
    && (p.DstGivingUp? || p.DstBusyPost? || p.DstBusyUnlock? ==> h.used)
  }

  predicate Midway(call: Action, p: Pc, h: Notes)
  {
    match call
    case StartSignal(_, all) => SignalMidway(all, p, h)
    case StartWait(_) => WaitMidway(p, h)
    case StartDestroy(_) => DestroyMidway(p, h)
    case _ => false
  }

  /** In the call, or back from it as it must be. */
  predicate Follows(call: Action, p: Pc, h: Notes)
  {
    if p.Idle? then Outcome(call, h) else Midway(call, p, h)
  }

  // ----- one step of the calling thread

  lemma SignalApproaches(s: State, t: nat, call: Action, h: Notes)
    requires Inv(s) && t < |s.threads| && call.StartSignal? && StepGo(s, t).Some? && Midway(call, s.threads[t], h)
    requires var p := s.threads[t]; p.SigAtLock? || p.SigAtGate?
    ensures var s' := StepGo(s, t).value;
            t < |s'.threads| && Follows(call, s'.threads[t], Noted(t, h, s, Go(t), s'))
  {
    hide Inv, SignalsLive;
  }

  /** Counting signals moves waiters from one counter to another. */
  lemma CountingKeepsTold(c: Counters, all: bool)
    ensures c.gone == 0 && c.blocked >= 0 ==>
              var (c', k) := AfterSignalClosed(c, all);
              && Told(c') == Told(c) && c'.blocked <= c.blocked && c'.toUnblock == c.toUnblock + k && k >= 0
              && (all || k == 0 ==> c'.toUnblock == Told(c')) && (!all ==> k <= 1)
    ensures c.toUnblock == 0 && c.blocked > c.gone >= 0 ==>
              var (c', k) := AfterSignalClosing(c, all);
              && Told(c') == Told(c) && c'.blocked <= c.blocked && c'.toUnblock == k > 0
              && (all ==> c'.toUnblock == Told(c')) && (!all ==> k == 1)
  {
  }

  lemma SignalCountsMore(s: State, t: nat, call: Action, h: Notes)
    requires Inv(s) && t < |s.threads| && call.StartSignal? && Midway(call, s.threads[t], h) && s.threads[t].SigDeciding?
    requires s.c.toUnblock != 0
    ensures var s' := StepSigDeciding(s, t, s.threads[t].all).value;
            t < |s'.threads| && Follows(call, s'.threads[t], Noted(t, h, s, Go(t), s'))
  {
    var s' := StepSigDeciding(s, t, s.threads[t].all).value;
    OwnFacts(s, t);
    FoldsBelongToOwner(s, t);
    SumUpdate(s.threads, t, s'.threads[t], Registered);
    assert Sum(s.threads, Registered) == Told(s.c);
    CountingKeepsTold(s.c, s.threads[t].all);
    hide Inv, SignalsLive, AfterSignalClosed, Told;
    assert Told(s'.c) == Told(s.c) == Sum(s'.threads, Registered);
  }

  lemma SignalGoesToGate(s: State, t: nat, call: Action, h: Notes)
    requires t < |s.threads| && call.StartSignal? && Midway(call, s.threads[t], h) && s.threads[t].SigDeciding?
    requires s.c.toUnblock == 0 && s.c.blocked > s.c.gone
    ensures var s' := StepSigDeciding(s, t, s.threads[t].all).value;
            t < |s'.threads| && Follows(call, s'.threads[t], Noted(t, h, s, Go(t), s'))
  {
    hide Told, AfterSignalClosed;
  }

  lemma SignalPasses(s: State, t: nat, call: Action, h: Notes)
    requires Inv(s) && t < |s.threads| && call.StartSignal? && Midway(call, s.threads[t], h) && s.threads[t].SigDeciding?
    requires s.c.toUnblock == 0 && s.c.blocked <= s.c.gone
    ensures var s' := StepSigDeciding(s, t, s.threads[t].all).value;
            t < |s'.threads| && Follows(call, s'.threads[t], Noted(t, h, s, Go(t), s'))
  {
    var s' := StepSigDeciding(s, t, s.threads[t].all).value;
    OwnFacts(s, t);
    NothingTold(s, t);
    SumUpdate(s.threads, t, s'.threads[t], Registered);
    assert Sum(s'.threads, Registered) == 0;
    hide Inv, SignalsLive, Told, AfterSignalClosed;
  }

  lemma NothingTold(s: State, t: nat)
    requires Inv(s) && t < |s.threads| && InMutex(s.threads[t]) == 1 && Folded(s.threads[t]) == 0
    requires s.c.toUnblock == 0 && s.c.blocked <= s.c.gone
    ensures Told(s.c) == 0 == Sum(s.threads, Registered)
  {
    FoldsBelongToOwner(s, t);
  }

  lemma SignalCloses(s: State, t: nat, call: Action, h: Notes)
    requires Inv(s) && t < |s.threads| && call.StartSignal? && Midway(call, s.threads[t], h) && s.threads[t].SigClosing?
    ensures var s' := StepSigClosing(s, t, s.threads[t].all).value;
            t < |s'.threads| && Follows(call, s'.threads[t], Noted(t, h, s, Go(t), s'))
  {
    var s' := StepSigClosing(s, t, s.threads[t].all).value;
    OwnFacts(s, t);
    FoldsBelongToOwner(s, t);
    SumUpdate(s.threads, t, s'.threads[t], Registered);
    assert Sum(s.threads, Registered) == Told(s.c);
    CountingKeepsTold(s.c, s.threads[t].all);
    hide Inv, SignalsLive, AfterSignalClosing, Told;
    assert Told(s'.c) == Told(s.c) == Sum(s'.threads, Registered);
  }

  lemma SignalPosts(s: State, t: nat, call: Action, h: Notes)
    requires Inv(s) && t < |s.threads| && call.StartSignal? && StepGo(s, t).Some? && Midway(call, s.threads[t], h)
    requires var p := s.threads[t]; p.SigReleasing? || p.SigPosting?
    ensures var s' := StepGo(s, t).value;
            t < |s'.threads| && Follows(call, s'.threads[t], Noted(t, h, s, Go(t), s'))
  {
    hide Inv, SignalsLive;
    var s' := StepGo(s, t).value;
    assert |s'.permits| == |s.permits| + if s.threads[t].SigPosting? && s.threads[t].n > 0 then s.threads[t].n else 0;
  }

  lemma WaitRegisters(s: State, t: nat, call: Action, h: Notes)
    requires Inv(s) && t < |s.threads| && call.StartWait? && StepGo(s, t).Some? && Midway(call, s.threads[t], h)
    requires var p := s.threads[t]; p.AtGate? || p.GateLeaving? || p.Reading? || p.Writing? || p.LeavingGate? || p.Unlocking?
    ensures var s' := StepGo(s, t).value;
            t < |s'.threads| && Follows(call, s'.threads[t], Noted(t, h, s, Go(t), s'))
  {
    OwnFacts(s, t);
    hide Inv, SignalsLive;
    var s' := StepGo(s, t).value;
    assert Noted(t, h, s, Go(t), s').net == h.net + Told(s'.c) - Told(s.c);
    assert s.threads[t].Writing? ==> Told(s'.c) == Told(s.c) + 1;
  }

  lemma WaitLocks(s: State, t: nat, call: Action, h: Notes)
    requires t < |s.threads| && call.StartWait? && Midway(call, s.threads[t], h) && s.threads[t].Retracting?
    requires var p := s.threads[t]; StepAtLock(s, t, Deciding(p.reg, p.took)).Some?
    ensures var p := s.threads[t]; var s' := StepAtLock(s, t, Deciding(p.reg, p.took)).value;
            t < |s'.threads| && Follows(call, s'.threads[t], Noted(t, h, s, Go(t), s'))
  {
  }

  lemma WaitRetracts(s: State, t: nat, call: Action, h: Notes)
    requires t < |s.threads| && call.StartWait? && Midway(call, s.threads[t], h) && s.threads[t].Deciding?
    ensures var s' := StepDeciding(s, t, s.threads[t].took).value;
            t < |s'.threads| && Follows(call, s'.threads[t], Noted(t, h, s, Go(t), s'))
  {
    var s' := StepDeciding(s, t, s.threads[t].took).value;
    var h' := Noted(t, h, s, Go(t), s');
    assert s'.c == AfterRetract(s.c).0 && Told(s'.c) == Told(s.c) - 1;
    assert h' == h.(net := 0, covered := h'.covered, used := h'.used);
  }

  lemma FoldApproaches(s: State, t: nat, call: Action, h: Notes)
    requires t < |s.threads| && call.StartWait? && StepGo(s, t).Some? && Midway(call, s.threads[t], h)
    requires s.threads[t].FoldAtGate?
    ensures var s' := StepGo(s, t).value;
            t < |s'.threads| && Follows(call, s'.threads[t], Noted(t, h, s, Go(t), s'))
  {
    hide Told, S.AfterDecrement;
  }

  lemma WaitFolds(s: State, t: nat, call: Action, h: Notes)
    requires t < |s.threads| && call.StartWait? && StepGo(s, t).Some? && Midway(call, s.threads[t], h)
    requires s.threads[t].FoldSubtract? || s.threads[t].FoldPost? || s.threads[t].FoldClear?
    requires s.c.gone == FOLD_AT
    ensures var s' := StepGo(s, t).value;
            t < |s'.threads| && Follows(call, s'.threads[t], Noted(t, h, s, Go(t), s'))
  {
    var s' := StepGo(s, t).value;
    assert s.threads[t].FoldSubtract? ==> Told(s'.c) == Told(s.c) - FOLD_AT;
    assert s.threads[t].FoldClear? ==> Told(s'.c) == Told(s.c) + FOLD_AT;
    hide S.AfterPost;
  }

  lemma WaitReturns(s: State, t: nat, call: Action, h: Notes)
    requires t < |s.threads| && call.StartWait? && StepGo(s, t).Some? && Midway(call, s.threads[t], h)
    requires var p := s.threads[t]; p.Releasing? || p.Opening? || p.Relocking?
    ensures var s' := StepGo(s, t).value;
            t < |s'.threads| && Follows(call, s'.threads[t], Noted(t, h, s, Go(t), s'))
  {
    hide Told, S.AfterPost;
  }

  lemma DestroyTries(s: State, t: nat, call: Action, h: Notes)
    requires Inv(s) && t < |s.threads| && call.StartDestroy? && StepGo(s, t).Some? && Midway(call, s.threads[t], h)
    requires var p := s.threads[t]; p.DstAtGate? || p.DstTrying? || p.DstGivingUp?
    ensures var s' := StepGo(s, t).value;
            t < |s'.threads| && Follows(call, s'.threads[t], Noted(t, h, s, Go(t), s'))
  {
    OwnFacts(s, t);
    assert s.threads[t].DstTrying? && s.mtx.Some? ==> s.mtx.value != t;
    hide Inv, SignalsLive;
    var s' := StepGo(s, t).value;
    assert Noted(t, h, s, Go(t), s').net == h.net + Told(s'.c) - Told(s.c);
  }

  lemma DestroyChecks(s: State, t: nat, call: Action, h: Notes)
    requires Inv(s) && t < |s.threads| && call.StartDestroy? && StepGo(s, t).Some? && Midway(call, s.threads[t], h)
    requires var p := s.threads[t]; p.DstChecking? || p.DstBusyPost? || p.DstBusyUnlock?
    ensures var s' := StepGo(s, t).value;
            t < |s'.threads| && Follows(call, s'.threads[t], Noted(t, h, s, Go(t), s'))
  {
    OwnFacts(s, t);
    FoldsBelongToOwner(s, t);
    assert Sum(s.threads, Registered) == Told(s.c);
    hide Inv, SignalsLive;
  }

  lemma OtherFollows(s: State, a: Action, call: Action, h: Notes)
    requires Step(s, a).Some? && a.t < |s.threads| && (a.Take? || a.Abandon? || a.CancelAtGate?) && Midway(call, s.threads[a.t], h)
    ensures var s' := Step(s, a).value;
            a.t < |s'.threads| && Follows(call, s'.threads[a.t], Noted(a.t, h, s, a, s'))
  {
    var s' := Step(s, a).value;
    assert a.Take? ==> |s'.permits| == |s.permits| - 1;
  }

  lemma StepFollows(s: State, a: Action, t: nat, call: Action, h: Notes)
    requires Inv(s) && IsCall(call) && Step(s, a).Some? && t < |s.threads| && !s.threads[t].Idle?
    requires Follows(call, s.threads[t], h)
    ensures var s' := Step(s, a).value;
            |s'.threads| == |s.threads| && Follows(call, s'.threads[t], Noted(t, h, s, a, s'))
  {
    StepKeepsThreadCount(s, a);
    hide Inv, Follows, Outcome;
    if a.t != t {
      OthersLeaveAlone(s, a, t);
    } else if !a.Go? {
      OtherFollows(s, a, call, h);
    } else {
      GoFollows(s, t, call, h);
    }
  }

  lemma GoFollows(s: State, t: nat, call: Action, h: Notes)
    requires Inv(s) && t < |s.threads| && StepGo(s, t).Some? && Midway(call, s.threads[t], h)
    ensures var s' := StepGo(s, t).value;
            t < |s'.threads| && Follows(call, s'.threads[t], Noted(t, h, s, Go(t), s'))
  {
    PointTellsCall(call, s.threads[t], h);
    OwnFacts(s, t);
    hide Inv, SignalsLive, Follows, Outcome, Midway, StepAtGate, StepPost, StepWriting, StepAtLock, StepDeciding, StepOpening,
         StepGateLeaving, StepSigDeciding, StepSigClosing, StepSigReleasing, StepSigPosting, StepDstChecking;
    match s.threads[t] {
      case SigAtLock(_) | SigAtGate(_, _) => SignalApproaches(s, t, call, h);
      case SigDeciding(_) =>
        if s.c.toUnblock != 0 {
          SignalCountsMore(s, t, call, h);
        } else if s.c.blocked > s.c.gone {
          SignalGoesToGate(s, t, call, h);
        } else {
          SignalPasses(s, t, call, h);
        }
      case SigClosing(_) => SignalCloses(s, t, call, h);
      case SigReleasing(_, _) | SigPosting(_, _) => SignalPosts(s, t, call, h);
      case AtGate(_) | GateLeaving | Reading | Writing(_) | LeavingGate(_) | Unlocking(_) => WaitRegisters(s, t, call, h);
      case Retracting(_, _) => WaitLocks(s, t, call, h);
      case Deciding(_, _) => WaitRetracts(s, t, call, h);
      case DstAtGate(_) | DstTrying | DstGivingUp => DestroyTries(s, t, call, h);
      case DstChecking | DstBusyPost | DstBusyUnlock => DestroyChecks(s, t, call, h);
      case Releasing(_) | Opening(_) | Relocking => WaitReturns(s, t, call, h);
      case FoldAtGate(_) => FoldApproaches(s, t, call, h);
      case _ => WaitFolds(s, t, call, h);
    }
  }

  lemma PointTellsCall(call: Action, p: Pc, h: Notes)
    requires Midway(call, p, h)
    ensures !p.Idle?
    ensures call.StartSignal? <==>
              p.SigAtLock? || p.SigDeciding? || p.SigAtGate? || p.SigClosing? || p.SigReleasing? || p.SigPosting?
    ensures call.StartDestroy? <==>
              p.DstAtGate? || p.DstTrying? || p.DstGivingUp? || p.DstChecking? || p.DstBusyPost? || p.DstBusyUnlock?
    ensures call.StartSignal? || call.StartDestroy? || call.StartWait?
  {
  }

  lemma OthersLeaveAlone(s: State, a: Action, t: nat)
    requires Step(s, a).Some? && t < |s.threads| && a.t != t
    ensures t < |Step(s, a).value.threads| && Step(s, a).value.threads[t] == s.threads[t]
  {
    if a.Go? {
      GoMovesOne(s, a.t);
    }
    hide StepGo;
  }

  lemma GoMovesOne(s: State, t: nat)
    requires t < |s.threads| && StepGo(s, t).Some?
    ensures var s' := StepGo(s, t).value; |s'.threads| == |s.threads| && s'.threads == s.threads[t := s'.threads[t]]
  {
    hide S.AfterDecrement, S.AfterPost, S.AfterWaitCleanup, AfterRetract, AfterSignalClosed, AfterSignalClosing;
  }

  lemma CallFollows(s: State, n: nat, call: Action, run: seq<Action>)
    requires Reachable(s, n) && IsCall(call) && Step(s, call).Some?
    requires While(Step(s, call).value, run, Step, InCall(call.t))
    ensures var t, s1 := call.t, Step(s, call).value;
            var r := Exec(s1, run, Step);
            && r.Some? && t < n == |r.value.threads| && Inv(r.value)
            && Follows(call, r.value.threads[t], Fold(s1, run, Step, Noting(t), BLANK))
  {
    ReachableInv(s, n);
    var s1, t := Step(s, call).value, call.t;
    StepKeepsInv(s, call);
    var inv := (x: State, h: Notes) => Inv(x) && |x.threads| == n && Follows(call, x.threads[t], h);
    forall x, h, a | InCall(t)(x) && inv(x, h) && Step(x, a).Some?
      ensures inv(Step(x, a).value, Noted(t, h, x, a, Step(x, a).value))
    {
      StepKeepsInv(x, a);
      StepFollows(x, a, t, call, h);
    }
    hide Inv;
    WhileKeeps(s1, run, Step, InCall(t), Noting(t), BLANK, inv);
  }

  /** Over any run from a call of broadcast or signal to its return: a broadcast has left every registered
      waiter signalled at one of its own steps; a signal has counted one signal, or none because every
      registered waiter was signalled already at one of its steps; and the call has posted as many permits
      as it counted signals. */
  lemma SignalCallOutcome(s: State, n: nat, t: nat, all: bool, run: seq<Action>)
    requires Reachable(s, n) && Step(s, StartSignal(t, all)).Some?
    requires While(Step(s, StartSignal(t, all)).value, run, Step, InCall(t))
    ensures var s1 := Step(s, StartSignal(t, all)).value;
            var r, h := Exec(s1, run, Step), Fold(s1, run, Step, Noting(t), BLANK);
            && r.Some? && t < |r.value.threads|
            && (r.value.threads[t].Idle? ==>
                  && h.posted == h.counted
                  && (if all then h.covered else h.counted == 1 || (h.counted == 0 && h.covered)))
  {
    CallFollows(s, n, StartSignal(t, all), run);
  }

  /** Over any run from a call of wait to its return: the waiter has registered once and is off the books
      again, and it has taken exactly one permit, unless it gave up its wait, or was cancelled before it came
      through the gate: then it has taken none. */
  lemma WaitCallOutcome(s: State, n: nat, t: nat, run: seq<Action>)
    requires Reachable(s, n) && Step(s, StartWait(t)).Some?
    requires While(Step(s, StartWait(t)).value, run, Step, InCall(t))
    ensures var s1 := Step(s, StartWait(t)).value;
            var r, h := Exec(s1, run, Step), Fold(s1, run, Step, Noting(t), BLANK);
            && r.Some? && t < |r.value.threads|
            && (r.value.threads[t].Idle? ==>
                  && h.net == 0
                  && h.registered == (if h.cancelled then 0 else 1)
                  && h.taken == (if h.cancelled || h.abandoned then 0 else 1))
  {
    CallFollows(s, n, StartWait(t), run);
  }

  /** Over any run from a call of destroy to its return: the object was in use, by a registered waiter or by
      a thread with the unblock mutex, at one of the call's own steps. */
  lemma DestroyCallOutcome(s: State, n: nat, t: nat, run: seq<Action>)
    requires Reachable(s, n) && Step(s, StartDestroy(t)).Some?
    requires While(Step(s, StartDestroy(t)).value, run, Step, InCall(t))
    ensures var s1 := Step(s, StartDestroy(t)).value;
            var r, h := Exec(s1, run, Step), Fold(s1, run, Step, Noting(t), BLANK);
            && r.Some? && t < |r.value.threads|
            && (r.value.threads[t].Idle? ==> h.used && h.net == 0)
  {
    CallFollows(s, n, StartDestroy(t), run);
  }

  /** A thread outside any call can make each of them. A waiter that sleeps can take any permit that is there, or
      give up; and one that still waits at the gate can be cancelled. */
  lemma CallsCanBegin(s: State, n: nat, t: nat, all: bool)
    requires Reachable(s, n) && !s.freed && t < |s.threads|
    ensures s.threads[t].Idle? ==>
              Step(s, StartWait(t)).Some? && Step(s, StartSignal(t, all)).Some? && Step(s, StartDestroy(t)).Some?
    ensures s.threads[t].Queued? ==>
              Step(s, Abandon(t)).Some? && forall stamp :: stamp in s.permits ==> Step(s, Take(t, stamp)).Some?
    ensures s.threads[t].Unlocking? ==> Step(s, Abandon(t)).Some?
    ensures s.threads[t].AtGate? ==> Step(s, CancelAtGate(t)).Some?
  {
  }

}
