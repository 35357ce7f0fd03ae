/** The non-robust mutexes: `lock_idx` is 0 when free, 1 when locked, -1 when locked and somebody
    may be waiting; waiters sleep on an auto-reset event. Recursive and errorcheck mutexes record
    their owner and read that record without holding anything. */
module Mutex {
  import opened Counting
  import opened Runs

  datatype Kind = Normal | Recursive | ErrorCheck

  datatype Pc =
    | Idle
    | Check(depth: nat, blocking: bool, timed: bool)  // first attempt failed, about to read ownerThread
    | Loop(timed: bool)                // about to exchange -1 into lock_idx
    | Asleep(timed: bool)              // waiting for the event
    | SetCount                         // acquired, about to set recursive_count
    | SetOwner                         // about to record itself as owner
    | Held(depth: nat)
    | ClearOwner                       // unlocking, about to clear the owner
    | ResetIdx                         // about to exchange 0 into lock_idx
    | Waking                           // about to set the event

  datatype Result = Ok | EBUSY | EPERM | EDEADLK | ETIMEDOUT

  /** `last` is what the last call of each thread returned. */
  datatype State = State(kind: Kind, lockIdx: int, event: bool, owner: Option<nat>, count: int, threads: seq<Pc>,
                         last: map<nat, Result>)
  {
    function Move(t: nat, p: Pc): State
      requires t < |threads|
    {
      this.(threads := threads[t := p])
    }

    /** Thread `t` returns to its caller at `p`. */
    function Return(t: nat, p: Pc, result: Result): State
      requires t < |threads|
    {
      Move(t, p).(last := last[t := result])
    }
  }

  datatype Action =
    | Lock(t: nat, timed: bool)    // the first interlocked operation of lock and timedlock
    | TryLock(t: nat)
    | ReadOwner(t: nat)
    | Exchange(t: nat)
    | Wake(t: nat)                 // the event wait is satisfied
    | TimeOut(t: nat)
    | Record(t: nat)               // write recursive_count, then ownerThread
    | Unlock(t: nat)               // the owner test of unlock; for a normal mutex there is none
    | Clear(t: nat)
    | Reset(t: nat)
    | Signal(t: nat)

  function InitState(kind: Kind, n: nat): State
  {
    State(kind, 0, false, None, 0, seq(n, _ => Idle), map[])
  }

  /** A holder may lock again, except a normal mutex, where that is a self-deadlock. */
  function HeldDepth(s: State, t: nat): Option<nat>
    requires t < |s.threads|
  {
    match s.threads[t]
    case Idle => Some(0)
    case Held(d) => if s.kind == Normal then None else Some(d)
    case _ => None
  }

  function StepLock(s: State, t: nat, timed: bool): Option<State>
    requires t < |s.threads|
  {
    var d := HeldDepth(s, t);
    if d.None? then None
    else if s.kind == Normal then
      var s1 := s.(lockIdx := 1);
      if s.lockIdx != 0 then Some(s1.Move(t, Loop(timed))) else Some(s1.Return(t, Held(1), Ok))
    else if s.lockIdx == 0 then Some(s.(lockIdx := 1).Move(t, SetCount))
    else Some(s.Move(t, Check(d.value, true, timed)))
  }

  function StepTryLock(s: State, t: nat): Option<State>
    requires t < |s.threads|
  {
    var d := HeldDepth(s, t);
    if d.None? then None
    else if s.lockIdx == 0 then
      var s1 := s.(lockIdx := 1);
      Some(if s.kind == Normal then s1.Return(t, Held(1), Ok) else s1.Move(t, SetCount))
    else if s.kind == Recursive then Some(s.Move(t, Check(d.value, false, false)))
    else Some(s.Return(t, s.threads[t], EBUSY))
  }

  function AfterCheck(d: nat): Pc { if d == 0 then Idle else Held(d) }

  function StepReadOwner(s: State, t: nat): Option<State>
    requires t < |s.threads|
  {
    match s.threads[t]
    case Check(d, blocking, timed) =>
      if s.owner == Some(t) then
        if s.kind == Recursive then Some(s.(count := s.count + 1).Return(t, Held(d + 1), Ok))
        else Some(s.Return(t, AfterCheck(d), EDEADLK))
      else if blocking then Some(s.Move(t, Loop(timed)))
      else Some(s.Return(t, AfterCheck(d), EBUSY))
    case _ => None
  }

  function StepExchange(s: State, t: nat): Option<State>
    requires t < |s.threads|
  {
    match s.threads[t]
    case Loop(timed) =>
      var s1 := s.(lockIdx := -1);
      if s.lockIdx != 0 then Some(s1.Move(t, Asleep(timed)))
      else Some(if s.kind == Normal then s1.Return(t, Held(1), Ok) else s1.Move(t, SetCount))
    case _ => None
  }

  function StepWake(s: State, t: nat): Option<State>
    requires t < |s.threads|
  {
    if s.threads[t].Asleep? && s.event then Some(s.(event := false).Move(t, Loop(s.threads[t].timed)))
    else None
  }

  function StepTimeOut(s: State, t: nat): Option<State>
    requires t < |s.threads|
  {
    if s.threads[t] == Asleep(true) then Some(s.Return(t, Idle, ETIMEDOUT)) else None
  }

  function StepRecord(s: State, t: nat): Option<State>
    requires t < |s.threads|
  {
    match s.threads[t]
    case SetCount => Some(s.(count := 1).Move(t, SetOwner))
    case SetOwner => Some(s.(owner := Some(t)).Return(t, Held(1), Ok))
    case _ => None
  }

  /** Unlocking by a thread that does not hold a normal mutex is the caller's error; the other kinds
      test for it, so there any thread may call. */
  function StepUnlock(s: State, t: nat): Option<State>
    requires t < |s.threads|
  {
    if s.kind == Normal then
      if s.threads[t].Held? then Some(s.Move(t, ResetIdx)) else None
    else
      var d := HeldDepth(s, t);
      if d.None? then None
      else if s.owner != Some(t) then Some(s.Return(t, s.threads[t], EPERM))
      else if s.kind == Recursive then
        var s1 := s.(count := s.count - 1);
        if s1.count == 0 then Some(s1.Move(t, ClearOwner))
        else Some(s1.Return(t, AfterCheck(if d.value > 0 then d.value - 1 else 0), Ok))
      else Some(s.Move(t, ClearOwner))
  }

  function StepClear(s: State, t: nat): Option<State>
    requires t < |s.threads|
  {
    if s.threads[t].ClearOwner? then Some(s.(owner := None).Move(t, ResetIdx)) else None
  }

  function StepReset(s: State, t: nat): Option<State>
    requires t < |s.threads|
  {
    if !s.threads[t].ResetIdx? then None
    else
      var s1 := s.(lockIdx := 0);
      Some(if s.lockIdx < 0 then s1.Move(t, Waking) else s1.Return(t, Idle, Ok))
  }

  function StepSignal(s: State, t: nat): Option<State>
    requires t < |s.threads|
  {
    if s.threads[t].Waking? then Some(s.(event := true).Return(t, Idle, Ok)) else None
  }

  function Step(s: State, a: Action): Option<State>
  {
    if a.t >= |s.threads| then None
    else match a
      case Lock(t, timed) => StepLock(s, t, timed)
      case TryLock(t) => StepTryLock(s, t)
      case ReadOwner(t) => StepReadOwner(s, t)
      case Exchange(t) => StepExchange(s, t)
      case Wake(t) => StepWake(s, t)
      case TimeOut(t) => StepTimeOut(s, t)
      case Record(t) => StepRecord(s, t)
      case Unlock(t) => StepUnlock(s, t)
      case Clear(t) => StepClear(s, t)
      case Reset(t) => StepReset(s, t)
      case Signal(t) => StepSignal(s, t)
  }

  // ----- the invariant

  /** How often a thread at this point has locked the mutex without unlocking it yet. */
  function Depth(p: Pc): nat
  {
    match p
    case Check(d, _, _) => d
    case Held(d) => d
    case SetCount | SetOwner | ClearOwner | ResetIdx => 1
    case _ => 0
  }

  function Owns(p: Pc): nat { if Depth(p) > 0 then 1 else 0 }
  function Sleeping(p: Pc): nat { if p.Asleep? then 1 else 0 }
  function Looping(p: Pc): nat { if p.Loop? then 1 else 0 }
  function Signalling(p: Pc): nat { if p.Waking? then 1 else 0 }
  function Checking(p: Pc): nat { if p.Check? then 1 else 0 }

  /** Whether a thread at this point must find its own id in `ownerThread`. */
  predicate Recorded(kind: Kind, p: Pc)
  {
    kind != Normal && (p.Held? || (p.Check? && p.depth > 0) || p.ClearOwner?)
  }

  predicate ThreadOk(s: State, t: nat)
    requires t < |s.threads|
  {
    var p := s.threads[t];
    && (s.owner == Some(t) <==> Recorded(s.kind, p))
    && (p.Held? ==> p.depth >= 1)
    && (p.Held? || p.Check? ==>
          if s.kind == Recursive then p.depth > 0 ==> s.count == p.depth else p.depth <= 1)
    && (s.kind == Normal ==> !p.Check? && !p.SetCount? && !p.SetOwner? && !p.ClearOwner?)
    && (p.SetOwner? ==> s.count == 1)
    && (p.Check? && s.kind != Recursive ==> p.blocking)
  }

  /** If anybody sleeps, then something will still wake a sleeper: the event is set, the mark -1
      makes the holder set it, or a thread is on its way to leave the mark or to set the event. */
  ghost predicate SleepersCovered(s: State)
  {
    Sum(s.threads, Sleeping) > 0 ==>
      s.event || s.lockIdx == -1 || Sum(s.threads, Looping) > 0 || Sum(s.threads, Signalling) > 0
  }

  ghost predicate Inv(s: State)
  {
    && s.lockIdx in {0, 1, -1}
    && Sum(s.threads, Owns) == (if s.lockIdx == 0 then 0 else 1)
    && (forall t :: 0 <= t < |s.threads| ==> ThreadOk(s, t))
    && (s.owner.Some? ==> s.owner.value < |s.threads|)
    && SleepersCovered(s)
  }

  lemma InitInv(kind: Kind, n: nat)
    ensures Inv(InitState(kind, n))
  {
    var s := InitState(kind, n);
    SumZero(s.threads, Owns);
    SumZero(s.threads, Sleeping);
  }

  /** What the sums become when thread `t` moves to `p`. */
  lemma SumsAfterMove(threads: seq<Pc>, t: nat, p: Pc)
    requires t < |threads|
    ensures Sum(threads[t := p], Owns) == Sum(threads, Owns) - Owns(threads[t]) + Owns(p)
    ensures Sum(threads[t := p], Sleeping) == Sum(threads, Sleeping) - Sleeping(threads[t]) + Sleeping(p)
    ensures Sum(threads[t := p], Looping) == Sum(threads, Looping) - Looping(threads[t]) + Looping(p)
    ensures Sum(threads[t := p], Signalling) == Sum(threads, Signalling) - Signalling(threads[t]) + Signalling(p)
    ensures Sum(threads, Owns) >= Owns(threads[t])
    ensures Sum(threads, Looping) >= Looping(threads[t])
    ensures Sum(threads, Signalling) >= Signalling(threads[t])
    ensures Sum(threads, Sleeping) >= Sleeping(threads[t])
  {
    SumUpdate(threads, t, p, Owns);
    SumUpdate(threads, t, p, Sleeping);
    SumUpdate(threads, t, p, Looping);
    SumUpdate(threads, t, p, Signalling);
    SumAtLeast(threads, t, Owns);
    SumAtLeast(threads, t, Looping);
    SumAtLeast(threads, t, Signalling);
    SumAtLeast(threads, t, Sleeping);
  }

  /** Two threads never own the mutex together. */
  lemma OneOwner(s: State, t: nat, u: nat)
    requires Inv(s) && t < |s.threads| && u < |s.threads|
    requires Owns(s.threads[t]) == 1 && Owns(s.threads[u]) == 1
    ensures t == u
  {
    if t != u {
      SumAtLeastTwo(s.threads, t, u, Owns);
    }
  }

  /** A move of thread `t` leaves every other thread as it should be, if it changes the owner only
      from or to `t`, and the count only while nobody else owns the mutex. */
  lemma OthersStayOk(s: State, s': State, t: nat)
    requires Inv(s) && t < |s.threads| && t < |s'.threads|
    requires s'.kind == s.kind && s'.threads == s.threads[t := s'.threads[t]]
    requires s'.owner == s.owner || (s'.owner in {None, Some(t)} && s.owner in {None, Some(t)})
    requires s'.count == s.count || Owns(s.threads[t]) == 1
    ensures forall u :: 0 <= u < |s'.threads| && u != t ==> ThreadOk(s', u)
  {
    forall u | 0 <= u < |s'.threads| && u != t ensures ThreadOk(s', u) {
      assert ThreadOk(s, u);
      if s'.count != s.count && Owns(s.threads[u]) == 1 {
        OneOwner(s, t, u);
      }
    }
  }

  /** The bookkeeping common to all steps: `t` moves to `p`, and what is left to check is listed. */
  lemma MoveKeepsInv(s: State, s': State, t: nat)
    requires Inv(s) && t < |s.threads| && t < |s'.threads|
    requires s'.kind == s.kind && s'.threads == s.threads[t := s'.threads[t]]
    requires s'.owner == s.owner || (s'.owner in {None, Some(t)} && s.owner in {None, Some(t)})
    requires s'.count == s.count || Owns(s.threads[t]) == 1
    requires ThreadOk(s', t)
    requires s'.lockIdx in {0, 1, -1}
    requires (if s'.lockIdx == 0 then 0 else 1) - (if s.lockIdx == 0 then 0 else 1)
             == Owns(s'.threads[t]) - Owns(s.threads[t])
    requires
      || s'.lockIdx == -1 || s'.event || s'.threads[t].Loop? || s'.threads[t].Waking?
      || (!s'.threads[t].Asleep? && !s.threads[t].Loop? && !s.threads[t].Waking?
          && s'.event == s.event && s.lockIdx != -1)
    ensures Inv(s')
  {
    OthersStayOk(s, s', t);
    SumsAfterMove(s.threads, t, s'.threads[t]);
  }

  lemma LockKeepsInv(s: State, t: nat, timed: bool)
    requires Inv(s) && t < |s.threads| && StepLock(s, t, timed).Some?
    ensures Inv(StepLock(s, t, timed).value)
  {
    assert ThreadOk(s, t);
    SumAtLeast(s.threads, t, Owns);
    MoveKeepsInv(s, StepLock(s, t, timed).value, t);
  }

  lemma TryLockKeepsInv(s: State, t: nat)
    requires Inv(s) && t < |s.threads| && StepTryLock(s, t).Some?
    ensures Inv(StepTryLock(s, t).value)
  {
    assert ThreadOk(s, t);
    SumAtLeast(s.threads, t, Owns);
    MoveKeepsInv(s, StepTryLock(s, t).value, t);
  }

  lemma ReadOwnerKeepsInv(s: State, t: nat)
    requires Inv(s) && t < |s.threads| && StepReadOwner(s, t).Some?
    ensures Inv(StepReadOwner(s, t).value)
  {
    assert ThreadOk(s, t);
    SumAtLeast(s.threads, t, Owns);
    MoveKeepsInv(s, StepReadOwner(s, t).value, t);
  }

  lemma ExchangeKeepsInv(s: State, t: nat)
    requires Inv(s) && t < |s.threads| && StepExchange(s, t).Some?
    ensures Inv(StepExchange(s, t).value)
  {
    assert ThreadOk(s, t);
    SumAtLeast(s.threads, t, Owns);
    MoveKeepsInv(s, StepExchange(s, t).value, t);
  }

  lemma WakeKeepsInv(s: State, t: nat)
    requires Inv(s) && t < |s.threads| && StepWake(s, t).Some?
    ensures Inv(StepWake(s, t).value)
  {
    assert ThreadOk(s, t);
    SumAtLeast(s.threads, t, Owns);
    MoveKeepsInv(s, StepWake(s, t).value, t);
  }

  lemma TimeOutKeepsInv(s: State, t: nat)
    requires Inv(s) && t < |s.threads| && StepTimeOut(s, t).Some?
    ensures Inv(StepTimeOut(s, t).value)
  {
    assert ThreadOk(s, t);
    SumAtLeast(s.threads, t, Owns);
    MoveKeepsInv(s, StepTimeOut(s, t).value, t);
  }

  lemma RecordKeepsInv(s: State, t: nat)
    requires Inv(s) && t < |s.threads| && StepRecord(s, t).Some?
    ensures Inv(StepRecord(s, t).value)
  {
    assert ThreadOk(s, t);
    SumAtLeast(s.threads, t, Owns);
    if s.owner.Some? {
      assert ThreadOk(s, s.owner.value);
      OneOwner(s, t, s.owner.value);
    }
    MoveKeepsInv(s, StepRecord(s, t).value, t);
  }

  lemma UnlockKeepsInv(s: State, t: nat)
    requires Inv(s) && t < |s.threads| && StepUnlock(s, t).Some?
    ensures Inv(StepUnlock(s, t).value)
  {
    assert ThreadOk(s, t);
    SumAtLeast(s.threads, t, Owns);
    MoveKeepsInv(s, StepUnlock(s, t).value, t);
  }

  lemma ClearKeepsInv(s: State, t: nat)
    requires Inv(s) && t < |s.threads| && StepClear(s, t).Some?
    ensures Inv(StepClear(s, t).value)
  {
    assert ThreadOk(s, t);
    SumAtLeast(s.threads, t, Owns);
    MoveKeepsInv(s, StepClear(s, t).value, t);
  }

  lemma ResetKeepsInv(s: State, t: nat)
    requires Inv(s) && t < |s.threads| && StepReset(s, t).Some?
    ensures Inv(StepReset(s, t).value)
  {
    assert ThreadOk(s, t);
    SumAtLeast(s.threads, t, Owns);
    MoveKeepsInv(s, StepReset(s, t).value, t);
  }

  lemma SignalKeepsInv(s: State, t: nat)
    requires Inv(s) && t < |s.threads| && StepSignal(s, t).Some?
    ensures Inv(StepSignal(s, t).value)
  {
    assert ThreadOk(s, t);
    SumAtLeast(s.threads, t, Owns);
    MoveKeepsInv(s, StepSignal(s, t).value, t);
  }

  lemma StepKeepsInv(s: State, a: Action)
    requires Inv(s) && Step(s, a).Some?
    ensures Inv(Step(s, a).value)
  {
    hide Inv, StepLock, StepTryLock, StepReadOwner, StepExchange, StepWake, StepTimeOut, StepRecord, StepUnlock,
         StepClear, StepReset, StepSignal;
    match a
    case Lock(t, timed) => LockKeepsInv(s, t, timed);
    case TryLock(t) => TryLockKeepsInv(s, t);
    case ReadOwner(t) => ReadOwnerKeepsInv(s, t);
    case Exchange(t) => ExchangeKeepsInv(s, t);
    case Wake(t) => WakeKeepsInv(s, t);
    case TimeOut(t) => TimeOutKeepsInv(s, t);
    case Record(t) => RecordKeepsInv(s, t);
    case Unlock(t) => UnlockKeepsInv(s, t);
    case Clear(t) => ClearKeepsInv(s, t);
    case Reset(t) => ResetKeepsInv(s, t);
    case Signal(t) => SignalKeepsInv(s, t);
  }

  lemma StepKeepsShape(s: State, a: Action)
    requires Step(s, a).Some?
    ensures Step(s, a).value.kind == s.kind && |Step(s, a).value.threads| == |s.threads|
  {
  }

  lemma {:induction false} RunKeepsInv(s: State, run: seq<Action>)
    requires Inv(s) && Exec(s, run, Step).Some?
    ensures var s' := Exec(s, run, Step).value;
            Inv(s') && s'.kind == s.kind && |s'.threads| == |s.threads|
    decreases |run|
  {
    if run != [] {
      hide Inv, Step;
      StepKeepsInv(s, run[0]);
      StepKeepsShape(s, run[0]);
      RunKeepsInv(Step(s, run[0]).value, run[1..]);
    }
  }

  ghost predicate Reachable(s: State, kind: Kind, n: nat)
  {
    exists run: seq<Action> :: Exec(InitState(kind, n), run, Step) == Some(s)
  }

  lemma ReachableInv(s: State, kind: Kind, n: nat)
    requires Reachable(s, kind, n)
    ensures Inv(s) && s.kind == kind && |s.threads| == n
  {
    var run: seq<Action> :| Exec(InitState(kind, n), run, Step) == Some(s);
    InitInv(kind, n);
    RunKeepsInv(InitState(kind, n), run);
  }

  // ----- main results

  /** Mutual exclusion, and `lock_idx` tells the truth: it is non-zero iff some thread owns the
      mutex, and then only one does. */
  lemma MutualExclusion(s: State, kind: Kind, n: nat)
    requires Reachable(s, kind, n)
    ensures s.lockIdx != 0 <==> exists t :: 0 <= t < |s.threads| && Owns(s.threads[t]) == 1
    ensures forall t, u :: (0 <= t < |s.threads| && 0 <= u < |s.threads| &&
                            Owns(s.threads[t]) == 1 && Owns(s.threads[u]) == 1) ==> t == u
  {
    ReachableInv(s, kind, n);
    if s.lockIdx != 0 {
      var t := SumWitness(s.threads, Owns);
    }
    forall t | 0 <= t < |s.threads| && Owns(s.threads[t]) == 1 ensures s.lockIdx != 0 {
      SumAtLeast(s.threads, t, Owns);
    }
    forall t, u | 0 <= t < |s.threads| && 0 <= u < |s.threads| &&
                  Owns(s.threads[t]) == 1 && Owns(s.threads[u]) == 1 ensures t == u {
      OneOwner(s, t, u);
    }
  }

  /** The unguarded read of `ownerThread` is always right about its reader: a thread about to look,
      or calling unlock, finds its own id there iff it holds the mutex. */
  lemma OwnerReadIsAccurate(s: State, kind: Kind, n: nat, t: nat)
    requires Reachable(s, kind, n) && kind != Normal && t < |s.threads|
    requires s.threads[t].Check? || HeldDepth(s, t).Some?
    ensures s.owner == Some(t) <==> Depth(s.threads[t]) > 0
  {
    ReachableInv(s, kind, n);
    assert ThreadOk(s, t);
  }

  /** `recursive_count` is the holder's nesting depth, and an unlock by the holder frees the mutex
      exactly when it matches the outermost lock. */
  lemma LastUnlockFrees(s: State, n: nat, t: nat)
    requires Reachable(s, Recursive, n) && t < |s.threads| && s.threads[t].Held?
    ensures s.count == s.threads[t].depth >= 1
    ensures Step(s, Unlock(t)).Some?
    ensures var s' := Step(s, Unlock(t)).value;
            if s.count == 1 then s'.threads[t].ClearOwner?
            else s'.threads[t] == Held(s.count - 1) && s'.lockIdx == s.lockIdx && s'.owner == Some(t)
  {
    ReachableInv(s, Recursive, n);
    assert ThreadOk(s, t);
  }

  /** An unlock by any other thread is refused and changes nothing. */
  lemma ForeignUnlockRefused(s: State, kind: Kind, n: nat, t: nat)
    requires Reachable(s, kind, n) && kind != Normal && t < |s.threads| && s.threads[t].Idle?
    ensures Step(s, Unlock(t)) == Some(s.(last := s.last[t := EPERM]))
  {
    ReachableInv(s, kind, n);
    assert ThreadOk(s, t);
    assert s.threads[t := s.threads[t]] == s.threads;
  }

  // ----- no waiter is stranded on a free mutex

  /** The library steps of threads already inside a call that do not give up. */
  predicate Progress(s: State, a: Action)
  {
    Step(s, a).Some? && (a.ReadOwner? || a.Exchange? || a.Wake? || a.Signal?)
  }

  /** Bounds the progress steps left before somebody takes a free mutex. */
  ghost function Distance(s: State): nat
  {
    3 * Sum(s.threads, Signalling) + (if s.event then 2 else 0) + Sum(s.threads, Checking)
  }

  /** Whatever marks were overwritten, events coalesced or waits timed out: while the mutex is free
      and somebody sleeps on it, a progress step is enabled. */
  lemma SleeperNotStranded(s: State, kind: Kind, n: nat) returns (a: Action)
    requires Reachable(s, kind, n)
    requires s.lockIdx == 0 && Sum(s.threads, Sleeping) > 0
    ensures Progress(s, a)
  {
    ReachableInv(s, kind, n);
    if s.event {
      var t := SumWitness(s.threads, Sleeping);
      a := Wake(t);
    } else if Sum(s.threads, Looping) > 0 {
      var t := SumWitness(s.threads, Looping);
      a := Exchange(t);
    } else {
      var t := SumWitness(s.threads, Signalling);
      a := Signal(t);
    }
  }

  /** And each progress step from a free mutex either takes it or gets closer to taking it. */
  lemma ProgressApproaches(s: State, a: Action)
    requires Inv(s) && s.lockIdx == 0 && Progress(s, a)
    ensures var s' := Step(s, a).value;
            s'.lockIdx != 0 || Distance(s') < Distance(s)
  {
    var t := a.t;
    var s' := Step(s, a).value;
    assert s'.threads == s.threads[t := s'.threads[t]];
    SumsAfterMove(s.threads, t, s'.threads[t]);
    SumUpdate(s.threads, t, s'.threads[t], Checking);
    SumAtLeast(s.threads, t, Checking);
    assert ThreadOk(s, t);
  }

  ghost predicate ProgressRun(s: State, run: seq<Action>)
    decreases |run|
  {
    run == [] || (s.lockIdx == 0 && Progress(s, run[0]) && ProgressRun(Step(s, run[0]).value, run[1..]))
  }

  /** So a free mutex is taken after a bounded number of progress steps, in any order. */
  lemma {:induction false} FreeMutexIsTaken(s: State, run: seq<Action>)
    requires Inv(s) && ProgressRun(s, run)
    ensures |run| <= Distance(s) + 1
    decreases |run|
  {
    if run != [] && run[1..] != [] {
      StepKeepsInv(s, run[0]);
      ProgressApproaches(s, run[0]);
      FreeMutexIsTaken(Step(s, run[0]).value, run[1..]);
    }
  }

  // ----- refinement of an abstract reentrant lock

  datatype Abstract = Unheld | HeldBy(t: nat, depth: nat)

  /** The abstract moves: take, nest, unnest, release, or nothing. */
  predicate AbstractStep(kind: Kind, x: Abstract, y: Abstract, t: nat)
  {
    || x == y
    || (x == Unheld && y == HeldBy(t, 1))
    || (x == HeldBy(t, 1) && y == Unheld)
    || (kind == Recursive && x.HeldBy? && y.HeldBy? && x.t == t == y.t && x.depth > 0 && y.depth > 0 &&
        (y.depth == x.depth + 1 || x.depth == y.depth + 1))
  }

  ghost predicate Represents(s: State, x: Abstract)
  {
    match x
    case Unheld => forall t :: 0 <= t < |s.threads| ==> Depth(s.threads[t]) == 0
    case HeldBy(u, depth) =>
      u < |s.threads| && depth > 0 &&
      forall t :: 0 <= t < |s.threads| ==> Depth(s.threads[t]) == if t == u then depth else 0
  }

  predicate DepthMove(kind: Kind, d: nat, d': nat)
  {
    d == d' || d + d' == 1 || (kind == Recursive && d > 0 && d' > 0 && (d' == d + 1 || d == d' + 1))
  }

  lemma StepMovesDepth(s: State, a: Action)
    requires Inv(s) && Step(s, a).Some?
    ensures var s' := Step(s, a).value;
            && s'.threads == s.threads[a.t := s'.threads[a.t]]
            && DepthMove(s.kind, Depth(s.threads[a.t]), Depth(s'.threads[a.t]))
  {
    assert ThreadOk(s, a.t);
    SumAtLeast(s.threads, a.t, Owns);
  }

  /** Every step of the implementation is a step of the abstract lock, taken by the same thread. */
  lemma RefinesReentrantLock(s: State, a: Action, x: Abstract) returns (y: Abstract)
    requires Inv(s) && Step(s, a).Some? && Represents(s, x)
    ensures Represents(Step(s, a).value, y)
    ensures AbstractStep(s.kind, x, y, a.t)
  {
    StepMovesDepth(s, a);
    StepKeepsInv(s, a);
    y := Simulated(s, Step(s, a).value, a.t, x);
  }

  lemma Simulated(s: State, s': State, t: nat, x: Abstract) returns (y: Abstract)
    requires Inv(s') && t < |s.threads| && |s'.threads| == |s.threads| && Represents(s, x)
    requires s'.threads == s.threads[t := s'.threads[t]]
    requires DepthMove(s.kind, Depth(s.threads[t]), Depth(s'.threads[t]))
    ensures Represents(s', y)
    ensures AbstractStep(s.kind, x, y, t)
  {
    if Depth(s'.threads[t]) == 0 {
      y := if x.HeldBy? && x.t == t then Unheld else x;
    } else {
      y := HeldBy(t, Depth(s'.threads[t]));
      if x.HeldBy? && x.t != t {
        OneOwner(s', t, x.t);
      }
    }
  }

  // ----- the struct, updated in place by a call that meets no interference

  class MutexObject {
    const kind: Kind
    var lockIdx: int
    var recursiveCount: int
    var ownerThread: Option<nat>
    var event: bool

    ghost predicate Valid()
      reads this
    {
      && lockIdx in {0, 1, -1}
      && (kind == Normal ==> ownerThread.None?)
      && (kind != Normal ==> (lockIdx == 0 <==> ownerThread.None?) && (lockIdx != 0 ==> recursiveCount >= 1))
      && (kind == ErrorCheck && lockIdx != 0 ==> recursiveCount == 1)
    }

    /** Who holds it, and how deeply; a normal mutex does not record it. */
    ghost function Holder(): Abstract
      reads this
      requires Valid() && kind != Normal
    {
      if lockIdx == 0 then Unheld else HeldBy(ownerThread.value, recursiveCount)
    }

    constructor (kind: Kind)
      ensures Valid() && this.kind == kind && lockIdx == 0 && !event
    {
      this.kind := kind;
      lockIdx, recursiveCount, ownerThread, event := 0, 0, None, false;
    }

    method TryLock(self: nat) returns (result: Result)
      requires Valid()
      modifies this
      ensures Valid() && event == old(event)
      ensures result == Ok ==> lockIdx != 0
      ensures result != Ok ==> result == EBUSY && old(lockIdx) != 0 && lockIdx == old(lockIdx)
      ensures result != Ok ==> ownerThread == old(ownerThread) && recursiveCount == old(recursiveCount)
      ensures kind == Normal ==> (result == Ok <==> old(lockIdx) == 0)
      ensures kind != Normal ==>
                match old(Holder())
                case Unheld => result == Ok && Holder() == HeldBy(self, 1)
                case HeldBy(t, d) =>
                  if kind == Recursive && t == self then result == Ok && Holder() == HeldBy(self, d + 1)
                  else result == EBUSY && Holder() == HeldBy(t, d)
    {
      result := Ok;
      if lockIdx == 0 {
        lockIdx := 1;
        if kind != Normal {
          recursiveCount := 1;
          ownerThread := Some(self);
        }
      } else if kind == Recursive && ownerThread == Some(self) {
        recursiveCount := recursiveCount + 1;
      } else {
        result := EBUSY;
      }
    }

    method Unlock(self: nat) returns (result: Result)
      requires Valid()
      modifies this
      ensures Valid()
      ensures kind == Normal ==> result == Ok && lockIdx == 0 && event == (old(event) || old(lockIdx) < 0)
      ensures kind != Normal ==>
                match old(Holder())
                case Unheld => result == EPERM && Holder() == Unheld && event == old(event)
                case HeldBy(t, d) =>
                  if t != self then result == EPERM && Holder() == HeldBy(t, d) && event == old(event)
                  else if d > 1 then result == Ok && Holder() == HeldBy(t, d - 1) && event == old(event)
                  else result == Ok && Holder() == Unheld && event == (old(event) || old(lockIdx) < 0)
    {
      result := Ok;
      if kind == Normal {
        var idx := lockIdx;
        lockIdx := 0;
        if idx < 0 {
          event := true;
        }
      } else if ownerThread == Some(self) {
        if kind == Recursive {
          recursiveCount := recursiveCount - 1;
        }
        if kind != Recursive || recursiveCount == 0 {
          ownerThread := None;
          var idx := lockIdx;
          lockIdx := 0;
          if idx < 0 {
            event := true;
          }
        }
      } else {
        result := EPERM;
      }
    }
  }
}
