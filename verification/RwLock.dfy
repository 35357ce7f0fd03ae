/** The read/write lock: an outer mutex that admits readers one by one and is kept by a writer, an
    inner mutex that guards the count of readers that have finished, and a condition variable on
    which a writer waits for the readers it found inside. */
module RwLock {
  import opened Counting
  import opened Runs

  const INT_MAX: int := 0x7fff_ffff

  /** `shared` counts readers let in, `exclusive` the active writer, `completed` the readers that have
      left; while a writer waits, `completed` is minus the number of readers still inside. */
  datatype Counters = Counters(shared: int, exclusive: int, completed: int)

  // ----- the guarded sections, as functions on the counters

  function AfterFold(c: Counters): Counters
  {
    c.(shared := c.shared - c.completed, completed := 0)
  }

  /** What a writer does to the counters before it decides whether it must wait. */
  function AfterWriterEntry(c: Counters): Counters
  {
    if c.completed > 0 then AfterFold(c) else c
  }

  function AfterFlip(c: Counters): Counters
  {
    c.(completed := -c.shared)
  }

  function AfterCancel(c: Counters): Counters
  {
    c.(shared := -c.completed, completed := 0)
  }

  // ----- the struct, updated in place by sections that run under its mutexes

  class RwLockObject {
    var nSharedAccessCount: int
    var nExclusiveAccessCount: int
    var nCompletedSharedAccessCount: int

    ghost function Counts(): Counters
      reads this
    {
      Counters(nSharedAccessCount, nExclusiveAccessCount, nCompletedSharedAccessCount)
    }

    constructor ()
      ensures Counts() == Counters(0, 0, 0)
    {
      nSharedAccessCount, nExclusiveAccessCount, nCompletedSharedAccessCount := 0, 0, 0;
    }

    /** The readers let in and not counted out, while no writer waits. */
    ghost function ReadersInside(): int
      reads this
    {
      nSharedAccessCount - nCompletedSharedAccessCount
    }

    /** A reader is let in: it counts itself, and at the limit folds, with the inner mutex, so that the
        count stays below the limit for as long as the readers inside do. */
    method CountReader() returns (folded: bool)
      requires 0 <= nCompletedSharedAccessCount <= nSharedAccessCount < INT_MAX
      modifies this
      ensures ReadersInside() == old(ReadersInside()) + 1
      ensures nExclusiveAccessCount == old(nExclusiveAccessCount)
      ensures ReadersInside() < INT_MAX ==> 0 <= nCompletedSharedAccessCount <= nSharedAccessCount < INT_MAX
      ensures nCompletedSharedAccessCount == if folded then 0 else old(nCompletedSharedAccessCount)
      ensures folded <==> old(ReadersInside()) + 1 + old(nCompletedSharedAccessCount) == INT_MAX
    {
      nSharedAccessCount := nSharedAccessCount + 1;
      folded := nSharedAccessCount == INT_MAX;
      if folded {
        nSharedAccessCount := nSharedAccessCount - nCompletedSharedAccessCount;
        nCompletedSharedAccessCount := 0;
      }
    }

    /** A writer that has both mutexes: either nobody is inside and it may go on, or it must wait for
        as many readers as `nCompletedSharedAccessCount` is now negative. */
    method EnterWriter() returns (mustWait: bool)
      modifies this
      ensures old(nExclusiveAccessCount) == 0 ==>
                var entry := AfterWriterEntry(old(Counts()));
                && (mustWait <==> entry.shared > 0)
                && Counts() == if mustWait then AfterFlip(entry) else entry.(exclusive := 1)
      ensures mustWait ==> nCompletedSharedAccessCount < 0
      ensures old(nExclusiveAccessCount) != 0 ==>
                !mustWait && Counts() == old(Counts()).(exclusive := old(nExclusiveAccessCount) + 1)
      ensures old(nExclusiveAccessCount) == 0 && !mustWait ==> nExclusiveAccessCount == 1
    {
      mustWait := false;
      if nExclusiveAccessCount == 0 {
        if nCompletedSharedAccessCount > 0 {
          nSharedAccessCount := nSharedAccessCount - nCompletedSharedAccessCount;
          nCompletedSharedAccessCount := 0;
        }
        if nSharedAccessCount > 0 {
          nCompletedSharedAccessCount := -nSharedAccessCount;
          mustWait := true;
        }
      }
      if !mustWait {
        nExclusiveAccessCount := nExclusiveAccessCount + 1;
      }
    }

    /** A waiting writer that timed out or was cancelled gives up: the readers still inside are counted
        as readers again. */
    method CancelWriter()
      modifies this
      ensures Counts() == AfterCancel(old(Counts()))
      ensures old(nCompletedSharedAccessCount) <= 0 ==>
                nSharedAccessCount - nCompletedSharedAccessCount == -old(nCompletedSharedAccessCount)
    {
      nSharedAccessCount := -nCompletedSharedAccessCount;
      nCompletedSharedAccessCount := 0;
    }
  }

  // ----- the protocol, for any number of threads

  datatype Pc =
    | Idle
      // a reader comes in
    | RdAtOuter
    | RdCounting              // has the outer mutex, about to count itself
    | RdFoldAtInner           // the count is at its limit, waiting for the inner mutex
    | RdFolding
    | RdReleasing             // about to release the outer mutex
    | Reading
      // a reader goes out
    | RdUnlockAtInner         // found no writer, waiting for the inner mutex
    | RdCompleting            // about to count itself out
    | RdSignalling            // was the last one a writer waits for, about to signal
    | RdLeaving               // about to release the inner mutex
      // a writer comes in
    | WrAtOuter(timed: bool)
    | WrAtInner(timed: bool)  // has the outer mutex
    | WrGivingUp              // timed out on the inner mutex, about to release the outer one
    | WrDeciding              // has both
    | WrWaiting               // in the condition wait: the inner mutex is released
    | WrWoken(ok: bool)       // out of it, about to relock the inner mutex
    | WrTesting(ok: bool)
    | WrUndoing               // timed out or cancelled, about to restore the counters
    | WrUndoInner             // about to release the inner mutex
    | WrUndoOuter             // about to release the outer one
    | Writing
      // a writer goes out
    | WrLeaving               // found a writer, about to count it out
    | WrReleaseInner
    | WrReleaseOuter
      // a writer tries to come in
    | TryAtInner
    | TryDeciding
    | TryBusyInner
    | TryBusyOuter
    | Leaked                  // would return EBUSY with both mutexes still locked
      // a destroyer
    | DstAtOuter
    | DstAtInner
    | DstChecking
    | DstBusyInner
    | DstBusyOuter

  /** `notified` says that the writer in the condition wait has been signalled. */
  datatype State = State(c: Counters, outer: Option<nat>, inner: Option<nat>, notified: bool, threads: seq<Pc>,
                         freed: bool)
  {
    function Move(t: nat, p: Pc): State
      requires t < |threads|
    {
      this.(threads := threads[t := p])
    }
  }

  datatype Action =
    | ReadLock(t: nat)
    | TryReadLock(t: nat)
    | WriteLock(t: nat, timed: bool)
    | TryWriteLock(t: nat)
    | Unlock(t: nat)          // reads nExclusiveAccessCount without holding anything
    | Destroy(t: nat)
    | Go(t: nat)              // the one next step of thread `t`, if it is enabled
    | TimeOut(t: nat)         // a timed mutex lock, or the condition wait, gives up
    | Spurious(t: nat)        // the condition wait returns unsignalled

  function InitState(n: nat): State
  {
    State(Counters(0, 0, 0), None, None, false, seq(n, _ => Idle), false)
  }

  function StepOuter(s: State, t: nat, next: Pc): Option<State>
    requires t < |s.threads|
  {
    if s.outer.Some? then None else Some(s.(outer := Some(t)).Move(t, next))
  }

  function StepInner(s: State, t: nat, next: Pc): Option<State>
    requires t < |s.threads|
  {
    if s.inner.Some? then None else Some(s.(inner := Some(t)).Move(t, next))
  }

  predicate SomeWriterWaits(s: State)
  {
    exists u :: 0 <= u < |s.threads| && s.threads[u].WrWaiting?
  }

  function StepReader(s: State, t: nat): Option<State>
    requires t < |s.threads|
  {
    match s.threads[t]
    case RdAtOuter => StepOuter(s, t, RdCounting)
    case RdCounting =>
      var s1 := s.(c := s.c.(shared := s.c.shared + 1));
      Some(s1.Move(t, if s1.c.shared == INT_MAX then RdFoldAtInner else RdReleasing))
    case RdFoldAtInner => StepInner(s, t, RdFolding)
    case RdFolding => Some(s.(c := AfterFold(s.c), inner := None).Move(t, RdReleasing))
    case RdReleasing => Some(s.(outer := None).Move(t, Reading))
    case RdUnlockAtInner => StepInner(s, t, RdCompleting)
    case RdCompleting =>
      var s1 := s.(c := s.c.(completed := s.c.completed + 1));
      Some(s1.Move(t, if s1.c.completed == 0 then RdSignalling else RdLeaving))
    case RdSignalling => Some(s.(notified := s.notified || SomeWriterWaits(s)).Move(t, RdLeaving))
    case RdLeaving => Some(s.(inner := None).Move(t, Idle))
    case _ => None
  }

  /** With the outer mutex in hand no writer should be found active; if one were, the code would go
      straight to counting itself in. */
  function StepWrDeciding(s: State, t: nat): State
    requires t < |s.threads|
  {
    var e := AfterWriterEntry(s.c);
    if s.c.exclusive == 0 && e.shared > 0 then s.(c := AfterFlip(e), inner := None).Move(t, WrWaiting)
    else if s.c.exclusive == 0 then s.(c := e.(exclusive := 1)).Move(t, Writing)
    else s.(c := s.c.(exclusive := s.c.exclusive + 1)).Move(t, Writing)
  }

  function StepWrTesting(s: State, t: nat, ok: bool): State
    requires t < |s.threads|
  {
    if !ok then s.Move(t, WrUndoing)
    else if s.c.completed < 0 then s.(inner := None).Move(t, WrWaiting)
    else s.(c := s.c.(shared := 0, exclusive := s.c.exclusive + 1)).Move(t, Writing)
  }

  function StepWriter(s: State, t: nat): Option<State>
    requires t < |s.threads|
  {
    match s.threads[t]
    case WrAtOuter(timed) => StepOuter(s, t, WrAtInner(timed))
    case WrAtInner(_) => StepInner(s, t, WrDeciding)
    case WrGivingUp => Some(s.(outer := None).Move(t, Idle))
    case WrDeciding => Some(StepWrDeciding(s, t))
    case WrWaiting => if s.notified then Some(s.(notified := false).Move(t, WrWoken(true))) else None
    case WrWoken(ok) => StepInner(s, t, WrTesting(ok))
    case WrTesting(ok) => Some(StepWrTesting(s, t, ok))
    case WrUndoing => Some(s.(c := AfterCancel(s.c)).Move(t, WrUndoInner))
    case WrUndoInner => Some(s.(inner := None).Move(t, WrUndoOuter))
    case WrUndoOuter => Some(s.(outer := None).Move(t, Idle))
    case WrLeaving => Some(s.(c := s.c.(exclusive := s.c.exclusive - 1)).Move(t, WrReleaseInner))
    case WrReleaseInner => Some(s.(inner := None).Move(t, WrReleaseOuter))
    case WrReleaseOuter => Some(s.(outer := None).Move(t, Idle))
    case _ => None
  }

  function StepTryDeciding(s: State, t: nat): State
    requires t < |s.threads|
  {
    var e := AfterWriterEntry(s.c);
    if s.c.exclusive != 0 then s.Move(t, Leaked)
    else if e.shared > 0 then s.(c := e).Move(t, TryBusyInner)
    else s.(c := e.(exclusive := 1)).Move(t, Writing)
  }

  function StepOther(s: State, t: nat): Option<State>
    requires t < |s.threads|
  {
    match s.threads[t]
    case TryAtInner =>
      if s.inner.Some? then Some(s.Move(t, TryBusyOuter)) else Some(s.(inner := Some(t)).Move(t, TryDeciding))
    case TryDeciding => Some(StepTryDeciding(s, t))
    case TryBusyInner => Some(s.(inner := None).Move(t, TryBusyOuter))
    case TryBusyOuter => Some(s.(outer := None).Move(t, Idle))
    case DstAtOuter => StepOuter(s, t, DstAtInner)
    case DstAtInner => StepInner(s, t, DstChecking)
    case DstChecking =>
      if s.c.exclusive > 0 || s.c.shared > s.c.completed then Some(s.Move(t, DstBusyInner))
      else Some(s.(freed := true))
    case DstBusyInner => Some(s.(inner := None).Move(t, DstBusyOuter))
    case DstBusyOuter => Some(s.(outer := None).Move(t, Idle))
    case _ => None
  }

  predicate ReaderPc(p: Pc)
  {
    p.RdAtOuter? || p.RdCounting? || p.RdFoldAtInner? || p.RdFolding? || p.RdReleasing?
    || p.RdUnlockAtInner? || p.RdCompleting? || p.RdSignalling? || p.RdLeaving?
  }

  predicate WriterPc(p: Pc)
  {
    p.WrAtOuter? || p.WrAtInner? || p.WrGivingUp? || p.WrDeciding? || p.WrWaiting? || p.WrWoken? || p.WrTesting?
    || p.WrUndoing? || p.WrUndoInner? || p.WrUndoOuter? || p.WrLeaving? || p.WrReleaseInner? || p.WrReleaseOuter?
  }

  function StepGo(s: State, t: nat): Option<State>
    requires t < |s.threads|
  {
    if ReaderPc(s.threads[t]) then StepReader(s, t)
    else if WriterPc(s.threads[t]) then StepWriter(s, t)
    else StepOther(s, t)
  }

  function StepUnlock(s: State, t: nat): Option<State>
    requires t < |s.threads|
  {
    if !s.threads[t].Reading? && !s.threads[t].Writing? then None
    else Some(s.Move(t, if s.c.exclusive == 0 then RdUnlockAtInner else WrLeaving))
  }

  /** The wait that gives up need not be a timed one: a plain wait can be cancelled. */
  function StepTimeOut(s: State, t: nat): Option<State>
    requires t < |s.threads|
  {
    match s.threads[t]
    case WrAtOuter(timed) => if timed then Some(s.Move(t, Idle)) else None
    case WrAtInner(timed) => if timed then Some(s.Move(t, WrGivingUp)) else None
    case WrWaiting => Some(s.(notified := false).Move(t, WrWoken(false)))
    case _ => None
  }

  function Step(s: State, a: Action): Option<State>
  {
    if a.t >= |s.threads| || s.freed then None
    else match a
      case ReadLock(t) => if s.threads[t].Idle? then Some(s.Move(t, RdAtOuter)) else None
      case TryReadLock(t) =>
        if !s.threads[t].Idle? then None
        else if s.outer.Some? then Some(s)                                   // EBUSY
        else Some(s.(outer := Some(t)).Move(t, RdCounting))
      case WriteLock(t, timed) => if s.threads[t].Idle? then Some(s.Move(t, WrAtOuter(timed))) else None
      case TryWriteLock(t) =>
        if !s.threads[t].Idle? then None
        else if s.outer.Some? then Some(s)                                   // EBUSY
        else Some(s.(outer := Some(t)).Move(t, TryAtInner))
      case Unlock(t) => StepUnlock(s, t)
      case Destroy(t) => if s.threads[t].Idle? then Some(s.Move(t, DstAtOuter)) else None
      case Go(t) => StepGo(s, t)
      case TimeOut(t) => StepTimeOut(s, t)
      case Spurious(t) =>
        if s.threads[t].WrWaiting? then Some(s.(notified := false).Move(t, WrWoken(true))) else None
  }
}
