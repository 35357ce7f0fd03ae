/** The condition variable: three counters, a binary semaphore that acts as a gate, a semaphore on
    which waiters queue, and a mutex for the unblock counts. Waiters register inside the gate; the
    first signal closes it, and the last waiter it unblocks opens it again. */
module CondVar {
  import opened Counting
  import opened Runs
  import S = Semaphore

  /** INT_MAX / 2, where accumulated departures are folded into the blocked count. */
  const FOLD_AT: int := 0x3fff_ffff

  datatype Counters = Counters(blocked: int, gone: int, toUnblock: int)

  // ----- the sections that run under mtxUnblockLock, as functions on the counters

  /** A waiter retracts: returns the signals that were left, zero if nobody had signalled. */
  function AfterRetract(c: Counters): (Counters, int)
  {
    if c.toUnblock != 0 then (c.(toUnblock := c.toUnblock - 1), c.toUnblock)
    else (c.(gone := c.gone + 1), 0)
  }

  /** A signal or broadcast that finds the gate closed; returns the number of permits to issue. */
  function AfterSignalClosed(c: Counters, all: bool): (Counters, int)
  {
    if c.blocked == 0 then (c, 0)
    else if all then (c.(toUnblock := c.toUnblock + c.blocked, blocked := 0), c.blocked)
    else (c.(toUnblock := c.toUnblock + 1, blocked := c.blocked - 1), 1)
  }

  /** A signal or broadcast that has just closed the gate. */
  function AfterSignalClosing(c: Counters, all: bool): (Counters, int)
  {
    var folded := c.(blocked := c.blocked - c.gone, gone := 0);
    if all then (folded.(toUnblock := folded.blocked, blocked := 0), folded.blocked)
    else (folded.(toUnblock := 1, blocked := folded.blocked - 1), 1)
  }

  // ----- the struct, updated in place

  class CondVarObject {
    var nWaitersBlocked: int
    var nWaitersGone: int
    var nWaitersToUnblock: int

    ghost function Counts(): Counters
      reads this
    {
      Counters(nWaitersBlocked, nWaitersGone, nWaitersToUnblock)
    }

    /** The waiters registered and not retracted, as the counters tell it. */
    ghost function Waiters(): int
      reads this
    {
      nWaitersBlocked - nWaitersGone + nWaitersToUnblock
    }

    constructor ()
      ensures Counts() == Counters(0, 0, 0)
    {
      nWaitersBlocked, nWaitersGone, nWaitersToUnblock := 0, 0, 0;
    }

    /** One waiter less, whether it uses up a signal or not. It must open the gate if and only if it used
        up the last signal, and fold, under the gate, when the departures reach `FOLD_AT`. */
    method Retract() returns (nSignalsWasLeft: int, mustFold: bool)
      modifies this
      ensures (Counts(), nSignalsWasLeft) == AfterRetract(old(Counts()))
      ensures Waiters() == old(Waiters()) - 1
      ensures nSignalsWasLeft == 1 <==> old(nWaitersToUnblock) != 0 && nWaitersToUnblock == 0
      ensures mustFold <==> nSignalsWasLeft == 0 && nWaitersGone == FOLD_AT
    {
      nSignalsWasLeft := nWaitersToUnblock;
      mustFold := false;
      if nSignalsWasLeft != 0 {
        nWaitersToUnblock := nWaitersToUnblock - 1;
      } else {
        nWaitersGone := nWaitersGone + 1;
        mustFold := nWaitersGone == FOLD_AT;
      }
    }

    /** The whole unblock section; `gateClosed` says whether the caller had to close the gate on the
        way, which it does exactly when signals are not already outstanding. */
    method CountSignals(unblockAll: bool) returns (nSignalsToIssue: int, gateClosed: bool)
      modifies this
      ensures gateClosed <==> old(nWaitersToUnblock) == 0 && old(nWaitersBlocked) > old(nWaitersGone)
      ensures gateClosed ==> (Counts(), nSignalsToIssue) == AfterSignalClosing(old(Counts()), unblockAll)
      ensures old(nWaitersToUnblock) != 0 ==>
                (Counts(), nSignalsToIssue) == AfterSignalClosed(old(Counts()), unblockAll)
      ensures !gateClosed && old(nWaitersToUnblock) == 0 ==> Counts() == old(Counts()) && nSignalsToIssue == 0
      ensures Waiters() == old(Waiters())
      ensures nWaitersToUnblock == old(nWaitersToUnblock) + nSignalsToIssue
    {
      nSignalsToIssue, gateClosed := 0, false;
      if nWaitersToUnblock != 0 {
        if nWaitersBlocked == 0 {
          return;
        }
        if unblockAll {
          nSignalsToIssue := nWaitersBlocked;
          nWaitersToUnblock := nWaitersToUnblock + nSignalsToIssue;
          nWaitersBlocked := 0;
        } else {
          nSignalsToIssue := 1;
          nWaitersToUnblock := nWaitersToUnblock + 1;
          nWaitersBlocked := nWaitersBlocked - 1;
        }
      } else if nWaitersBlocked > nWaitersGone {
        gateClosed := true;
        if nWaitersGone != 0 {
          nWaitersBlocked := nWaitersBlocked - nWaitersGone;
          nWaitersGone := 0;
        }
        if unblockAll {
          nSignalsToIssue := nWaitersBlocked;
          nWaitersToUnblock := nSignalsToIssue;
          nWaitersBlocked := 0;
        } else {
          nSignalsToIssue := 1;
          nWaitersToUnblock := 1;
          nWaitersBlocked := nWaitersBlocked - 1;
        }
      }
    }
  }

  // ----- the protocol, for any number of threads

  datatype Pc =
    | Idle
      // a waiter
    | AtGate(blocked: bool)               // in sem_wait on the gate, before or in the kernel wait
    | GateLeaving                         // cancelled in the kernel wait, about to clean up
    | Reading                             // inside the gate, about to read nWaitersBlocked
    | Writing(read: int)                  // about to write it back, one larger
    | LeavingGate(reg: nat)               // registered (at time `reg`), about to post the gate
    | Unlocking(reg: nat)                 // about to unlock the user mutex
    | Queued(reg: nat)                    // in sem_timedwait on the queue
    | Retracting(reg: nat, took: bool)    // about to lock mtxUnblockLock, with or without a permit
    | Deciding(reg: nat, took: bool)      // inside mtxUnblockLock
    | FoldAtGate(blocked: bool)           // waiting for the gate while holding mtxUnblockLock
    | FoldSubtract                        // inside the gate, about to subtract the departures
    | FoldPost                            // about to post the gate
    | FoldClear                           // about to clear the departures
    | Releasing(left: int)                // about to unlock mtxUnblockLock
    | Opening(left: int)                  // about to open the gate if it was the last one
    | Relocking                           // about to lock the user mutex
      // a signaller
    | SigAtLock(all: bool)
    | SigDeciding(all: bool)              // inside mtxUnblockLock
    | SigAtGate(all: bool, blocked: bool) // waiting for the gate while holding mtxUnblockLock
    | SigClosing(all: bool)               // has taken the gate permit
    | SigReleasing(n: int, stamp: nat)    // `n` signals counted (at time `stamp`)
    | SigPosting(n: int, stamp: nat)      // about to post them to the queue
      // a destroyer
    | DstAtGate(blocked: bool)
    | DstTrying                           // inside the gate, about to trylock mtxUnblockLock
    | DstGivingUp                         // about to post the gate and report EBUSY
    | DstChecking                         // has the gate and mtxUnblockLock
    | DstBusyPost
    | DstBusyUnlock

  /** `gate` are the two counts of the gate semaphore, `permits` the permits of the queue semaphore,
      each with the time of the signal that issued it. `stolen` counts retractions without a permit that
      used up a signal, `spurious` those with a permit that found no signal left. `lost` counts the
      gate permits that cancelled threads took, and `skipped` the cancelled threads that left the gate
      semaphore without withdrawing; neither is read by any step. */
  datatype State = State(c: Counters, gate: S.Fields, permits: multiset<nat>, mtx: Option<nat>, threads: seq<Pc>,
                         clock: nat, stolen: nat, spurious: nat, lost: nat, skipped: nat, freed: bool)
  {
    function Move(t: nat, p: Pc): State
      requires t < |threads|
    {
      this.(threads := threads[t := p])
    }
  }

  datatype Action =
    | StartWait(t: nat)
    | StartSignal(t: nat, all: bool)
    | StartDestroy(t: nat)
    | Go(t: nat)                     // the one next step of thread `t`, if it is enabled
    | Take(t: nat, stamp: nat)       // the queue wait gets a permit
    | Abandon(t: nat)                // it times out or is cancelled
    | CancelAtGate(t: nat)           // a thread waiting for the gate is cancelled

  function InitState(n: nat): State
  {
    State(Counters(0, 0, 0), S.Fields(1, 0), multiset{}, None, seq(n, _ => Idle), 0, 0, 0, 0, 0, false)
  }

  // Waiter steps.

  /** A wait on the gate semaphore, by a thread that will be `wait` while it blocks and goes on to `next`:
      the decrement, and if that went below zero the kernel wait. */
  function StepAtGate(s: State, t: nat, blocked: bool, wait: Pc, next: Pc): Option<State>
    requires t < |s.threads|
  {
    if !blocked then Some(s.(gate := S.AfterDecrement(s.gate)).Move(t, if s.gate.value > 0 then next else wait))
    else if s.gate.kernel > 0 then Some(s.(gate := s.gate.(kernel := s.gate.kernel - 1)).Move(t, next))
    else None
  }

  function StepPost(s: State, t: nat, next: Pc): State
    requires t < |s.threads|
  {
    s.(gate := S.AfterPost(s.gate).0).Move(t, next)
  }

  function StepWriting(s: State, t: nat, read: int): Option<State>
    requires t < |s.threads|
  {
    Some(s.(c := s.c.(blocked := read + 1), clock := s.clock + 1).Move(t, LeavingGate(s.clock)))
  }

  function StepAtLock(s: State, t: nat, next: Pc): Option<State>
    requires t < |s.threads|
  {
    if s.mtx.Some? then None else Some(s.(mtx := Some(t)).Move(t, next))
  }

  function StepDeciding(s: State, t: nat, took: bool): Option<State>
    requires t < |s.threads|
  {
    var (c, left) := AfterRetract(s.c);
    var s1 := s.(c := c,
                 stolen := s.stolen + (if left != 0 && !took then 1 else 0),
                 spurious := s.spurious + (if left == 0 && took then 1 else 0));
    Some(s1.Move(t, if left == 0 && c.gone == FOLD_AT then FoldAtGate(false) else Releasing(left)))
  }

  function StepOpening(s: State, t: nat, left: int): Option<State>
    requires t < |s.threads|
  {
    Some(if left == 1 then StepPost(s, t, Relocking) else s.Move(t, Relocking))
  }

  function StepTake(s: State, t: nat, stamp: nat): Option<State>
    requires t < |s.threads|
  {
    if s.threads[t].Queued? && stamp in s.permits then
      Some(s.(permits := s.permits - multiset{stamp}).Move(t, Retracting(s.threads[t].reg, true)))
    else None
  }

  /** A failed unlock of the user mutex also goes straight to the cleanup. */
  function StepAbandon(s: State, t: nat): Option<State>
    requires t < |s.threads|
  {
    match s.threads[t]
    case Queued(reg) => Some(s.Move(t, Retracting(reg, false)))
    case Unlocking(reg) => Some(s.Move(t, Retracting(reg, false)))
    case _ => None
  }

  function StepCancelAtGate(s: State, t: nat): Option<State>
    requires t < |s.threads|
  {
    if !s.threads[t].AtGate? then None
    else Some(s.Move(t, if s.threads[t].blocked then GateLeaving else Idle))
  }

  /** The cleanup of the cancelled sem_wait. */
  function StepGateLeaving(s: State, t: nat): State
    requires t < |s.threads|
  {
    var (f, took) := S.AfterWaitCleanup(s.gate);
    s.(gate := f, lost := s.lost + (if took then 1 else 0), skipped := s.skipped + (if s.gate.value == 0 then 1 else 0))
     .Move(t, Idle)
  }

  // Signaller steps.

  function StepSigDeciding(s: State, t: nat, all: bool): Option<State>
    requires t < |s.threads|
  {
    if s.c.toUnblock != 0 then
      var (c, n) := AfterSignalClosed(s.c, all);
      Some(s.(c := c, clock := s.clock + 1).Move(t, SigReleasing(n, s.clock)))
    else if s.c.blocked > s.c.gone then Some(s.Move(t, SigAtGate(all, false)))
    else Some(s.Move(t, SigReleasing(0, s.clock)))
  }

  function StepSigClosing(s: State, t: nat, all: bool): Option<State>
    requires t < |s.threads|
  {
    var (c, n) := AfterSignalClosing(s.c, all);
    Some(s.(c := c, clock := s.clock + 1).Move(t, SigReleasing(n, s.clock)))
  }

  function StepSigReleasing(s: State, t: nat, n: int, stamp: nat): Option<State>
    requires t < |s.threads|
  {
    Some(s.(mtx := None).Move(t, if n == 0 then Idle else SigPosting(n, stamp)))
  }

  /** The batch post refuses a count that is not positive. */
  function StepSigPosting(s: State, t: nat, n: int, stamp: nat): Option<State>
    requires t < |s.threads|
  {
    if n <= 0 then Some(s.Move(t, Idle))
    else Some(s.(permits := s.permits[stamp := s.permits[stamp] + n]).Move(t, Idle))
  }

  // Destroyer steps.

  function StepDstChecking(s: State, t: nat): Option<State>
    requires t < |s.threads|
  {
    if s.c.blocked > s.c.gone then Some(s.Move(t, DstBusyPost))
    else Some(s.(freed := true))
  }

  function StepGo(s: State, t: nat): Option<State>
    requires t < |s.threads|
  {
    match s.threads[t]
    case Idle => None
    case AtGate(b) => StepAtGate(s, t, b, AtGate(true), Reading)
    case GateLeaving => Some(StepGateLeaving(s, t))
    case Reading => Some(s.Move(t, Writing(s.c.blocked)))
    case Writing(read) => StepWriting(s, t, read)
    case LeavingGate(reg) => Some(StepPost(s, t, Unlocking(reg)))
    case Unlocking(reg) => Some(s.Move(t, Queued(reg)))
    case Queued(_) => None
    case Retracting(reg, took) => StepAtLock(s, t, Deciding(reg, took))
    case Deciding(_, took) => StepDeciding(s, t, took)
    case FoldAtGate(b) => StepAtGate(s, t, b, FoldAtGate(true), FoldSubtract)
    case FoldSubtract => Some(s.(c := s.c.(blocked := s.c.blocked - s.c.gone)).Move(t, FoldPost))
    case FoldPost => Some(StepPost(s, t, FoldClear))
    case FoldClear => Some(s.(c := s.c.(gone := 0)).Move(t, Releasing(0)))
    case Releasing(left) => Some(s.(mtx := None).Move(t, Opening(left)))
    case Opening(left) => StepOpening(s, t, left)
    case Relocking => Some(s.Move(t, Idle))
    case SigAtLock(all) => StepAtLock(s, t, SigDeciding(all))
    case SigDeciding(all) => StepSigDeciding(s, t, all)
    case SigAtGate(all, b) => StepAtGate(s, t, b, SigAtGate(all, true), SigClosing(all))
    case SigClosing(all) => StepSigClosing(s, t, all)
    case SigReleasing(n, stamp) => StepSigReleasing(s, t, n, stamp)
    case SigPosting(n, stamp) => StepSigPosting(s, t, n, stamp)
    case DstAtGate(b) => StepAtGate(s, t, b, DstAtGate(true), DstTrying)
    case DstTrying =>
      if s.mtx.Some? then Some(s.Move(t, DstGivingUp)) else Some(s.(mtx := Some(t)).Move(t, DstChecking))
    case DstGivingUp => Some(StepPost(s, t, Idle))
    case DstChecking => StepDstChecking(s, t)
    case DstBusyPost => Some(StepPost(s, t, DstBusyUnlock))
    case DstBusyUnlock => Some(s.(mtx := None).Move(t, Idle))
  }

  function StepStart(s: State, t: nat, p: Pc): Option<State>
    requires t < |s.threads|
  {
    if s.threads[t].Idle? then Some(s.Move(t, p)) else None
  }

  /** Nothing is modelled after the object has been freed. */
  function Step(s: State, a: Action): Option<State>
  {
    if a.t >= |s.threads| || s.freed then None
    else match a
      case StartWait(t) => StepStart(s, t, AtGate(false))
      case StartSignal(t, all) => StepStart(s, t, SigAtLock(all))
      case StartDestroy(t) => StepStart(s, t, DstAtGate(false))
      case Go(t) => StepGo(s, t)
      case Take(t, stamp) => StepTake(s, t, stamp)
      case Abandon(t) => StepAbandon(s, t)
      case CancelAtGate(t) => StepCancelAtGate(s, t)
  }
}
