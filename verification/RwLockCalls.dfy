/** What a call on a read/write lock comes to between its start and its return, whatever other threads do
    meanwhile: who is let in, who is turned away, and why. */
module RwLockCalls {
  import opened Counting
  import opened Runs
  import opened RwLock
  import opened RwLockInvariant
  import opened RwLockTheorems

  /** The thread is in a call. */
  function InCall(t: nat): State -> bool
  {
    (s: State) => t < |s.threads| && !AtRest(s.threads[t])
  }

  predicate IsCall(a: Action)
  {
    a.ReadLock? || a.TryReadLock? || a.WriteLock? || a.TryWriteLock? || a.Unlock? || a.Destroy?
  }

  /** What an observer of thread `t` notes: whether it gave up, whether it did so in the wait for the readers,
      whether one of its steps met the lock in use, that is a reader inside, or another thread with one of
      the two mutexes, and whether one met a reader inside. */
  datatype Notes = Notes(timedOut: bool, inWait: bool, used: bool, readers: bool)

  predicate Taken(m: Option<nat>, t: nat) { m.Some? && m.value != t }

  ghost predicate InUse(s: State, t: nat) { Readers(s) > 0 || Taken(s.outer, t) || Taken(s.inner, t) }

  ghost function Noted(t: nat, h: Notes, s: State, a: Action, s': State): Notes
  {
    if a.t != t then h
    else Notes(h.timedOut || a.TimeOut?, h.inWait || (a.TimeOut? && t < |s.threads| && s.threads[t].WrWaiting?),
               h.used || InUse(s, t), h.readers || Readers(s) > 0)
  }

  ghost function Noting(t: nat): (Notes, State, Action, State) -> Notes
  {
    (h: Notes, s: State, a: Action, s': State) => Noted(t, h, s, a, s')
  }

  const BLANK := Notes(false, false, false, false)

  /** What the call leaves its thread with: `busy` says that the outer mutex was taken at the call. */
  predicate Outcome(call: Action, busy: bool, p: Pc, h: Notes)
  {
    match call
    case ReadLock(_) => p.Reading?
    case TryReadLock(_) => if busy then p.Idle? else p.Reading?
    case WriteLock(_, timed) => if h.timedOut then p.Idle? && (timed || h.inWait) else p.Writing?
    case TryWriteLock(_) => if busy || h.used then p.Idle? else p.Writing?
    case Unlock(_) => p.Idle?
    case Destroy(_) => p.Idle? && h.readers
    case _ => false
  }

  predicate EntryPoint(p: Pc)
  {
    p.RdAtOuter? || p.RdCounting? || p.RdFoldAtInner? || p.RdFolding? || p.RdReleasing?
  }

  predicate WritePoint(p: Pc, timed: bool)
  {
    || p == WrAtOuter(timed) || p == WrAtInner(timed) || p.WrDeciding? || p.WrWaiting?
    || p == WrWoken(true) || p == WrTesting(true)
  }

  predicate GivingUp(p: Pc)
  {
    p.WrGivingUp? || p == WrWoken(false) || p == WrTesting(false) || p.WrUndoing? || p.WrUndoInner? || p.WrUndoOuter?
  }

  predicate LeavePoint(p: Pc)
  {
    p.RdUnlockAtInner? || p.RdCompleting? || p.RdSignalling? || p.RdLeaving?
    || p.WrLeaving? || p.WrReleaseInner? || p.WrReleaseOuter?
  }

  /** Where a thread can be in a call. */
  predicate Midway(call: Action, busy: bool, p: Pc, h: Notes)
  {
    match call
    case ReadLock(_) => EntryPoint(p)
    case TryReadLock(_) => !busy && EntryPoint(p) && !p.RdAtOuter?
    case WriteLock(_, timed) => if h.timedOut then GivingUp(p) && (timed || h.inWait) else WritePoint(p, timed)
    case TryWriteLock(_) => !busy && (p.TryAtInner? || p.TryDeciding? || ((p.TryBusyInner? || p.TryBusyOuter?) && h.used))
    case Unlock(_) => LeavePoint(p)
    case Destroy(_) =>
      || p.DstAtOuter? || p.DstAtInner? || p.DstChecking?
      || (h.readers && (p.DstBusyInner? || p.DstBusyOuter?))
    case _ => false
  }

  ghost predicate Follows(s: State, call: Action, busy: bool, h: Notes)
  {
    && call.t < |s.threads|
    && var p := s.threads[call.t];
    && (if AtRest(p) then Outcome(call, busy, p, h) else Midway(call, busy, p, h))
    && (p.TryAtInner? ==> !h.used)
    && (p.TryDeciding? ==> (h.used ==> Readers(s) > 0))
  }

  lemma CallFollows(s: State, call: Action)
    requires Inv(s) && IsCall(call) && Step(s, call).Some?
    ensures Follows(Step(s, call).value, call, s.outer.Some?, BLANK)
  {
  }

  // ----- one step of the calling thread

  lemma EntryGoesOn(s: State, t: nat)
    requires t < |s.threads| && EntryPoint(s.threads[t]) && StepReader(s, t).Some?
    ensures var p' := StepReader(s, t).value.threads[t]; p'.Reading? || (EntryPoint(p') && !p'.RdAtOuter?)
  {
  }

  lemma LeavingGoesOn(s: State, t: nat)
    requires t < |s.threads| && LeavePoint(s.threads[t]) && StepGo(s, t).Some?
    ensures var p' := StepGo(s, t).value.threads[t]; p'.Idle? || LeavePoint(p')
  {
    hide SomeWriterWaits;
  }

  lemma WriterGoesOn(s: State, t: nat, timed: bool)
    requires t < |s.threads| && StepWriter(s, t).Some?
    ensures var p, p' := s.threads[t], StepWriter(s, t).value.threads[t];
            && (WritePoint(p, timed) ==> p'.Writing? || WritePoint(p', timed))
            && (GivingUp(p) ==> p'.Idle? || GivingUp(p'))
  {
  }

  lemma PointTellsCall(call: Action, busy: bool, p: Pc, h: Notes)
    requires IsCall(call) && Midway(call, busy, p, h)
    ensures call.ReadLock? || call.TryReadLock? ==> EntryPoint(p) && !AtRest(p)
    ensures call.WriteLock? ==> WriterPc(p) && !ReaderPc(p) && (if h.timedOut then GivingUp(p) else WritePoint(p, call.timed))
    ensures call.Unlock? ==> LeavePoint(p)
    ensures call.TryWriteLock? || call.Destroy? ==> !ReaderPc(p) && !WriterPc(p)
  {
  }

  lemma TryGoesOn(s: State, call: Action, busy: bool, h: Notes)
    requires Local(s, call.t) && Follows(s, call, busy, h) && StepOther(s, call.t).Some? && call.TryWriteLock?
    requires s.threads[call.t].TryAtInner? || s.threads[call.t].TryBusyInner? || s.threads[call.t].TryBusyOuter?
    ensures var s' := StepOther(s, call.t).value; Follows(s', call, busy, Noted(call.t, h, s, Go(call.t), s'))
  {
    hide OuterRole, SignalComing, SomeWriterWaits, Covered;
    var t := call.t;
    SumUpdate(s.threads, t, StepOther(s, t).value.threads[t], Active);
    hide Readers;
  }

  lemma TryDecides(s: State, call: Action, busy: bool, h: Notes)
    requires Local(s, call.t) && Follows(s, call, busy, h) && StepOther(s, call.t).Some? && call.TryWriteLock?
    requires s.threads[call.t].TryDeciding?
    ensures var s' := StepOther(s, call.t).value; Follows(s', call, busy, Noted(call.t, h, s, Go(call.t), s'))
  {
    hide OuterRole, SignalComing, SomeWriterWaits, Covered;
    var t := call.t;
    SumUpdate(s.threads, t, StepOther(s, t).value.threads[t], Active);
    hide Readers;
  }

  lemma DestroyGoesOn(s: State, call: Action, busy: bool, h: Notes)
    requires Follows(s, call, busy, h) && StepOther(s, call.t).Some? && call.Destroy?
    requires !AtRest(s.threads[call.t]) && !s.threads[call.t].DstChecking?
    ensures var s' := StepOther(s, call.t).value; Follows(s', call, busy, Noted(call.t, h, s, Go(call.t), s'))
  {
    hide Readers, InUse;
  }

  lemma DestroyChecks(s: State, call: Action, busy: bool, h: Notes)
    requires Local(s, call.t) && Follows(s, call, busy, h) && StepOther(s, call.t).Some? && call.Destroy?
    requires s.threads[call.t].DstChecking? && !s.freed
    ensures var s' := StepOther(s, call.t).value; Follows(s', call, busy, Noted(call.t, h, s, Go(call.t), s'))
  {
    hide OuterRole, SignalComing, SomeWriterWaits, Covered, Readers, InUse;
  }

  /** For the calls whose outcome does not hang on what they meet it is enough where the thread goes. */
  lemma GoesOn(s: State, s': State, call: Action, busy: bool, h: Notes)
    requires Follows(s, call, busy, h) && call.t < |s'.threads| && !AtRest(s.threads[call.t])
    requires var p, p' := s.threads[call.t], s'.threads[call.t];
             match call
             case ReadLock(_) => p'.Reading? || (EntryPoint(p') && !p'.RdAtOuter?)
             case TryReadLock(_) => p'.Reading? || (EntryPoint(p') && !p'.RdAtOuter?)
             case WriteLock(_, timed) => if h.timedOut then p'.Idle? || GivingUp(p') else p'.Writing? || WritePoint(p', timed)
             case Unlock(_) => p'.Idle? || LeavePoint(p')
             case _ => false
    ensures Follows(s', call, busy, Noted(call.t, h, s, Go(call.t), s'))
  {
    hide InUse, Readers;
  }

  lemma GoFollows(s: State, call: Action, busy: bool, h: Notes)
    requires Local(s, call.t) && IsCall(call) && Follows(s, call, busy, h)
    requires StepGo(s, call.t).Some? && !AtRest(s.threads[call.t]) && !s.freed
    ensures var s' := StepGo(s, call.t).value; Follows(s', call, busy, Noted(call.t, h, s, Go(call.t), s'))
  {
    var t, p := call.t, s.threads[call.t];
    PointTellsCall(call, busy, p, h);
    if call.TryWriteLock? {
      if s.threads[t].TryDeciding? {
        TryDecides(s, call, busy, h);
      } else {
        TryGoesOn(s, call, busy, h);
      }
    } else if call.Destroy? {
      if s.threads[t].DstChecking? {
        DestroyChecks(s, call, busy, h);
      } else {
        DestroyGoesOn(s, call, busy, h);
      }
    } else {
      if call.Unlock? {
        LeavingGoesOn(s, t);
      } else if call.WriteLock? {
        WriterGoesOn(s, t, call.timed);
      } else {
        EntryGoesOn(s, t);
      }
      hide Local, Follows, EntryPoint, LeavePoint, WritePoint, GivingUp;
      GoesOn(s, StepGo(s, t).value, call, busy, h);
    }
  }

  lemma OnlyWritersGiveUp(s: State, call: Action, busy: bool, h: Notes)
    requires Follows(s, call, busy, h) && StepTimeOut(s, call.t).Some?
    ensures call.WriteLock?
  {
    hide Readers;
  }

  lemma GivingUpFollows(s: State, call: Action, busy: bool, h: Notes)
    requires Follows(s, call, busy, h) && StepTimeOut(s, call.t).Some? && call.WriteLock?
    ensures var s' := StepTimeOut(s, call.t).value; Follows(s', call, busy, Noted(call.t, h, s, TimeOut(call.t), s'))
  {
    hide Readers, InUse;
  }

  /** Readers come in with the outer mutex and go out with the inner one. */
  lemma ReadersStay(s: State, a: Action, t: nat)
    requires Inv(s) && Step(s, a).Some? && t < |s.threads| && a.t != t && s.threads[t].TryDeciding?
    ensures Readers(Step(s, a).value) == Readers(s)
  {
    var s' := Step(s, a).value;
    assert a.t < |s.threads|;
    InvLocal(s, t);
    InvLocal(s, a.t);
    OnlyOneMoves(s, a);
    NoReaderMoves(s, a);
    assert s'.threads == s.threads[a.t := s'.threads[a.t]];
    SumUpdate(s.threads, a.t, s'.threads[a.t], Active);
  }

  lemma NoReaderMoves(s: State, a: Action)
    requires Step(s, a).Some? && a.t < |s.threads| && !MeaningOf(s.threads[a.t]).outer && !MeaningOf(s.threads[a.t]).inner
    requires s.inner.Some? && s.outer.Some? && s.c.exclusive == 0
    ensures a.t < |Step(s, a).value.threads| && Active(Step(s, a).value.threads[a.t]) == Active(s.threads[a.t])
  {
    hide SomeWriterWaits;
  }

  lemma StepFollows(s: State, a: Action, call: Action, busy: bool, h: Notes)
    requires Inv(s) && IsCall(call) && Step(s, a).Some? && Follows(s, call, busy, h) && !AtRest(s.threads[call.t])
    ensures Follows(Step(s, a).value, call, busy, Noted(call.t, h, s, a, Step(s, a).value))
  {
    var t := call.t;
    if a.t != t {
      OnlyOneMoves(s, a);
      if s.threads[t].TryDeciding? { ReadersStay(s, a, t); }
      hide Inv, Step, Outcome, Midway;
    } else {
      InvLocal(s, t);
      hide Inv, Local, Follows, StepGo, StepTimeOut;
      if a.TimeOut? {
        OnlyWritersGiveUp(s, call, busy, h);
        GivingUpFollows(s, call, busy, h);
      } else if a.Spurious? {
        SpuriousFollows(s, call, busy, h);
      } else {
        GoFollows(s, call, busy, h);
      }
    }
  }

  lemma SpuriousFollows(s: State, call: Action, busy: bool, h: Notes)
    requires Follows(s, call, busy, h) && Step(s, Spurious(call.t)).Some?
    ensures var s' := Step(s, Spurious(call.t)).value; Follows(s', call, busy, Noted(call.t, h, s, Spurious(call.t), s'))
  {
  }

  /** Over any run from a call to its return. lock for reading ends in reading. tryrdlock reads, or turns away
      exactly when the outer mutex was taken at the call. A writer ends in writing unless it gave up: by a
      timeout if the call was a timed one, and otherwise only by a cancellation of its wait for the readers.
      trywrlock writes, or turns away exactly when the outer mutex was taken at the call, or the call
      itself met the inner one taken or a reader inside. unlock ends outside. destroy returns only if it met
      a reader inside. */
  lemma CallOutcome(s: State, n: nat, call: Action, run: seq<Action>)
    requires Reachable(s, n) && IsCall(call) && Step(s, call).Some?
    requires While(Step(s, call).value, run, Step, InCall(call.t))
    ensures var t, s1 := call.t, Step(s, call).value;
            var r, h := Exec(s1, run, Step), Fold(s1, run, Step, Noting(t), BLANK);
            && r.Some? && t < |r.value.threads|
            && (AtRest(r.value.threads[t]) ==> Outcome(call, s.outer.Some?, r.value.threads[t], h))
            && (!AtRest(r.value.threads[t]) ==> Midway(call, s.outer.Some?, r.value.threads[t], h))
  {
    ReachableInv(s, n);
    var s1, t, busy := Step(s, call).value, call.t, s.outer.Some?;
    StepKeepsInv(s, call);
    CallFollows(s, call);
    var inv := (x: State, h: Notes) => Inv(x) && Follows(x, call, busy, h);
    forall x, h, a | InCall(t)(x) && inv(x, h) && Step(x, a).Some?
      ensures inv(Step(x, a).value, Noted(t, h, x, a, Step(x, a).value))
    {
      StepKeepsInv(x, a);
      StepFollows(x, a, call, busy, h);
    }
    hide Inv;
    WhileKeeps(s1, run, Step, InCall(t), Noting(t), BLANK, inv);
  }

  /** A timed writer can give up for as long as it has to wait for a mutex or for the readers; once out of
      that wait it relocks the inner mutex all the same. */
  lemma TimedWriterCanGiveUp(s: State, n: nat, t: nat, run: seq<Action>)
    requires Reachable(s, n) && Step(s, WriteLock(t, true)).Some? && TimeOut(t) !in run
    requires While(Step(s, WriteLock(t, true)).value, run, Step, InCall(t))
    ensures var r := Exec(Step(s, WriteLock(t, true)).value, run, Step);
            && r.Some? && t < |r.value.threads|
            && var p := r.value.threads[t];
               !r.value.freed && !AtRest(p) && Step(r.value, Go(t)).None? ==>
                 p == WrWoken(true) || Step(r.value, TimeOut(t)).Some?
  {
    CallOutcome(s, n, WriteLock(t, true), run);
    var s1 := Step(s, WriteLock(t, true)).value;
    NotGivenUp(s1, run, t, BLANK);
    var s' := Exec(s1, run, Step).value;
    hide AtRest, WritePoint, StepGo, StepTimeOut;
    if !s'.freed && !AtRest(s'.threads[t]) && Step(s', Go(t)).None? { HeldUpWriter(s', t); }
  }

  lemma HeldUpWriter(s: State, t: nat)
    requires t < |s.threads| && WritePoint(s.threads[t], true) && StepGo(s, t).None?
    ensures s.threads[t] == WrWoken(true) || StepTimeOut(s, t).Some?
  {
  }

  lemma {:induction false} NotGivenUp(s: State, run: seq<Action>, t: nat, h: Notes)
    requires !h.timedOut && TimeOut(t) !in run && Exec(s, run, Step).Some?
    ensures !Fold(s, run, Step, Noting(t), h).timedOut
    decreases |run|
  {
    if run != [] {
      var s' := Step(s, run[0]).value;
      assert run[0] in run;
      hide Step;
      NotGivenUp(s', run[1..], t, Noted(t, h, s, run[0], s'));
    }
  }

  /** A thread outside any call can make each of them. */
  lemma CallsCanBegin(s: State, n: nat, t: nat, timed: bool)
    requires Reachable(s, n) && !s.freed && t < |s.threads|
    ensures s.threads[t].Idle? ==>
              && Step(s, ReadLock(t)).Some? && Step(s, TryReadLock(t)).Some? && Step(s, WriteLock(t, timed)).Some?
              && Step(s, TryWriteLock(t)).Some? && Step(s, Destroy(t)).Some?
    ensures s.threads[t].Reading? || s.threads[t].Writing? ==> Step(s, Unlock(t)).Some?
  {
  }

}
