/** What every reachable state of the read/write lock satisfies, for fewer than INT_MAX threads. */
module RwLockInvariant {
  import opened Counting
  import opened Runs
  import opened RwLock

  /** What the owner of the outer mutex is doing to the counters. */
  datatype Role =
    | Passing         // leaves them as they are
    | Folding         // a reader that found the count at its limit
    | Sleeping        // a writer in the condition wait: the completed count is negative
    | Awake           // the same, out of the wait
    | Exclusive       // the active writer
    | Leaving         // no longer the active writer, but nobody has come in since

  /** What a program point means: which mutexes the thread has, whether it is a reader let in and not
      counted out yet, and what it does to the counters if it has the outer mutex. */
  datatype Meaning = Meaning(outer: bool, inner: bool, active: bool, role: Role)

  function MeaningOf(p: Pc): Meaning
  {
    match p
    case Idle | RdAtOuter | WrAtOuter(_) | DstAtOuter => Meaning(false, false, false, Passing)
    case RdCounting => Meaning(true, false, false, Passing)
    case RdFoldAtInner => Meaning(true, false, true, Folding)
    case RdFolding => Meaning(true, true, true, Folding)
    case RdReleasing => Meaning(true, false, true, Passing)
    case Reading | RdUnlockAtInner => Meaning(false, false, true, Passing)
    case RdCompleting => Meaning(false, true, true, Passing)
    case RdSignalling | RdLeaving => Meaning(false, true, false, Passing)
    case WrAtInner(_) | WrGivingUp | WrUndoOuter | WrReleaseOuter | TryAtInner | TryBusyOuter | DstAtInner
      | DstBusyOuter => Meaning(true, false, false, Passing)
    case WrDeciding | WrUndoInner | TryDeciding | TryBusyInner | DstChecking | DstBusyInner | Leaked =>
      Meaning(true, true, false, Passing)
    case WrWaiting => Meaning(true, false, false, Sleeping)
    case WrWoken(_) => Meaning(true, false, false, Awake)
    case WrTesting(_) | WrUndoing => Meaning(true, true, false, Awake)
    case Writing | WrLeaving => Meaning(true, true, false, Exclusive)
    case WrReleaseInner => Meaning(true, true, false, Leaving)
  }

  function Active(p: Pc): nat { if MeaningOf(p).active then 1 else 0 }

  function OuterRole(s: State): Role
  {
    if s.outer.Some? && s.outer.value < |s.threads| then MeaningOf(s.threads[s.outer.value]).role else Passing
  }

  /** The last reader a writer waits for has counted itself out and is about to signal. */
  predicate SignalComing(s: State)
  {
    s.inner.Some? && s.inner.value < |s.threads| && s.threads[s.inner.value].RdSignalling?
  }

  ghost function Readers(s: State): nat { Sum(s.threads, Active) }

  predicate ThreadOk(s: State, t: nat)
    requires t < |s.threads|
  {
    && (MeaningOf(s.threads[t]).outer <==> s.outer == Some(t))
    && (MeaningOf(s.threads[t]).inner <==> s.inner == Some(t))
    && !s.threads[t].Leaked?
  }

  /** The three counters, told by what the owner of the outer mutex is doing. */
  predicate CountsOk(s: State, o: Role, readers: int)
  {
    var c := s.c;
    && c.exclusive == (if o.Exclusive? then 1 else 0)
    && (if o.Sleeping? || o.Awake? then c.completed == -readers && 0 < c.shared < INT_MAX
        else readers == c.shared - c.completed && 0 <= c.completed && c.shared <= INT_MAX)
    && (c.shared == INT_MAX ==> o.Folding?)
    && (o.Exclusive? || o.Leaving? ==> c.shared == 0 && c.completed == 0)
  }

  /** A writer that sleeps unsignalled still has readers to wait for, or the last of them is just
      about to signal it. */
  predicate Covered(s: State, o: Role, coming: bool)
  {
    o.Sleeping? && !s.notified ==> s.c.completed < 0 || coming
  }

  ghost predicate Inv(s: State)
  {
    && |s.threads| < INT_MAX
    && (s.outer.Some? ==> s.outer.value < |s.threads|)
    && (s.inner.Some? ==> s.inner.value < |s.threads|)
    && (forall t :: 0 <= t < |s.threads| ==> ThreadOk(s, t))
    && CountsOk(s, OuterRole(s), Readers(s))
    && Covered(s, OuterRole(s), SignalComing(s))
  }

  lemma InitInv(n: nat)
    requires n < INT_MAX
    ensures Inv(InitState(n))
  {
    SumZero(InitState(n).threads, Active);
  }

  /** The mutexes around a move of thread `t` from `p` to `p'`: it may take one that is free, keep it,
      or let go of its own. */
  predicate LockMove(own: Option<nat>, own': Option<nat>, t: nat, had: bool, has: bool)
  {
    if had == has then own' == own else if has then own == None && own' == Some(t) else own' == None
  }

  /** What a move of thread `t` to `p'` has to respect for the invariant to survive it. */
  ghost predicate MoveOk(s: State, s': State, t: nat, p': Pc)
    requires t < |s.threads|
  {
    var m, m' := MeaningOf(s.threads[t]), MeaningOf(p');
    var o' := if m'.outer then m'.role else if m.outer then Passing else OuterRole(s);
    var coming' := if m'.inner then p'.RdSignalling? else !m.inner && SignalComing(s);
    var readers' := Readers(s) + (if m'.active then 1 else 0) - (if m.active then 1 else 0);
    && s'.threads == s.threads[t := p']
    && LockMove(s.outer, s'.outer, t, m.outer, m'.outer)
    && LockMove(s.inner, s'.inner, t, m.inner, m'.inner)
    && !p'.Leaked?
    && CountsOk(s', o', readers')
    && Covered(s', o', coming')
  }

  lemma MoveKeepsInv(s: State, s': State, t: nat, p': Pc)
    requires Inv(s) && t < |s.threads| && MoveOk(s, s', t, p')
    ensures Inv(s')
  {
    hide Covered, CountsOk, MeaningOf;
    SumUpdate(s.threads, t, p', Active);
    assert ThreadOk(s, t);
    forall u | 0 <= u < |s'.threads| ensures ThreadOk(s', u) {
      assert ThreadOk(s, u);
    }
    assert ThreadOk(s', t);
  }

  /** What the invariant says to a thread about to take a step. */
  ghost predicate Local(s: State, t: nat)
  {
    && t < |s.threads| < INT_MAX
    && ThreadOk(s, t)
    && (MeaningOf(s.threads[t]).outer ==> OuterRole(s) == MeaningOf(s.threads[t]).role)
    && (s.outer.None? ==> OuterRole(s) == Passing)
    && (MeaningOf(s.threads[t]).inner ==> SignalComing(s) == s.threads[t].RdSignalling?)
    && (s.inner.None? ==> !SignalComing(s))
    && CountsOk(s, OuterRole(s), Readers(s))
    && Covered(s, OuterRole(s), SignalComing(s))
    && (OuterRole(s).Sleeping? ==> SomeWriterWaits(s))
    && Active(s.threads[t]) <= Readers(s) <= |s.threads|
  }

  lemma InvLocal(s: State, t: nat)
    requires Inv(s) && t < |s.threads|
    ensures Local(s, t)
  {
    hide Covered, CountsOk;
    assert ThreadOk(s, t);
    SumBounded(s.threads, Active);
    SumAtLeast(s.threads, t, Active);
  }

  lemma ReaderEntryMoves(s: State, t: nat)
    requires Local(s, t) && StepReader(s, t).Some?
    requires var p := s.threads[t];
             p.RdAtOuter? || p.RdCounting? || p.RdFoldAtInner? || p.RdFolding? || p.RdReleasing?
    ensures var s' := StepReader(s, t).value; t < |s'.threads| && MoveOk(s, s', t, s'.threads[t])
  {
    hide OuterRole, SignalComing, SomeWriterWaits, Readers;
  }

  lemma ReaderExitMoves(s: State, t: nat)
    requires Local(s, t) && StepReader(s, t).Some?
    requires var p := s.threads[t]; p.RdUnlockAtInner? || p.RdCompleting? || p.RdSignalling? || p.RdLeaving?
    ensures var s' := StepReader(s, t).value; t < |s'.threads| && MoveOk(s, s', t, s'.threads[t])
  {
    hide OuterRole, SignalComing, SomeWriterWaits, Readers;
  }

  lemma WriterEntryMoves(s: State, t: nat)
    requires Local(s, t) && StepWriter(s, t).Some?
    requires var p := s.threads[t]; p.WrAtOuter? || p.WrAtInner? || p.WrGivingUp? || p.WrDeciding?
    ensures var s' := StepWriter(s, t).value; t < |s'.threads| && MoveOk(s, s', t, s'.threads[t])
  {
    hide OuterRole, SignalComing, SomeWriterWaits, Readers;
  }

  lemma WriterWaitMoves(s: State, t: nat)
    requires Local(s, t) && StepWriter(s, t).Some?
    requires var p := s.threads[t]; p.WrWaiting? || p.WrWoken? || p.WrTesting?
    ensures var s' := StepWriter(s, t).value; t < |s'.threads| && MoveOk(s, s', t, s'.threads[t])
  {
    hide OuterRole, SignalComing, SomeWriterWaits, Readers;
  }

  lemma WriterUndoMoves(s: State, t: nat)
    requires Local(s, t) && StepWriter(s, t).Some?
    requires var p := s.threads[t]; p.WrUndoing? || p.WrUndoInner? || p.WrUndoOuter?
    ensures var s' := StepWriter(s, t).value; t < |s'.threads| && MoveOk(s, s', t, s'.threads[t])
  {
    hide OuterRole, SignalComing, SomeWriterWaits, Readers;
  }

  lemma WriterExitMoves(s: State, t: nat)
    requires Local(s, t) && StepWriter(s, t).Some?
    requires var p := s.threads[t]; p.WrLeaving? || p.WrReleaseInner? || p.WrReleaseOuter?
    ensures var s' := StepWriter(s, t).value; t < |s'.threads| && MoveOk(s, s', t, s'.threads[t])
  {
    hide OuterRole, SignalComing, SomeWriterWaits, Readers;
  }

  lemma TryMoves(s: State, t: nat)
    requires Local(s, t) && StepOther(s, t).Some?
    requires var p := s.threads[t]; p.TryAtInner? || p.TryDeciding? || p.TryBusyInner? || p.TryBusyOuter?
    ensures var s' := StepOther(s, t).value; t < |s'.threads| && MoveOk(s, s', t, s'.threads[t])
  {
    hide OuterRole, SignalComing, SomeWriterWaits, Readers;
  }

  lemma DestroyMoves(s: State, t: nat)
    requires Local(s, t) && StepOther(s, t).Some?
    requires var p := s.threads[t]; p.DstAtOuter? || p.DstAtInner? || p.DstChecking? || p.DstBusyInner? || p.DstBusyOuter?
    ensures var s' := StepOther(s, t).value; t < |s'.threads| && MoveOk(s, s', t, s'.threads[t])
  {
    hide OuterRole, SignalComing, SomeWriterWaits, Readers;
  }

  lemma UnlockMoves(s: State, t: nat)
    requires Local(s, t) && StepUnlock(s, t).Some?
    requires var p := s.threads[t]; p.Reading? || p.Writing?
    ensures var s' := StepUnlock(s, t).value; t < |s'.threads| && MoveOk(s, s', t, s'.threads[t])
  {
    hide OuterRole, SignalComing, SomeWriterWaits, Readers;
  }

  lemma TimeOutMoves(s: State, t: nat)
    requires Local(s, t) && StepTimeOut(s, t).Some?
    requires var p := s.threads[t]; p.WrAtOuter? || p.WrAtInner? || p.WrWaiting?
    ensures var s' := StepTimeOut(s, t).value; t < |s'.threads| && MoveOk(s, s', t, s'.threads[t])
  {
    hide OuterRole, SignalComing, SomeWriterWaits, Readers;
  }

  lemma CallMoves(s: State, a: Action)
    requires Local(s, a.t) && Step(s, a).Some?
    requires a.ReadLock? || a.TryReadLock? || a.WriteLock? || a.TryWriteLock? || a.Destroy? || a.Spurious?
    ensures var s' := Step(s, a).value;
            a.t < |s'.threads| && (s' == s || MoveOk(s, s', a.t, s'.threads[a.t]))
  {
    hide OuterRole, SignalComing, SomeWriterWaits, Readers;
  }

  lemma GoMoves(s: State, t: nat)
    requires Local(s, t) && StepGo(s, t).Some?
    ensures var s' := StepGo(s, t).value; t < |s'.threads| && MoveOk(s, s', t, s'.threads[t])
  {
    hide MoveOk;
    var p := s.threads[t];
    if p.RdUnlockAtInner? || p.RdCompleting? || p.RdSignalling? || p.RdLeaving? {
      ReaderExitMoves(s, t);
    } else if ReaderPc(p) {
      ReaderEntryMoves(s, t);
    } else if p.WrAtOuter? || p.WrAtInner? || p.WrGivingUp? || p.WrDeciding? {
      WriterEntryMoves(s, t);
    } else if p.WrWaiting? || p.WrWoken? || p.WrTesting? {
      WriterWaitMoves(s, t);
    } else if p.WrUndoing? || p.WrUndoInner? || p.WrUndoOuter? {
      WriterUndoMoves(s, t);
    } else if WriterPc(p) {
      WriterExitMoves(s, t);
    } else if p.TryAtInner? || p.TryDeciding? || p.TryBusyInner? || p.TryBusyOuter? {
      TryMoves(s, t);
    } else {
      DestroyMoves(s, t);
    }
  }

  lemma StepKeepsInv(s: State, a: Action)
    requires Inv(s) && Step(s, a).Some?
    ensures Inv(Step(s, a).value)
  {
    hide Inv, Local, MoveOk, StepGo;
    assert a.t < |s.threads|;
    InvLocal(s, a.t);
    var s' := Step(s, a).value;
    match a {
      case Unlock(t) => UnlockMoves(s, t);
      case Go(t) => GoMoves(s, t);
      case TimeOut(t) => TimeOutMoves(s, t);
      case _ => CallMoves(s, a);
    }
    if s' != s {
      MoveKeepsInv(s, s', a.t, s'.threads[a.t]);
    }
  }

  lemma {:induction false} RunKeepsInv(s: State, run: seq<Action>)
    requires Inv(s) && Exec(s, run, Step).Some?
    ensures Inv(Exec(s, run, Step).value)
    decreases |run|
  {
    if run != [] {
      StepKeepsInv(s, run[0]);
      RunKeepsInv(Step(s, run[0]).value, run[1..]);
    }
  }

  ghost predicate Reachable(s: State, n: nat)
  {
    && n < INT_MAX
    && exists run: seq<Action> :: Exec(InitState(n), run, Step) == Some(s)
  }

  lemma ReachableInv(s: State, n: nat)
    requires Reachable(s, n)
    ensures Inv(s)
  {
    var run: seq<Action> :| Exec(InitState(n), run, Step) == Some(s);
    InitInv(n);
    RunKeepsInv(InitState(n), run);
  }
}
