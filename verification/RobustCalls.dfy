/** What a call on a robust mutex comes to between its start and its return, whatever other threads do
    meanwhile, their deaths included. */
module RobustCalls {
  import opened Runs
  import opened RobustMutex
  import opened RobustTheorems

  /** The thread is in a call. */
  function InCall(t: nat): State -> bool
  {
    (s: State) => t < |s.threads| && s.threads[t].pc.At?
  }

  predicate IsCall(a: Action) { a.Lock? || a.TryLock? || a.Unlock? || a.MakeConsistent? }

  /** A thread that a set of the event has woken, just now, and one that then, with its next step, met the
      mutex unrecoverable, and owes the event to the next sleeper. */
  datatype Wakeup = NotWoken | JustWoken | OwesEvent

  /** What an observer of mutex `m` notes of the steps of thread `t`: whether one met the mutex locked, one
      met it unrecoverable, one met it neither so nor left by a dead owner; how often they inherited it; whether
      one made it consistent, one met it not inconsistent, and one left it not inconsistent; whether one freed
      it, and one freed it marked; and what became of its last wakeup. */
  datatype Notes = Notes(locked: bool, lost: bool, owned: bool, inherited: int, restored: bool, settled: bool, left: bool,
                         freed: bool, marked: bool, wakeup: Wakeup)

  const BLANK := Notes(false, false, false, 0, false, false, false, false, false, NotWoken)

  function Woken(w: Wakeup, mx: Mutex, mx': Mutex): Wakeup
  {
    if mx.event && !mx'.event then JustWoken
    else if w.OwesEvent? || (w.JustWoken? && mx.state == NotRecoverable) then OwesEvent
    else NotWoken
  }

  /** What is noted of a step that turns the mutex from `mx` into `mx'`. */
  function Noted(h: Notes, mx: Mutex, mx': Mutex): Notes
  {
    Notes(h.locked || mx.lockIdx != 0,
          h.lost || mx.state == NotRecoverable,
          h.owned || (mx.state != OwnerDied && mx.state != NotRecoverable),
          h.inherited + mx'.inherited - mx.inherited,
          h.restored || (mx.state == Inconsistent && mx'.state == Consistent),
          h.settled || mx.state != Inconsistent,
          h.left || mx'.state != Inconsistent,
          h.freed || (mx.lockIdx != 0 && mx'.lockIdx == 0),
          h.marked || (mx.lockIdx < 0 && mx'.lockIdx == 0),
          Woken(h.wakeup, mx, mx'))
  }

  function Noting(t: nat, m: nat): (Notes, State, Action, State) -> Notes
  {
    (h: Notes, s: State, a: Action, s': State) =>
      if a != Go(t) || m >= |s.mutexes| || m >= |s'.mutexes| then h else Noted(h, s.mutexes[m], s'.mutexes[m])
  }

  /** What a call of lock or trylock may have come to: the list was `list` at the call and is `list'`, the
      count `count`, which means something to a caller that had the mutex, and `count'`. */
  predicate LockOutcome(mx': Mutex, m: nat, try: bool, list: seq<nat>, count: int, h: Notes, list': seq<nat>, result: Result)
  {
    && h.inherited == (if result == OwnerDead then 1 else 0)
    && (h.wakeup.OwesEvent? ==> result == Unrecoverable)
    && match result
       case Success =>
         if m in list then mx'.kind == Recursive && list' == list && mx'.count == count + 1
         else list' == [m] + list && (mx'.kind != Normal ==> mx'.count == 1)
       case OwnerDead => m !in list && list' == [m] + list && (mx'.kind != Normal ==> mx'.count == 1)
       case Busy => try && list' == list && h.locked && h.owned && (m in list ==> mx'.kind != Recursive)
       case Unrecoverable => list' == list && h.lost && (h.wakeup.OwesEvent? ==> mx'.event)
       case Deadlock => !try && list' == list && m in list && mx'.kind == ErrorCheck
       case _ => false
  }

  /** Only the thread that has the mutex may unlock it, which never leaves it inconsistent, and only the
      unlock that matches the first lock frees it, and sets the event if it was marked. */
  predicate UnlockOutcome(mx': Mutex, m: nat, list: seq<nat>, count: int, h: Notes, list': seq<nat>, result: Result)
  {
    if m !in list then result == NotOwner && list' == list && !h.freed
    else
      && result == Success && h.left
      && if mx'.kind == Recursive && count != 1 then list' == list && mx'.count == count - 1 && !h.freed
         else list' == Removed(list, m) && h.freed && (h.marked ==> mx'.event)
  }

  predicate RestoreOutcome(list: seq<nat>, h: Notes, list': seq<nat>, result: Result)
  {
    && list' == list
    && if h.restored then result == Success else result == Invalid && h.settled
  }

  predicate Outcome(mx': Mutex, call: Action, list: seq<nat>, count: int, h: Notes, list': seq<nat>, result: Result)
  {
    match call
    case Lock(_, m) => LockOutcome(mx', m, false, list, count, h, list', result)
    case TryLock(_, m) => LockOutcome(mx', m, true, list, count, h, list', result)
    case Unlock(_, m) => UnlockOutcome(mx', m, list, count, h, list', result)
    case MakeConsistent(_, m) => RestoreOutcome(list, h, list', result)
    case _ => false
  }

  /** Where a thread can be in a call. */
  predicate Midway(mx: Mutex, p: Point, call: Action, list: seq<nat>, count: int, h: Notes, list': seq<nat>)
  {
    match call
    case Lock(_, m) =>
      && (m in list ==> mx.count == count) && list' == list
      && h.inherited == (if p == Adding(true) then 1 else 0)
      && (LockPoint(p) || (WaitPoint(p) && (m in list ==> mx.kind == Normal)) || (p.Adding? && m !in list))
      && (p.Waiting? || p.Asleep? ==> h.owned)
      && (p.Rechecking? <==> h.wakeup.JustWoken?) && (p.PassingOn? <==> h.wakeup.OwesEvent?)
      && (p.Swapping? ==> mx.kind == Normal) && (p.Comparing? || p.OwnerTesting? ==> mx.kind != Normal)
      && (p.PassingOn? ==> h.lost)
    case TryLock(_, m) =>
      && (m in list ==> mx.count == count) && list' == list
      && h.inherited == (if p == Adding(true) then 1 else 0)
      && (TryPoint(p) || (p.Adding? && m !in list)) && h.wakeup.NotWoken?
      && (p.TryOwnerTesting? || p.TryInheriting? ==> h.locked)
      && (p.TryInheriting? && m in list ==> mx.kind != Recursive)
    case Unlock(_, m) =>
      if p.UnlockTesting? then list' == list && (m in list ==> mx.count == count) && !h.freed && !h.marked
      else
        && m in list
        && (p.UnlockMarking? || h.left)
        && if p.UnlockMarking? || p.UnlockCounting? then list' == list && mx.count == count && !h.freed && !h.marked
           else
             && list' == Removed(list, m) && (mx.kind != Recursive || count == 1)
             && if p.UnlockSwapping? then !h.freed && !h.marked else p.UnlockSignalling? && h.freed
    case MakeConsistent(_, _) => p.Restoring? && list' == list && !h.restored
    case _ => false
  }

  /** In the call, or back from it as it must be. */
  predicate Placed(mx: Mutex, th: Thread, h: Notes, call: Action, list: seq<nat>, count: int)
    requires IsCall(call)
  {
    if th.pc.At? then th.pc.m == call.m && Midway(mx, th.pc.point, call, list, count, h, th.list)
    else th.pc.Idle? && Outcome(mx, call, list, count, h, th.list, th.last)
  }

  predicate Follows(s: State, h: Notes, call: Action, list: seq<nat>, count: int)
    requires IsCall(call)
  {
    && call.t < |s.threads| && call.m < |s.mutexes|
    && Placed(s.mutexes[call.m], s.threads[call.t], h, call, list, count)
  }

  lemma BesideOwner(s: State, a: Action, t: nat, m: nat)
    requires Inv(s) && Step(s, a).Some? && t < |s.threads| && a.t != t && m < |s.mutexes|
    ensures var s' := Step(s, a).value;
            && |s'.threads| == |s.threads| && |s'.mutexes| == |s.mutexes|
            && s'.threads[t] == s.threads[t] && s'.mutexes[m].kind == s.mutexes[m].kind
            && (m in s.threads[t].list ==> s'.mutexes[m].count == s.mutexes[m].count)
  {
    if m in s.threads[t].list && a.t < |s.threads| {
      HasIsStake(s.threads[t], m);
      StakeOfOthers(s, t, a.t, m);
      HasIsStake(s.threads[a.t], m);
      InvLocal(s, t, m);
      InvLocal(s, a.t, m);
    }
    assert a.t < |s.threads| ==> ThreadOk(s, a.t);
    hide Inv, Removed;
  }

  // ----- one step of the calling thread, with what the invariant says to it

  lemma LockTries(mx: Mutex, th: Thread, h: Notes, call: Action, list: seq<nat>, count: int)
    requires call.Lock? && th.pc.At? && th.pc.m == call.m && Local(mx, th, call.t, call.m)
    requires Midway(mx, th.pc.point, call, list, count, h, th.list) && LockStep(mx, th, call.t).Some? && !th.pc.point.OwnerTesting?
    ensures var (mx', th') := LockStep(mx, th, call.t).value; Placed(mx', th', Noted(h, mx, mx'), call, list, count)
  {
    HasIsStake(th, call.m);
    hide OnList, Removed;
  }

  lemma LockTestsOwner(mx: Mutex, th: Thread, h: Notes, call: Action, list: seq<nat>, count: int)
    requires call.Lock? && th.pc.At? && th.pc.m == call.m && Local(mx, th, call.t, call.m)
    requires Midway(mx, th.pc.point, call, list, count, h, th.list) && LockStep(mx, th, call.t).Some? && th.pc.point.OwnerTesting?
    ensures var (mx', th') := LockStep(mx, th, call.t).value; Placed(mx', th', Noted(h, mx, mx'), call, list, count)
  {
    HasIsStake(th, call.m);
    hide OnList, Removed;
  }

  lemma WaitFollows(mx: Mutex, th: Thread, h: Notes, call: Action, list: seq<nat>, count: int)
    requires call.Lock? && th.pc.At? && th.pc.m == call.m && Local(mx, th, call.t, call.m)
    requires Midway(mx, th.pc.point, call, list, count, h, th.list) && WaitStep(mx, th).Some?
    ensures var (mx', th') := WaitStep(mx, th).value; Placed(mx', th', Noted(h, mx, mx'), call, list, count)
  {
    HasIsStake(th, call.m);
    hide OnList, Removed;
  }

  lemma TryLooks(mx: Mutex, th: Thread, h: Notes, call: Action, list: seq<nat>, count: int)
    requires call.TryLock? && th.pc.At? && th.pc.m == call.m && Local(mx, th, call.t, call.m)
    requires Midway(mx, th.pc.point, call, list, count, h, th.list) && TryStep(mx, th, call.t).Some?
    requires th.pc.point.TryChecking? || th.pc.point.TryComparing?
    ensures var (mx', th') := TryStep(mx, th, call.t).value; Placed(mx', th', Noted(h, mx, mx'), call, list, count)
  {
    HasIsStake(th, call.m);
    hide OnList, Removed;
  }

  lemma TryTests(mx: Mutex, th: Thread, h: Notes, call: Action, list: seq<nat>, count: int)
    requires call.TryLock? && th.pc.At? && th.pc.m == call.m && Local(mx, th, call.t, call.m)
    requires Midway(mx, th.pc.point, call, list, count, h, th.list) && TryStep(mx, th, call.t).Some?
    requires th.pc.point.TryOwnerTesting? || th.pc.point.TryInheriting?
    ensures var (mx', th') := TryStep(mx, th, call.t).value; Placed(mx', th', Noted(h, mx, mx'), call, list, count)
  {
    HasIsStake(th, call.m);
    hide OnList, Removed;
  }

  lemma AddFollows(mx: Mutex, th: Thread, h: Notes, call: Action, list: seq<nat>, count: int)
    requires (call.Lock? || call.TryLock?) && th.pc.At? && th.pc.m == call.m && Local(mx, th, call.t, call.m) && th.pc.point.Adding?
    requires Midway(mx, th.pc.point, call, list, count, h, th.list)
    ensures var (mx', th') := AddStep(mx, th, call.t); Placed(mx', th', Noted(h, mx, mx'), call, list, count)
  {
    hide OnList, Removed;
  }

  lemma UnlockFollows(mx: Mutex, th: Thread, h: Notes, call: Action, list: seq<nat>, count: int)
    requires (call.Unlock? || call.MakeConsistent?) && th.pc.At? && th.pc.m == call.m && Local(mx, th, call.t, call.m)
    requires Midway(mx, th.pc.point, call, list, count, h, th.list) && UnlockStep(mx, th, call.t).Some?
    requires !th.pc.point.ExitMarking? && !th.pc.point.ExitSignalling?
    ensures var (mx', th') := UnlockStep(mx, th, call.t).value; Placed(mx', th', Noted(h, mx, mx'), call, list, count)
  {
    hide OnList, Removed;
  }

  lemma UpdateFollows(s: State, mx': Mutex, th': Thread, h: Notes, call: Action, list: seq<nat>, count: int)
    requires IsCall(call) && call.t < |s.threads| && call.m < |s.mutexes|
    requires s.threads[call.t].pc.At? && s.threads[call.t].pc.m == call.m
    requires PointStep(s.mutexes[call.m], s.threads[call.t], call.t) == Some((mx', th'))
    ensures Step(s, Go(call.t)) == Some(Update(s, call.t, call.m, mx', th'))
    ensures Placed(mx', th', Noted(h, s.mutexes[call.m], mx'), call, list, count) ==>
              Follows(Update(s, call.t, call.m, mx', th'),
                      Noting(call.t, call.m)(h, s, Go(call.t), Update(s, call.t, call.m, mx', th')), call, list, count)
  {
    hide PointStep, Midway, Outcome;
  }

  lemma OwnStepFollows(s: State, h: Notes, call: Action, list: seq<nat>, count: int)
    requires Inv(s) && IsCall(call) && Follows(s, h, call, list, count) && Step(s, Go(call.t)).Some?
    requires s.threads[call.t].pc.At?
    ensures Follows(Step(s, Go(call.t)).value, Noting(call.t, call.m)(h, s, Go(call.t), Step(s, Go(call.t)).value), call, list, count)
  {
    var t, m := call.t, call.m;
    var mx, th := s.mutexes[m], s.threads[t];
    InvLocal(s, t, m);
    PointTellsCall(mx, th.pc.point, call, list, count, h, th.list);
    hide Inv, Local, Midway, Outcome, LockStep, WaitStep, TryStep, AddStep, UnlockStep, LockPoint, WaitPoint, TryPoint;
    assert PointStep(mx, th, t).Some?;
    var (mx', th') := PointStep(mx, th, t).value;
    UpdateFollows(s, mx', th', h, call, list, count);
    hide Placed, Follows, Update;
    if LockPoint(th.pc.point) {
      if th.pc.point.OwnerTesting? {
        LockTestsOwner(mx, th, h, call, list, count);
      } else {
        LockTries(mx, th, h, call, list, count);
      }
    } else if WaitPoint(th.pc.point) {
      WaitFollows(mx, th, h, call, list, count);
    } else if th.pc.point.Adding? {
      AddFollows(mx, th, h, call, list, count);
    } else if TryPoint(th.pc.point) {
      if th.pc.point.TryChecking? || th.pc.point.TryComparing? {
        TryLooks(mx, th, h, call, list, count);
      } else {
        TryTests(mx, th, h, call, list, count);
      }
    } else {
      UnlockFollows(mx, th, h, call, list, count);
    }
  }

  lemma PointTellsCall(mx: Mutex, p: Point, call: Action, list: seq<nat>, count: int, h: Notes, list': seq<nat>)
    requires IsCall(call) && Midway(mx, p, call, list, count, h, list')
    ensures LockPoint(p) || WaitPoint(p) ==> call.Lock?
    ensures TryPoint(p) ==> call.TryLock?
    ensures p.Adding? ==> call.Lock? || call.TryLock?
    ensures !LockPoint(p) && !WaitPoint(p) && !TryPoint(p) && !p.Adding? ==>
              (call.Unlock? || call.MakeConsistent?) && !p.ExitMarking? && !p.ExitSignalling?
  {
  }

  lemma StepFollows(s: State, a: Action, h: Notes, call: Action, list: seq<nat>, count: int)
    requires Inv(s) && IsCall(call) && Follows(s, h, call, list, count) && Step(s, a).Some?
    requires s.threads[call.t].pc.At?
    ensures Follows(Step(s, a).value, Noting(call.t, call.m)(h, s, a, Step(s, a).value), call, list, count)
  {
    if a == Go(call.t) {
      OwnStepFollows(s, h, call, list, count);
    } else {
      assert a.t != call.t;
      BesideOwner(s, a, call.t, call.m);
      InvLocal(s, call.t, call.m);
      hide Step, Inv, Outcome;
    }
  }

  lemma CallFollows(s: State, kinds: seq<Kind>, n: nat, call: Action, run: seq<Action>)
    requires Reachable(s, kinds, n) && IsCall(call) && Step(s, call).Some?
    requires While(Step(s, call).value, run, Step, InCall(call.t))
    ensures var t, m, s1 := call.t, call.m, Step(s, call).value;
            var r, h := Exec(s1, run, Step), Fold(s1, run, Step, Noting(t, m), BLANK);
            && r.Some? && t < |s.threads| == |r.value.threads| && m < |s.mutexes| == |r.value.mutexes|
            && Follows(r.value, h, call, s.threads[t].list, s.mutexes[m].count)
  {
    ReachableInv(s, kinds, n);
    var s1, t, m := Step(s, call).value, call.t, call.m;
    var list, count := s.threads[t].list, s.mutexes[m].count;
    StepKeepsInv(s, call);
    var inv := (x: State, h: Notes) =>
      Inv(x) && |x.threads| == |s.threads| && |x.mutexes| == |s.mutexes| && Follows(x, h, call, list, count);
    forall x, h, a | InCall(t)(x) && inv(x, h) && Step(x, a).Some?
      ensures inv(Step(x, a).value, Noting(t, m)(h, x, a, Step(x, a).value))
    {
      StepKeepsInv(x, a);
      StepFollows(x, a, h, call, list, count);
      ListGrowsByAdding(x, a, m);
    }
    WhileKeeps(s1, run, Step, InCall(t), Noting(t, m), BLANK, inv);
  }

  /** Over any run from a call of lock, trylock, unlock or consistent to its return: success and EOWNERDEAD
      give the mutex to the caller, which finds it at the head of its list, or locked once more if it is
      recursive and was its already; every other answer leaves the caller's list as it was. EOWNERDEAD is
      told exactly to the caller that inherited. trylock answers EBUSY only if it met the mutex locked and met it
      neither unrecoverable nor left by a dead owner, and never to the holder of a recursive one;
      ENOTRECOVERABLE is told only by a mutex met in that state, and a thread woken to find it so sets the
      event for the next one;
      EDEADLK only to the holder of an errorcheck mutex. unlock answers EPERM if and only if the caller does
      not have the mutex, and frees it with the call that matches the first lock. consistent succeeds if and
      only if the call itself has ended the inconsistent state. */
  lemma CallOutcome(s: State, kinds: seq<Kind>, n: nat, call: Action, run: seq<Action>)
    requires Reachable(s, kinds, n) && IsCall(call) && Step(s, call).Some?
    requires While(Step(s, call).value, run, Step, InCall(call.t))
    ensures var t, m, s1 := call.t, call.m, Step(s, call).value;
            var r, h := Exec(s1, run, Step), Fold(s1, run, Step, Noting(t, m), BLANK);
            && r.Some? && t < |s.threads| == |r.value.threads| && m < |s.mutexes| == |r.value.mutexes|
            && (r.value.threads[t].pc.At? || r.value.threads[t].pc.Idle?)
            && (r.value.threads[t].pc.Idle? ==>
                  Outcome(r.value.mutexes[m], call, s.threads[t].list, s.mutexes[m].count, h,
                          r.value.threads[t].list, r.value.threads[t].last))
  {
    CallFollows(s, kinds, n, call, run);
  }

  /** The steps that a thread still takes in a call that does not sleep. */
  function CallSteps(p: Point): nat
  {
    match p
    case TryChecking | UnlockTesting => 5
    case TryComparing | UnlockMarking => 4
    case TryOwnerTesting | UnlockCounting => 3
    case TryInheriting | UnlockSwapping => 2
    case Adding(_) | Restoring | UnlockSignalling => 1
    case _ => 0
  }

  lemma PlacedMoves(mx: Mutex, th: Thread, h: Notes, call: Action, list: seq<nat>, count: int)
    requires IsCall(call) && th.pc.At? && Placed(mx, th, h, call, list, count)
    ensures PointStep(mx, th, call.t).Some?
            || (call.Lock? && th.pc.point.Asleep? && !mx.event && h.owned && (call.m in list ==> mx.kind == Normal))
    ensures !call.Lock? ==>
              var pc' := PointStep(mx, th, call.t).value.1.pc; pc'.At? ==> CallSteps(pc'.point) < CallSteps(th.pc.point)
  {
    hide Removed;
  }

  /** Only a lock waits, only for the event, and only if it met the mutex neither unrecoverable nor left by a
      dead owner, and does not have it, or it is of the normal kind: until the call returns, its thread has a step to take
      otherwise; and trylock, unlock and consistent come nearer to their end with each. */
  lemma OnlyLockWaits(s: State, kinds: seq<Kind>, n: nat, call: Action, run: seq<Action>)
    requires Reachable(s, kinds, n) && IsCall(call) && Step(s, call).Some?
    requires While(Step(s, call).value, run, Step, InCall(call.t))
    ensures var r := Exec(Step(s, call).value, run, Step);
            && r.Some? && call.t < |r.value.threads| && call.m < |r.value.mutexes|
            && var p, h := r.value.threads[call.t].pc, Fold(Step(s, call).value, run, Step, Noting(call.t, call.m), BLANK);
            && (p.At? ==>
                  || Step(r.value, Go(call.t)).Some?
                  || (call.Lock? && p.point.Asleep? && !r.value.mutexes[call.m].event && h.owned
                      && (call.m in s.threads[call.t].list ==> r.value.mutexes[call.m].kind == Normal)))
            && (p.At? && !call.Lock? ==>
                  var p' := Step(r.value, Go(call.t)).value.threads[call.t].pc;
                  p'.At? ==> CallSteps(p'.point) < CallSteps(p.point))
  {
    CallFollows(s, kinds, n, call, run);
    var s' := Exec(Step(s, call).value, run, Step).value;
    if s'.threads[call.t].pc.At? {
      PlacedMoves(s'.mutexes[call.m], s'.threads[call.t],
                  Fold(Step(s, call).value, run, Step, Noting(call.t, call.m), BLANK), call, s.threads[call.t].list,
                  s.mutexes[call.m].count);
      hide Placed, PointStep;
    }
  }

  /** ENOTRECOVERABLE does not mean that the caller does not have the mutex: a thread that locked it late,
      after it was given up, is told so when it locks it again. */
  lemma HolderCanBeToldUnrecoverable()
    ensures exists s, s' :: Reachable(s, [Normal], 3) && Leads(s, s') && |s.threads| == |s'.threads| == 3
                            && s.threads[2] == Thread(Idle, [0], Success)
                            && s'.threads[2] == Thread(Idle, [0], Unrecoverable)
  {
    var s0 := InitState([Normal], 3);
    var s := GivenUp(3);
    s := LockLate(s0, s, 2, 0);
    assert Reachable(s, [Normal], 3);
    assert Exec(s, [], Step) == Some(s);
    assert Leads(s, s);
    hide Leads, Reachable;
    var s' := DoStep(s, s, Lock(2, 0));
    s' := DoStep(s, s', Go(2));
  }

  /** A thread outside any call can make each of them, on any mutex, or exit. */
  lemma CallsCanBegin(s: State, kinds: seq<Kind>, n: nat, t: nat, m: nat)
    requires Reachable(s, kinds, n) && t < |s.threads| && m < |s.mutexes| && s.threads[t].pc.Idle?
    ensures Step(s, Lock(t, m)).Some? && Step(s, TryLock(t, m)).Some? && Step(s, Unlock(t, m)).Some?
    ensures Step(s, MakeConsistent(t, m)).Some?
    ensures Step(s, Exit(t)).Some? && Leaving(Step(s, Exit(t)).value.threads[t].pc) && !Step(s, Exit(t)).value.threads[t].pc.Dead?
  {
  }

  // ----- the event

  /** What an observer of the event of `m` notes: how often it came to be set, and how many sleepers it let
      go on. */
  datatype Events = Events(sets: nat, wakes: nat)

  function Observed(m: nat, e: Events, s: State, a: Action, s': State): Events
  {
    if m >= |s.mutexes| || m >= |s'.mutexes| || a.t >= |s.threads| then e
    else Events(e.sets + (if !s.mutexes[m].event && s'.mutexes[m].event then 1 else 0),
                e.wakes + (if a.Go? && s.threads[a.t].pc == At(m, Asleep) then 1 else 0))
  }

  function Observing(m: nat): (Events, State, Action, State) -> Events
  {
    (e: Events, s: State, a: Action, s': State) => Observed(m, e, s, a, s')
  }

  lemma StepObserved(s: State, a: Action, m: nat, e: Events)
    requires Step(s, a).Some? && m < |s.mutexes|
    ensures var s' := Step(s, a).value; var e' := Observed(m, e, s, a, s');
            && |s'.mutexes| == |s.mutexes|
            && e'.sets - e'.wakes - Set(s'.mutexes[m]) == e.sets - e.wakes - Set(s.mutexes[m])
  {
    hide Removed;
  }

  function Set(mx: Mutex): int { if mx.event then 1 else 0 }

  /** Over any run from the start: each setting of the event lets one sleeper go on, and no more, or is
      still there. */
  lemma EachSetWakesOne(kinds: seq<Kind>, n: nat, run: seq<Action>, m: nat)
    requires m < |kinds| && Exec(InitState(kinds, n), run, Step).Some?
    ensures var s := Exec(InitState(kinds, n), run, Step).value;
            var e := Fold(InitState(kinds, n), run, Step, Observing(m), Events(0, 0));
            && |s.mutexes| == |kinds|
            && e.sets == e.wakes + Set(s.mutexes[m])
  {
    var s0 := InitState(kinds, n);
    ExecIsWhile(s0, run, Step);
    var inv := (x: State, e: Events) => |x.mutexes| == |kinds| && e.sets == e.wakes + Set(x.mutexes[m]);
    forall x, e, a | inv(x, e) && Step(x, a).Some?
      ensures inv(Step(x, a).value, Observed(m, e, x, a, Step(x, a).value))
    {
      StepObserved(x, a, m, e);
    }
    assert Set(s0.mutexes[m]) == 0;
    assert inv(s0, Events(0, 0));
    WhileKeeps(s0, run, Step, _ => true, Observing(m), Events(0, 0), inv);
  }
}
