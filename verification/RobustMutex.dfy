/** Robust mutexes: when a thread dies, the mutexes on its list are marked, and the next thread to lock
    one of them inherits it. Any number of mutexes of all three kinds, any number of threads. */
module RobustMutex {
  import opened Counting
  import opened Runs

  datatype Kind = Normal | Recursive | ErrorCheck

  /** OwnerDied is the value -1 that a dying owner leaves behind. */
  datatype Robustness = Consistent | Inconsistent | NotRecoverable | OwnerDied

  /** `deaths` counts the times a dying owner marked the mutex, `inherited` the times a thread was told
      so; neither is part of the struct. */
  datatype Mutex = Mutex(kind: Kind, lockIdx: int, state: Robustness, owner: Option<nat>, count: int, event: bool,
                         deaths: nat, inherited: nat)

  datatype Result = Success | OwnerDead | Unrecoverable | Busy | Deadlock | NotOwner | Invalid

  /** Where a thread is in its work on a mutex. */
  datatype Point =
      // pthread_mutex_lock
    | Checking          // about to read the state
    | Swapping          // normal kind: about to exchange in 1
    | Comparing         // other kinds: about to try 0 to 1
    | OwnerTesting
    | Inheriting        // about to try OwnerDied to Inconsistent
    | Waiting           // about to exchange in -1
    | Asleep
    | Rechecking        // woken, about to read the state
    | PassingOn         // found it unrecoverable, about to wake another
      // pthread_mutex_trylock
    | TryChecking
    | TryComparing
    | TryOwnerTesting
    | TryInheriting
      // both: the lock is this thread's
    | Adding(inherits: bool)
      // pthread_mutex_consistent
    | Restoring
      // pthread_mutex_unlock
    | UnlockTesting
    | UnlockMarking     // about to try Inconsistent to NotRecoverable
    | UnlockCounting    // about to count down, and remove the node from its list
    | UnlockSwapping    // about to exchange in 0
    | UnlockSignalling
      // thread exit
    | ExitMarking       // has removed the node, about to mark the state
    | ExitSignalling

  datatype Pc =
    | Idle
    | At(m: nat, point: Point)
    | Exiting           // at the head of the loop that drains the list
    | Dead

  /** `list` names the mutexes on the thread's list of robust mutexes, in its order. */
  datatype Thread = Thread(pc: Pc, list: seq<nat>, last: Result)
  {
    function Return(r: Result): Thread { this.(pc := Idle, last := r) }
    function Goto(p: Point): Thread
      requires pc.At?
    {
      this.(pc := At(pc.m, p))
    }
  }

  datatype State = State(mutexes: seq<Mutex>, threads: seq<Thread>)

  datatype Action =
    | Lock(t: nat, m: nat)
    | TryLock(t: nat, m: nat)
    | Unlock(t: nat, m: nat)
    | MakeConsistent(t: nat, m: nat)
    | Exit(t: nat)
    | Go(t: nat)

  function InitState(kinds: seq<Kind>, n: nat): State
  {
    State(seq(|kinds|, i requires 0 <= i < |kinds| => Mutex(kinds[i], 0, Consistent, None, 0, false, 0, 0)),
          seq(n, _ => Thread(Idle, [], Success)))
  }

  /** The list without the node of `m`. */
  function Removed(list: seq<nat>, m: nat): (r: seq<nat>)
    ensures m in list ==> multiset(r) == multiset(list) - multiset{m}
    ensures m !in list ==> r == list
  {
    if list == [] then []
    else if list[0] == m then assert list == [m] + list[1..]; list[1..]
    else assert list == [list[0]] + list[1..]; [list[0]] + Removed(list[1..], m)
  }

  // ----- one step of thread `t` at mutex `mx`

  function LockStep(mx: Mutex, th: Thread, t: nat): Option<(Mutex, Thread)>
    requires th.pc.At?
  {
    match th.pc.point
    case Checking =>
      if mx.state == NotRecoverable then Some((mx, th.Return(Unrecoverable)))
      else Some((mx, th.Goto(if mx.kind == Normal then Swapping else Comparing)))
    case Swapping => Some((mx.(lockIdx := 1), th.Goto(if mx.lockIdx == 0 then Adding(false) else Inheriting)))
    case Comparing =>
      if mx.lockIdx == 0 then Some((mx.(lockIdx := 1), th.Goto(Adding(false))))
      else Some((mx, th.Goto(OwnerTesting)))
    case OwnerTesting =>
      if mx.owner != Some(t) then Some((mx, th.Goto(Inheriting)))
      else if mx.kind == Recursive then Some((mx.(count := mx.count + 1), th.Return(Success)))
      else Some((mx, th.Return(Deadlock)))
    case _ => None
  }

  function WaitStep(mx: Mutex, th: Thread): Option<(Mutex, Thread)>
    requires th.pc.At?
  {
    match th.pc.point
    case Inheriting =>
      if mx.state == OwnerDied then
        Some((mx.(state := Inconsistent, inherited := mx.inherited + 1), th.Goto(Adding(true))))
      else if mx.state == NotRecoverable then Some((mx, th.Return(Unrecoverable)))
      else Some((mx, th.Goto(Waiting)))
    case Waiting => Some((mx.(lockIdx := -1), th.Goto(if mx.lockIdx == 0 then Adding(false) else Asleep)))
    case Asleep => if mx.event then Some((mx.(event := false), th.Goto(Rechecking))) else None
    case Rechecking =>
      Some((mx, th.Goto(if mx.state == NotRecoverable then PassingOn else Inheriting)))
    case PassingOn => Some((mx.(event := true), th.Return(Unrecoverable)))
    case _ => None
  }

  function TryStep(mx: Mutex, th: Thread, t: nat): Option<(Mutex, Thread)>
    requires th.pc.At?
  {
    match th.pc.point
    case TryChecking =>
      if mx.state == NotRecoverable then Some((mx, th.Return(Unrecoverable))) else Some((mx, th.Goto(TryComparing)))
    case TryComparing =>
      if mx.lockIdx == 0 then Some((mx.(lockIdx := 1), th.Goto(Adding(false))))
      else Some((mx, th.Goto(TryOwnerTesting)))
    case TryOwnerTesting =>
      if mx.kind == Recursive && mx.owner == Some(t) then Some((mx.(count := mx.count + 1), th.Return(Success)))
      else Some((mx, th.Goto(TryInheriting)))
    case TryInheriting =>
      if mx.state == OwnerDied then
        Some((mx.(state := Inconsistent, inherited := mx.inherited + 1), th.Goto(Adding(true))))
      else Some((mx, th.Return(if mx.state == NotRecoverable then Unrecoverable else Busy)))
    case _ => None
  }

  /** The lock is this thread's: put the node at the head of its list. The count of a mutex of the normal
      kind is never read. */
  function AddStep(mx: Mutex, th: Thread, t: nat): (Mutex, Thread)
    requires th.pc.At? && th.pc.point.Adding?
  {
    (mx.(owner := Some(t), count := if mx.kind == Normal then mx.count else 1),
     th.(list := [th.pc.m] + th.list).Return(if th.pc.point.inherits then OwnerDead else Success))
  }

  function UnlockStep(mx: Mutex, th: Thread, t: nat): Option<(Mutex, Thread)>
    requires th.pc.At?
  {
    match th.pc.point
    case Restoring =>
      if mx.state == Inconsistent then Some((mx.(state := Consistent), th.Return(Success)))
      else Some((mx, th.Return(Invalid)))
    case UnlockTesting =>
      if mx.owner == Some(t) then Some((mx, th.Goto(UnlockMarking))) else Some((mx, th.Return(NotOwner)))
    case UnlockMarking =>
      Some((if mx.state == Inconsistent then mx.(state := NotRecoverable) else mx, th.Goto(UnlockCounting)))
    case UnlockCounting =>
      var left := if mx.kind == Recursive then mx.count - 1 else 0;
      if left != 0 then Some((mx.(count := left), th.Return(Success)))
      else Some((mx.(count := if mx.kind == Recursive then 0 else mx.count, owner := None),
                 th.(list := Removed(th.list, th.pc.m)).Goto(UnlockSwapping)))
    case UnlockSwapping =>
      Some((mx.(lockIdx := 0), if mx.lockIdx < 0 then th.Goto(UnlockSignalling) else th.Return(Success)))
    case UnlockSignalling => Some((mx.(event := true), th.Return(Success)))
    case ExitMarking => Some((mx.(state := OwnerDied, deaths := mx.deaths + 1), th.Goto(ExitSignalling)))
    case ExitSignalling => Some((mx.(event := true), th.(pc := Exiting)))
    case _ => None
  }

  predicate LockPoint(p: Point)
  {
    p.Checking? || p.Swapping? || p.Comparing? || p.OwnerTesting?
  }

  predicate WaitPoint(p: Point)
  {
    p.Inheriting? || p.Waiting? || p.Asleep? || p.Rechecking? || p.PassingOn?
  }

  predicate TryPoint(p: Point)
  {
    p.TryChecking? || p.TryComparing? || p.TryOwnerTesting? || p.TryInheriting?
  }

  function PointStep(mx: Mutex, th: Thread, t: nat): Option<(Mutex, Thread)>
    requires th.pc.At?
  {
    var p := th.pc.point;
    if LockPoint(p) then LockStep(mx, th, t)
    else if WaitPoint(p) then WaitStep(mx, th)
    else if TryPoint(p) then TryStep(mx, th, t)
    else if p.Adding? then Some(AddStep(mx, th, t))
    else UnlockStep(mx, th, t)
  }

  function Update(s: State, t: nat, m: nat, mx: Mutex, th: Thread): State
    requires t < |s.threads| && m < |s.mutexes|
  {
    State(s.mutexes[m := mx], s.threads[t := th])
  }

  function StepAt(s: State, t: nat, m: nat): Option<State>
    requires t < |s.threads| && s.threads[t].pc.At? && m < |s.mutexes|
  {
    match PointStep(s.mutexes[m], s.threads[t], t)
    case None => None
    case Some((mx', th')) => Some(Update(s, t, m, mx', th'))
  }

  /** The loop that drains the list: take the first node off it. */
  function StepExiting(s: State, t: nat): Option<State>
    requires t < |s.threads|
  {
    var th := s.threads[t];
    if th.list == [] then Some(s.(threads := s.threads[t := th.(pc := Dead)]))
    else if th.list[0] >= |s.mutexes| then None
    else Some(Update(s, t, th.list[0], s.mutexes[th.list[0]].(owner := Some(t)),
                     th.(pc := At(th.list[0], ExitMarking), list := Removed(th.list, th.list[0]))))
  }

  function StepGo(s: State, t: nat): Option<State>
    requires t < |s.threads|
  {
    match s.threads[t].pc
    case Idle | Dead => None
    case At(m, _) => if m < |s.mutexes| then StepAt(s, t, m) else None
    case Exiting => StepExiting(s, t)
  }

  function Begin(s: State, t: nat, m: nat, p: Point): Option<State>
  {
    if t < |s.threads| && m < |s.mutexes| && s.threads[t].pc == Idle
    then Some(s.(threads := s.threads[t := s.threads[t].(pc := At(m, p))])) else None
  }

  function Step(s: State, a: Action): Option<State>
  {
    match a
    case Lock(t, m) => Begin(s, t, m, Checking)
    case TryLock(t, m) => Begin(s, t, m, TryChecking)
    case Unlock(t, m) => Begin(s, t, m, UnlockTesting)
    case MakeConsistent(t, m) => Begin(s, t, m, Restoring)
    case Exit(t) =>
      if t < |s.threads| && s.threads[t].pc == Idle
      then Some(s.(threads := s.threads[t := s.threads[t].(pc := Exiting)])) else None
    case Go(t) => if t < |s.threads| then StepGo(s, t) else None
  }

  // ----- the invariant

  ghost function OnList(list: seq<nat>, m: nat): nat { multiset(list)[m] }

  /** The lock is the thread's, but the node is not on its list yet, or not any more. */
  function Pending(pc: Pc, m: nat): nat
  {
    if pc.At? && pc.m == m && (pc.point.Adding? || pc.point.UnlockSwapping? || pc.point.ExitMarking?) then 1 else 0
  }

  /** A thread's stake in the lock of `m`. */
  ghost function Stake(th: Thread, m: nat): nat { OnList(th.list, m) + Pending(th.pc, m) }

  ghost function StakeIn(m: nat): Thread -> nat { (th: Thread) => Stake(th, m) }

  function Orphaned(mx: Mutex): nat { if mx.state == OwnerDied then 1 else 0 }
  function Locked(mx: Mutex): nat { if mx.lockIdx != 0 then 1 else 0 }

  /** The lock is taken exactly while one thread has a stake in it, or nobody does and its last owner
      has died. */
  ghost predicate MutexOk(s: State, m: nat)
    requires m < |s.mutexes|
  {
    var mx := s.mutexes[m];
    && Sum(s.threads, StakeIn(m)) + Orphaned(mx) == Locked(mx)
    && mx.deaths == mx.inherited + Orphaned(mx)
  }

  predicate Leaving(pc: Pc)
  {
    pc.Exiting? || pc.Dead? || (pc.At? && (pc.point.ExitMarking? || pc.point.ExitSignalling?))
  }

  predicate OwnerOk(mx: Mutex, th: Thread, t: nat, m: nat)
  {
    && (m in th.list ==> mx.owner == Some(t))
    && (mx.owner == Some(t) && !Leaving(th.pc) ==> m in th.list)
  }

  predicate ThreadOk(s: State, t: nat)
    requires t < |s.threads|
  {
    var th := s.threads[t];
    && (th.pc.At? ==> th.pc.m < |s.mutexes|)
    && (forall k :: k in th.list ==> k < |s.mutexes|)
    && (th.pc.At? && (th.pc.point.UnlockMarking? || th.pc.point.UnlockCounting?) ==> th.pc.m in th.list)
    && (th.pc.Dead? ==> th.list == [])
  }

  ghost predicate Inv(s: State)
  {
    && (forall m :: 0 <= m < |s.mutexes| ==> MutexOk(s, m))
    && (forall t :: 0 <= t < |s.threads| ==> ThreadOk(s, t))
    && (forall t, m :: 0 <= t < |s.threads| && 0 <= m < |s.mutexes| ==> OwnerOk(s.mutexes[m], s.threads[t], t, m))
  }

  lemma InitInv(kinds: seq<Kind>, n: nat)
    ensures Inv(InitState(kinds, n))
  {
    var s := InitState(kinds, n);
    forall m | 0 <= m < |s.mutexes| ensures MutexOk(s, m) {
      SumZero(s.threads, StakeIn(m));
    }
  }

  /** What the invariant says to thread `t` about mutex `m`. */
  ghost predicate Local(mx: Mutex, th: Thread, t: nat, m: nat)
  {
    && Stake(th, m) + Orphaned(mx) <= Locked(mx)
    && OwnerOk(mx, th, t, m)
    && (th.pc.At? && (th.pc.point.UnlockMarking? || th.pc.point.UnlockCounting?) ==> th.pc.m in th.list)
  }

  lemma InvLocal(s: State, t: nat, m: nat)
    requires Inv(s) && t < |s.threads| && m < |s.mutexes|
    ensures Local(s.mutexes[m], s.threads[t], t, m)
  {
    hide Stake, OwnerOk;
    assert ThreadOk(s, t) && MutexOk(s, m) && OwnerOk(s.mutexes[m], s.threads[t], t, m);
    SumAtLeast(s.threads, t, StakeIn(m));
  }

  /** What a step of thread `t` at mutex `m` has to respect for the invariant to survive it. */
  ghost predicate MoveOk(mx: Mutex, mx': Mutex, th: Thread, th': Thread, t: nat, m: nat)
  {
    && Stake(th', m) + Orphaned(mx') + Locked(mx) == Stake(th, m) + Orphaned(mx) + Locked(mx')
    && mx'.deaths - mx'.inherited - Orphaned(mx') == mx.deaths - mx.inherited - Orphaned(mx)
    && OwnerOk(mx', th', t, m)
    && (mx'.owner == mx.owner || (Stake(th, m) > 0 && (mx'.owner.Some? ==> mx'.owner.value == t)))
    && (Leaving(th.pc) ==> Leaving(th'.pc))
    && (th'.pc.At? ==> th'.pc.m == m)
    && (th.pc.At? ==> th.pc.m == m)
    && (th'.pc.At? && (th'.pc.point.UnlockMarking? || th'.pc.point.UnlockCounting?) ==> m in th'.list)
    && (th'.pc.Dead? ==> th'.list == [])
    && (th'.list == th.list || th'.list == [m] + th.list || (m in th.list && th'.list == Removed(th.list, m)))
  }

  lemma LockStepMoves(mx: Mutex, th: Thread, t: nat, m: nat)
    requires Local(mx, th, t, m) && th.pc.At? && th.pc.m == m && LockStep(mx, th, t).Some?
    ensures var (mx', th') := LockStep(mx, th, t).value; MoveOk(mx, mx', th, th', t, m)
  {
    hide OnList, Removed;
  }

  lemma WaitStepMoves(mx: Mutex, th: Thread, t: nat, m: nat)
    requires Local(mx, th, t, m) && th.pc.At? && th.pc.m == m && WaitStep(mx, th).Some?
    ensures var (mx', th') := WaitStep(mx, th).value; MoveOk(mx, mx', th, th', t, m)
  {
    hide OnList, Removed;
  }

  lemma AddStepMoves(mx: Mutex, th: Thread, t: nat, m: nat)
    requires Local(mx, th, t, m) && th.pc.At? && th.pc.m == m && th.pc.point.Adding?
    ensures var (mx', th') := AddStep(mx, th, t); MoveOk(mx, mx', th, th', t, m)
  {
    assert OnList([m] + th.list, m) == OnList(th.list, m) + 1;
    hide OnList, Removed;
  }

  lemma TryStepMoves(mx: Mutex, th: Thread, t: nat, m: nat)
    requires Local(mx, th, t, m) && th.pc.At? && th.pc.m == m && TryStep(mx, th, t).Some?
    ensures var (mx', th') := TryStep(mx, th, t).value; MoveOk(mx, mx', th, th', t, m)
  {
    hide OnList, Removed;
  }

  lemma UnlockStepMoves(mx: Mutex, th: Thread, t: nat, m: nat)
    requires Local(mx, th, t, m) && th.pc.At? && th.pc.m == m && UnlockStep(mx, th, t).Some?
    ensures var (mx', th') := UnlockStep(mx, th, t).value; MoveOk(mx, mx', th, th', t, m)
  {
    RemovedStake(th.list, m);
    hide OnList, Removed;
  }

  lemma RemovedStake(list: seq<nat>, m: nat)
    ensures m in list <==> OnList(list, m) > 0
    ensures m in list ==> OnList(Removed(list, m), m) == OnList(list, m) - 1
    ensures m in Removed(list, m) <==> OnList(Removed(list, m), m) > 0
  {
  }

  lemma MutexesKept(s: State, t: nat, m: nat, mx': Mutex, th': Thread)
    requires Inv(s) && t < |s.threads| && m < |s.mutexes|
    requires MoveOk(s.mutexes[m], mx', s.threads[t], th', t, m)
    ensures forall k :: 0 <= k < |s.mutexes| ==> MutexOk(Update(s, t, m, mx', th'), k)
  {
    hide Stake, OwnerOk, ThreadOk;
    var s' := Update(s, t, m, mx', th');
    forall k | 0 <= k < |s.mutexes| ensures MutexOk(s', k) {
      assert MutexOk(s, k);
      SumUpdate(s.threads, t, th', StakeIn(k));
      if k != m { OtherStakes(s.threads[t], th', m, k); }
    }
  }

  lemma OwnersKept(s: State, t: nat, m: nat, mx': Mutex, th': Thread)
    requires Inv(s) && t < |s.threads| && m < |s.mutexes|
    requires MoveOk(s.mutexes[m], mx', s.threads[t], th', t, m)
    ensures var s' := Update(s, t, m, mx', th');
            forall u, k :: 0 <= u < |s.threads| && 0 <= k < |s.mutexes| ==> OwnerOk(s'.mutexes[k], s'.threads[u], u, k)
  {
    hide ThreadOk;
    var s' := Update(s, t, m, mx', th');
    forall u, k | 0 <= u < |s.threads| && 0 <= k < |s.mutexes| ensures OwnerOk(s'.mutexes[k], s'.threads[u], u, k) {
      assert OwnerOk(s.mutexes[k], s.threads[u], u, k);
      if u == t && k != m {
        OtherStakes(s.threads[t], th', m, k);
      } else if u != t && k == m && mx'.owner != s.mutexes[m].owner {
        StakeOfOthers(s, t, u, m);
      }
    }
  }

  lemma StakeOfOthers(s: State, t: nat, u: nat, m: nat)
    requires Inv(s) && t < |s.threads| && u < |s.threads| && u != t && m < |s.mutexes| && Stake(s.threads[t], m) > 0
    ensures Stake(s.threads[t], m) == 1 && Stake(s.threads[u], m) == 0 && m !in s.threads[u].list
    ensures s.mutexes[m].lockIdx != 0 && s.mutexes[m].state != OwnerDied
  {
    hide OwnerOk, ThreadOk;
    assert MutexOk(s, m);
    SumAtLeastTwo(s.threads, t, u, StakeIn(m));
  }

  lemma MoveKeepsInv(s: State, t: nat, m: nat, mx': Mutex, th': Thread)
    requires Inv(s) && t < |s.threads| && m < |s.mutexes|
    requires MoveOk(s.mutexes[m], mx', s.threads[t], th', t, m)
    ensures Inv(Update(s, t, m, mx', th'))
  {
    MutexesKept(s, t, m, mx', th');
    OwnersKept(s, t, m, mx', th');
    ThreadsKept(s, t, m, mx', th');
    hide MutexOk, OwnerOk, ThreadOk, MoveOk;
  }

  lemma ThreadsKept(s: State, t: nat, m: nat, mx': Mutex, th': Thread)
    requires Inv(s) && t < |s.threads| && m < |s.mutexes|
    requires MoveOk(s.mutexes[m], mx', s.threads[t], th', t, m)
    ensures forall u :: 0 <= u < |s.threads| ==> ThreadOk(Update(s, t, m, mx', th'), u)
  {
    RemovedWithin(s.threads[t].list, m);
    hide MutexOk, OwnerOk, Stake, Removed, Leaving;
    var s' := Update(s, t, m, mx', th');
    forall u | 0 <= u < |s.threads| ensures ThreadOk(s', u) {
      assert ThreadOk(s, u);
    }
  }

  lemma {:induction false} RemovedWithin(list: seq<nat>, m: nat)
    ensures forall x :: x in Removed(list, m) ==> x in list
  {
    if list != [] { RemovedWithin(list[1..], m); }
  }

  lemma OtherStakes(th: Thread, th': Thread, m: nat, k: nat)
    requires k != m && (th.pc.At? ==> th.pc.m == m) && (th'.pc.At? ==> th'.pc.m == m)
    requires th'.list == th.list || th'.list == [m] + th.list || (m in th.list && th'.list == Removed(th.list, m))
    ensures Stake(th', k) == Stake(th, k) && (k in th'.list <==> k in th.list)
  {
    assert multiset(th'.list)[k] == multiset(th.list)[k];
    assert k in th.list <==> multiset(th.list)[k] > 0;
    assert k in th'.list <==> multiset(th'.list)[k] > 0;
  }

  lemma BeginKeepsInv(s: State, t: nat, pc: Pc)
    requires Inv(s) && t < |s.threads| && s.threads[t].pc == Idle
    requires pc.Exiting? || (pc.At? && pc.m < |s.mutexes| && (pc.point.Checking? || pc.point.TryChecking?
             || pc.point.UnlockTesting? || pc.point.Restoring?))
    ensures Inv(s.(threads := s.threads[t := s.threads[t].(pc := pc)]))
  {
    var th' := s.threads[t].(pc := pc);
    var s' := s.(threads := s.threads[t := th']);
    forall k | 0 <= k < |s.mutexes| ensures MutexOk(s', k) {
      assert MutexOk(s, k);
      SumUpdate(s.threads, t, th', StakeIn(k));
    }
    forall u | 0 <= u < |s.threads| ensures ThreadOk(s', u) {
      assert ThreadOk(s, u);
    }
    forall u, k | 0 <= u < |s.threads| && 0 <= k < |s.mutexes| ensures OwnerOk(s'.mutexes[k], s'.threads[u], u, k) {
      assert OwnerOk(s.mutexes[k], s.threads[u], u, k);
    }
  }

  lemma ExitingKeepsInv(s: State, t: nat)
    requires Inv(s) && t < |s.threads| && s.threads[t].pc.Exiting? && StepExiting(s, t).Some?
    ensures Inv(StepExiting(s, t).value)
  {
    var th := s.threads[t];
    if th.list == [] {
      DyingKeepsInv(s, t);
    } else {
      var m := th.list[0];
      assert m in th.list;
      InvLocal(s, t, m);
      RemovedStake(th.list, m);
      MoveKeepsInv(s, t, m, s.mutexes[m].(owner := Some(t)), th.(pc := At(m, ExitMarking), list := Removed(th.list, m)));
    }
  }

  lemma DyingKeepsInv(s: State, t: nat)
    requires Inv(s) && t < |s.threads| && s.threads[t].pc.Exiting? && s.threads[t].list == []
    ensures Inv(s.(threads := s.threads[t := s.threads[t].(pc := Dead)]))
  {
    var th' := s.threads[t].(pc := Dead);
    var s' := s.(threads := s.threads[t := th']);
    forall k | 0 <= k < |s.mutexes| ensures MutexOk(s', k) {
      assert MutexOk(s, k);
      SumUpdate(s.threads, t, th', StakeIn(k));
    }
    forall u | 0 <= u < |s.threads| ensures ThreadOk(s', u) {
      assert ThreadOk(s, u);
    }
    forall u, k | 0 <= u < |s.threads| && 0 <= k < |s.mutexes| ensures OwnerOk(s'.mutexes[k], s'.threads[u], u, k) {
      assert OwnerOk(s.mutexes[k], s.threads[u], u, k);
    }
  }

  lemma AtKeepsInv(s: State, t: nat, m: nat)
    requires Inv(s) && t < |s.threads| && s.threads[t].pc.At? && s.threads[t].pc.m == m < |s.mutexes|
    requires StepAt(s, t, m).Some?
    ensures Inv(StepAt(s, t, m).value)
  {
    var mx, th := s.mutexes[m], s.threads[t];
    InvLocal(s, t, m);
    hide Inv, Local, MoveOk, LockStep, WaitStep, TryStep, AddStep, UnlockStep;
    if LockPoint(th.pc.point) {
      LockStepMoves(mx, th, t, m);
    } else if WaitPoint(th.pc.point) {
      WaitStepMoves(mx, th, t, m);
    } else if th.pc.point.Adding? {
      AddStepMoves(mx, th, t, m);
    } else if TryPoint(th.pc.point) {
      TryStepMoves(mx, th, t, m);
    } else {
      UnlockStepMoves(mx, th, t, m);
    }
    var (mx', th') := PointStep(mx, th, t).value;
    MoveKeepsInv(s, t, m, mx', th');
  }

  lemma StepKeepsInv(s: State, a: Action)
    requires Inv(s) && Step(s, a).Some?
    ensures Inv(Step(s, a).value)
  {
    hide Inv, StepAt, StepExiting;
    match a {
      case Lock(t, m) => BeginKeepsInv(s, t, At(m, Checking));
      case TryLock(t, m) => BeginKeepsInv(s, t, At(m, TryChecking));
      case Unlock(t, m) => BeginKeepsInv(s, t, At(m, UnlockTesting));
      case MakeConsistent(t, m) => BeginKeepsInv(s, t, At(m, Restoring));
      case Exit(t) => BeginKeepsInv(s, t, Exiting);
      case Go(t) =>
        if s.threads[t].pc.Exiting? {
          ExitingKeepsInv(s, t);
        } else {
          AtKeepsInv(s, t, s.threads[t].pc.m);
        }
    }
  }

  lemma {:induction false} RunKeepsInv(s: State, run: seq<Action>)
    requires Inv(s) && Exec(s, run, Step).Some?
    ensures Inv(Exec(s, run, Step).value)
    decreases |run|
  {
    if run != [] {
      StepKeepsInv(s, run[0]);
      RunKeepsInv(Step(s, run[0]).value, run[1..]);
    }
  }

  ghost predicate Reachable(s: State, kinds: seq<Kind>, n: nat)
  {
    exists run: seq<Action> :: Exec(InitState(kinds, n), run, Step) == Some(s)
  }

  lemma ReachableInv(s: State, kinds: seq<Kind>, n: nat)
    requires Reachable(s, kinds, n)
    ensures Inv(s)
  {
    var run: seq<Action> :| Exec(InitState(kinds, n), run, Step) == Some(s);
    InitInv(kinds, n);
    RunKeepsInv(InitState(kinds, n), run);
  }
}
