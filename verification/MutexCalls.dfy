/** What a call on a mutex comes to between its start and its return, whatever other threads do
    meanwhile: what lock, trylock and unlock return, and how the calls of a thread add up. */
module MutexCalls {
  import opened Counting
  import opened Runs
  import opened Mutex

  predicate AtRest(p: Pc) { p.Idle? || p.Held? }

  /** The thread is in a call. */
  function InCall(t: nat): State -> bool
  {
    (s: State) => t < |s.threads| && !AtRest(s.threads[t])
  }

  predicate IsCall(a: Action) { a.Lock? || a.TryLock? || a.Unlock? }

  /** What `call` must have returned, and how deeply the caller then has the mutex, when it had it `d` deep
      at the call and `free` says whether anybody had it then. */
  predicate Outcome(kind: Kind, call: Action, d: nat, free: bool, timedOut: bool, result: Result, d': nat)
  {
    match call
    case Lock(_, timed) =>
      if timedOut then timed && d == 0 && result == ETIMEDOUT && d' == 0
      else if d == 0 || kind == Recursive then result == Ok && d' == d + 1
      else result == EDEADLK && d' == d
    case TryLock(_) =>
      if free || (kind == Recursive && d > 0) then result == Ok && d' == d + 1
      else result == EBUSY && d' == d
    case Unlock(_) =>
      if d > 0 then result == Ok && d' == d - 1 else result == EPERM && d' == 0
    case _ => false
  }

  /** Where a thread can be in `call`. */
  predicate Midway(kind: Kind, call: Action, d: nat, free: bool, p: Pc)
  {
    match call
    case Lock(_, timed) =>
      || (kind != Normal && p == Check(d, true, timed))
      || (d == 0 && (p == Loop(timed) || p == Asleep(timed) || p.SetCount? || p.SetOwner?))
    case TryLock(_) =>
      || (kind == Recursive && !free && p == Check(d, false, false))
      || (free && d == 0 && (p.SetCount? || p.SetOwner?))
    case Unlock(_) => d == 1 && (p.ClearOwner? || p.ResetIdx? || p.Waking?)
    case _ => false
  }

  /** In the call, or back from it as it must be. */
  predicate Follows(s: State, t: nat, call: Action, d: nat, free: bool, timedOut: bool)
  {
    && t < |s.threads|
    && if AtRest(s.threads[t])
       then t in s.last && Outcome(s.kind, call, d, free, timedOut, s.last[t], Depth(s.threads[t]))
       else !timedOut && Midway(s.kind, call, d, free, s.threads[t])
  }

  lemma CallFollows(s: State, call: Action)
    requires Inv(s) && IsCall(call) && Step(s, call).Some?
    ensures Follows(Step(s, call).value, call.t, call, Depth(s.threads[call.t]), s.lockIdx == 0, false)
  {
    assert ThreadOk(s, call.t);
    SumAtLeast(s.threads, call.t, Owns);
  }

  lemma StepFollows(s: State, a: Action, t: nat, call: Action, d: nat, free: bool)
    requires Inv(s) && Step(s, a).Some? && t < |s.threads| && !AtRest(s.threads[t])
    requires Follows(s, t, call, d, free, false)
    ensures Follows(Step(s, a).value, t, call, d, free, a == TimeOut(t))
  {
    assert ThreadOk(s, t);
    hide Inv;
    if a.t != t {
      OthersLeaveAlone(s, a, t);
    } else if s.threads[t].Check? {
      CheckFollows(s, a, call, d, free);
    } else if s.threads[t].Loop? || s.threads[t].Asleep? {
      WaitFollows(s, a, call, d, free);
    } else {
      RestFollows(s, a, call, d, free);
    }
  }

  lemma OthersLeaveAlone(s: State, a: Action, t: nat)
    requires Step(s, a).Some? && t < |s.threads| && a.t != t
    ensures var s' := Step(s, a).value;
            && s'.kind == s.kind && |s'.threads| == |s.threads| && s'.threads[t] == s.threads[t]
            && (t in s'.last <==> t in s.last) && (t in s.last ==> s'.last[t] == s.last[t])
  {
  }

  lemma CheckFollows(s: State, a: Action, call: Action, d: nat, free: bool)
    requires Step(s, a).Some? && s.threads[a.t].Check? && ThreadOk(s, a.t) && Follows(s, a.t, call, d, free, false)
    ensures Follows(Step(s, a).value, a.t, call, d, free, a == TimeOut(a.t))
  {
  }

  lemma WaitFollows(s: State, a: Action, call: Action, d: nat, free: bool)
    requires Step(s, a).Some? && (s.threads[a.t].Loop? || s.threads[a.t].Asleep?) && ThreadOk(s, a.t)
    requires Follows(s, a.t, call, d, free, false)
    ensures Follows(Step(s, a).value, a.t, call, d, free, a == TimeOut(a.t))
  {
  }

  lemma RestFollows(s: State, a: Action, call: Action, d: nat, free: bool)
    requires Step(s, a).Some? && ThreadOk(s, a.t) && Follows(s, a.t, call, d, free, false)
    requires var p := s.threads[a.t]; p.SetCount? || p.SetOwner? || p.ClearOwner? || p.ResetIdx? || p.Waking?
    ensures Follows(Step(s, a).value, a.t, call, d, free, a == TimeOut(a.t))
  {
  }

  lemma {:induction false} RunFollows(s: State, run: seq<Action>, t: nat, call: Action, d: nat, free: bool)
    requires Inv(s) && Follows(s, t, call, d, free, false) && While(s, run, Step, InCall(t))
    ensures Exec(s, run, Step).Some?
    ensures Follows(Exec(s, run, Step).value, t, call, d, free, TimeOut(t) in run)
    decreases |run|
  {
    if run != [] {
      var s' := Step(s, run[0]).value;
      StepFollows(s, run[0], t, call, d, free);
      StepKeepsInv(s, run[0]);
      if run[0] == TimeOut(t) {
        assert AtRest(s'.threads[t]) && run == [run[0]];
      } else {
        hide Inv, Step, Follows;
        RunFollows(s', run[1..], t, call, d, free);
        assert run == [run[0]] + run[1..];
      }
    }
  }

  /** Over any run from a call of lock, timedlock, trylock or unlock to its return: lock gives the mutex to
      its caller, once more if it is recursive, and EDEADLK to the holder of an errorcheck mutex, unless a
      timed wait has given up; trylock succeeds if and only if the mutex was free, or recursive and the
      caller's; unlock succeeds if and only if the caller had it. What the caller has afterwards agrees. */
  lemma CallOutcome(s: State, kind: Kind, n: nat, call: Action, run: seq<Action>)
    requires Reachable(s, kind, n) && IsCall(call) && Step(s, call).Some?
    requires While(Step(s, call).value, run, Step, InCall(call.t))
    ensures var t := call.t; var r := Exec(Step(s, call).value, run, Step);
            && r.Some? && t < |s.threads| == |r.value.threads|
            && (AtRest(r.value.threads[t]) ==>
                  && t in r.value.last
                  && Outcome(kind, call, Depth(s.threads[t]), s.lockIdx == 0, TimeOut(t) in run, r.value.last[t],
                             Depth(r.value.threads[t])))
  {
    ReachableInv(s, kind, n);
    var s1 := Step(s, call).value;
    CallFollows(s, call);
    StepKeepsInv(s, call);
    StepKeepsShape(s, call);
    RunFollows(s1, run, call.t, call, Depth(s.threads[call.t]), s.lockIdx == 0);
    RunKeepsInv(s1, run);
  }

  /** The steps that thread `t` still takes in a call that does not sleep. */
  function CallSteps(p: Pc): nat
  {
    match p
    case Check(_, _, _) | SetCount | ClearOwner => 3
    case SetOwner | ResetIdx => 2
    case Waking => 1
    case _ => 0
  }

  predicate OwnStep(s: State, a: Action, t: nat)
  {
    a.t == t && !a.TimeOut? && Step(s, a).Some?
  }

  /** Only a lock waits, only for the event, and only if its caller does not have the mutex, and a timed one
      can then give up: until the call returns its thread has a step to take otherwise; and trylock and
      unlock come nearer to their end with each. */
  lemma OnlyLockWaits(s: State, kind: Kind, n: nat, call: Action, run: seq<Action>, a: Action)
    requires Reachable(s, kind, n) && IsCall(call) && Step(s, call).Some?
    requires While(Step(s, call).value, run, Step, InCall(call.t))
    ensures var t := call.t; var r := Exec(Step(s, call).value, run, Step);
            && r.Some? && t < |r.value.threads|
            && (!AtRest(r.value.threads[t]) ==>
                  && ((exists b :: OwnStep(r.value, b, t))
                      || (call.Lock? && r.value.threads[t].Asleep? && !r.value.event && Depth(s.threads[t]) == 0
                          && (call.timed ==> Step(r.value, TimeOut(t)).Some?)))
                  && (!call.Lock? && OwnStep(r.value, a, t) ==>
                        CallSteps(Step(r.value, a).value.threads[t]) < CallSteps(r.value.threads[t])))
  {
    ReachableInv(s, kind, n);
    var s1, t := Step(s, call).value, call.t;
    CallFollows(s, call);
    StepKeepsInv(s, call);
    RunFollows(s1, run, t, call, Depth(s.threads[t]), s.lockIdx == 0);
    hide Inv, Step, OwnStep, CallSteps;
    if !AtRest(Exec(s1, run, Step).value.threads[t]) {
      NeverWaits(Exec(s1, run, Step).value, call, Depth(s.threads[t]), s.lockIdx == 0, TimeOut(t) in run, a);
    }
  }

  lemma NeverWaits(s: State, call: Action, d: nat, free: bool, timedOut: bool, a: Action)
    requires call.t < |s.threads| && !AtRest(s.threads[call.t]) && Follows(s, call.t, call, d, free, timedOut)
    ensures || (exists b :: OwnStep(s, b, call.t))
            || (call.Lock? && s.threads[call.t].Asleep? && !s.event && d == 0 && (call.timed ==> Step(s, TimeOut(call.t)).Some?))
    ensures !call.Lock? && OwnStep(s, a, call.t) ==>
              && call.t < |Step(s, a).value.threads|
              && CallSteps(Step(s, a).value.threads[call.t]) < CallSteps(s.threads[call.t])
  {
    var t := call.t;
    if !s.threads[t].Asleep? || s.event {
      var b := match s.threads[t] {
        case Check(_, _, _) => ReadOwner(t)
        case Loop(_) => Exchange(t)
        case Asleep(_) => Wake(t)
        case SetCount | SetOwner => Record(t)
        case ClearOwner => Clear(t)
        case ResetIdx => Reset(t)
        case _ => Signal(t)
      };
      assert OwnStep(s, b, t);
    }
  }

  /** A thread between its calls can make any of them; a normal mutex that it has it can only unlock, and
      only then. */
  lemma CallsCanBegin(s: State, kind: Kind, n: nat, t: nat, timed: bool)
    requires Reachable(s, kind, n) && t < |s.threads| && AtRest(s.threads[t])
    ensures kind != Normal || s.threads[t].Idle? ==> Step(s, Lock(t, timed)).Some? && Step(s, TryLock(t)).Some?
    ensures Step(s, Unlock(t)).Some? <==> kind != Normal || s.threads[t].Held?
  {
    ReachableInv(s, kind, n);
    hide Inv;
  }

  // ----- how the calls of a thread add up

  datatype Op = Locking | Unlocking

  /** What an observer of thread `t` notes who sees its calls and what they return: the call it is in, and
      the calls of lock and trylock that succeeded less the calls of unlock that did. */
  datatype Book = Book(open: Option<Op>, balance: int)

  function Booked(t: nat, b: Book, s: State, a: Action, s': State): Book
  {
    if a.t != t || t >= |s'.threads| then b
    else
      var open := if a.Lock? || a.TryLock? then Some(Locking) else if a.Unlock? then Some(Unlocking) else b.open;
      if !AtRest(s'.threads[t]) || open.None? then b.(open := open)
      else
        var success := t in s'.last && s'.last[t] == Ok;
        Book(None, b.balance + if !success then 0 else if open.value.Locking? then 1 else -1)
  }

  function Booking(t: nat): (Book, State, Action, State) -> Book
  {
    (b: Book, s: State, a: Action, s': State) => Booked(t, b, s, a, s')
  }

  predicate BookOk(s: State, t: nat, b: Book)
  {
    && t < |s.threads|
    && match s.threads[t]
       case Idle | Held(_) => b == Book(None, Depth(s.threads[t]))
       case Check(_, _, _) | Loop(_) | Asleep(_) => b == Book(Some(Locking), Depth(s.threads[t]))
       case SetCount | SetOwner => b == Book(Some(Locking), 0)
       case ClearOwner | ResetIdx | Waking => b == Book(Some(Unlocking), 1)
  }

  lemma StepBooked(s: State, a: Action, t: nat, b: Book)
    requires Inv(s) && Step(s, a).Some? && BookOk(s, t, b)
    ensures BookOk(Step(s, a).value, t, Booked(t, b, s, a, Step(s, a).value))
  {
    assert ThreadOk(s, t);
    SumAtLeast(s.threads, t, Owns);
    hide Inv;
    if a.t == t {
      if a.Lock? || a.TryLock? || a.Unlock? {
        CallBooked(s, a, b);
      } else {
        OwnStepBooked(s, a, b);
      }
    } else {
      OthersLeaveAlone(s, a, t);
    }
  }

  lemma CallBooked(s: State, a: Action, b: Book)
    requires Step(s, a).Some? && IsCall(a) && ThreadOk(s, a.t) && BookOk(s, a.t, b)
    requires Owns(s.threads[a.t]) == 1 ==> s.lockIdx != 0
    ensures BookOk(Step(s, a).value, a.t, Booked(a.t, b, s, a, Step(s, a).value))
  {
  }

  lemma OwnStepBooked(s: State, a: Action, b: Book)
    requires Step(s, a).Some? && !IsCall(a) && ThreadOk(s, a.t) && BookOk(s, a.t, b)
    ensures BookOk(Step(s, a).value, a.t, Booked(a.t, b, s, a, Step(s, a).value))
  {
  }

  ghost function Balance(kind: Kind, n: nat, run: seq<Action>, t: nat): int
  {
    Fold(InitState(kind, n), run, Step, Booking(t), Book(None, 0)).balance
  }

  /** Over any run from the start: between its calls a thread has the mutex exactly as deeply as its
      successful calls of lock and trylock outnumber those of unlock. So a mutex that a thread has locked
      k times stays locked, and that thread's, through fewer than k unlocks. */
  lemma LocksLessUnlocks(kind: Kind, n: nat, run: seq<Action>, t: nat)
    requires t < n && Exec(InitState(kind, n), run, Step).Some?
    ensures var s := Exec(InitState(kind, n), run, Step).value;
            && |s.threads| == n
            && (AtRest(s.threads[t]) ==>
                  && Depth(s.threads[t]) == Balance(kind, n, run, t)
                  && (Balance(kind, n, run, t) > 0 ==>
                        && s.lockIdx != 0 && (kind != Normal ==> s.owner == Some(t))
                        && (kind == Recursive ==> s.count == Balance(kind, n, run, t))
                        && forall u :: 0 <= u < n && u != t ==> Depth(s.threads[u]) == 0))
  {
    var s0 := InitState(kind, n);
    var s := Exec(s0, run, Step).value;
    assert Reachable(s, kind, n);
    ReachableInv(s, kind, n);
    RunBooked(kind, n, run, t);
    if AtRest(s.threads[t]) && Depth(s.threads[t]) > 0 {
      assert ThreadOk(s, t);
      SumAtLeast(s.threads, t, Owns);
      forall u | 0 <= u < n && u != t ensures Depth(s.threads[u]) == 0 {
        if Owns(s.threads[u]) == 1 { OneOwner(s, t, u); }
      }
    }
  }

  lemma RunBooked(kind: Kind, n: nat, run: seq<Action>, t: nat)
    requires t < n && Exec(InitState(kind, n), run, Step).Some?
    ensures BookOk(Exec(InitState(kind, n), run, Step).value, t,
                   Fold(InitState(kind, n), run, Step, Booking(t), Book(None, 0)))
  {
    var s0 := InitState(kind, n);
    InitInv(kind, n);
    ExecIsWhile(s0, run, Step);
    var inv := (x: State, b: Book) => Inv(x) && BookOk(x, t, b);
    forall x, b, a | inv(x, b) && Step(x, a).Some?
      ensures inv(Step(x, a).value, Booked(t, b, x, a, Step(x, a).value))
    {
      StepKeepsInv(x, a);
      StepBooked(x, a, t, b);
    }
    WhileKeeps(s0, run, Step, _ => true, Booking(t), Book(None, 0), inv);
  }
}
