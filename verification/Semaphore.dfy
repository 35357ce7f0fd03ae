/** The counting semaphore: a signed `value` guarded by a mutex, plus a kernel semaphore on which
    threads block once `value` has gone negative. Every access to `value` happens inside the
    guarding mutex, so each guarded section is one atomic step; the kernel wait is another. */
module Semaphore {
  import opened Counting
  import opened Runs

  const SEM_VALUE_MAX: int := 0x7fff_ffff

  /** The two counts that together make up one semaphore. */
  datatype Fields = Fields(value: int, kernel: nat)
  {
    /** Permits that a thread arriving now could take without waiting for a post. */
    function Free(): nat { if value > 0 then value else 0 }

    /** Waiters that no post has been directed at yet. */
    function Unserved(): nat { if value < 0 then -value else 0 }

    /** All permits that exist: free ones, and ones released to threads already waiting. */
    function Supply(): nat { Free() + kernel }
  }

  datatype Error = Ok | EAGAIN | EINVAL | ERANGE

  // ----- the guarded sections, as functions on the counts

  function AfterDecrement(f: Fields): Fields
  {
    f.(value := f.value - 1)
  }

  function AfterPost(f: Fields): (Fields, Error)
  {
    if f.value < SEM_VALUE_MAX then
      (Fields(f.value + 1, if f.value + 1 <= 0 then f.kernel + 1 else f.kernel), Ok)
    else
      (f, ERANGE)
  }

  function AfterPostMultiple(f: Fields, count: int): (Fields, Error)
  {
    if count <= 0 then (f, EINVAL)
    else if f.value <= SEM_VALUE_MAX - count then
      var waiters := -f.value;
      var released := if waiters <= 0 then 0 else if waiters <= count then waiters else count;
      (Fields(f.value + count, f.kernel + released), Ok)
    else (f, ERANGE)
  }

  /** What a timed waiter does after its wait failed: take a permit that arrived meanwhile, or
      withdraw. The flag says that a permit was taken. */
  function AfterTimedCleanup(f: Fields): (Fields, bool)
  {
    if f.kernel > 0 then (f.(kernel := f.kernel - 1), true)
    else (f.(value := f.value + 1), false)
  }

  /** What a cancelled `sem_wait` does. Its liveness test reads the first word of the struct, which
      is `value`, as if it were the semaphore handle: at zero nothing is done at all. */
  function AfterWaitCleanup(f: Fields): (Fields, bool)
  {
    if f.value == 0 then (f, false)
    else AfterTimedCleanup(f)
  }

  function AfterTryWait(f: Fields): (Fields, Error)
  {
    if f.value > 0 then (f.(value := f.value - 1), Ok) else (f, EAGAIN)
  }

  // ----- the struct, updated in place

  class Sem {
    var value: int
    var kernel: nat

    ghost function Counts(): (f: Fields)
      reads this
    {
      Fields(value, kernel)
    }

    constructor (initial: nat)
      ensures Counts() == Fields(initial, 0)
    {
      value, kernel := initial, 0;
    }

    /** Entry section of every wait; the caller blocks exactly when the result is negative. */
    method Decrement() returns (v: int)
      modifies this
      ensures Counts() == AfterDecrement(old(Counts()))
      ensures v < 0 <==> old(Counts()).Free() == 0
      ensures v >= 0 ==> Counts().Supply() == old(Counts()).Supply() - 1
      ensures v < 0 ==> Counts().Supply() == old(Counts()).Supply()
    {
      value := value - 1;
      v := value;
    }

    method Post() returns (result: Error)
      modifies this
      ensures (Counts(), result) == AfterPost(old(Counts()))
      ensures result == Ok ==> Counts().Supply() == old(Counts()).Supply() + 1
      ensures result != Ok ==> Counts() == old(Counts())
    {
      result := Ok;
      if value < SEM_VALUE_MAX {
        value := value + 1;
        if value <= 0 {
          kernel := kernel + 1;
        }
      } else {
        result := ERANGE;
      }
    }

    method PostMultiple(count: int) returns (result: Error)
      modifies this
      ensures (Counts(), result) == AfterPostMultiple(old(Counts()), count)
      ensures result == Ok ==> Counts().Supply() == old(Counts()).Supply() + count
      ensures result != Ok ==> Counts() == old(Counts())
    {
      result := Ok;
      if count <= 0 {
        result := EINVAL;
      } else if value <= SEM_VALUE_MAX - count {
        var waiters := -value;
        value := value + count;
        if waiters > 0 {
          kernel := kernel + if waiters <= count then waiters else count;
        }
      } else {
        result := ERANGE;
      }
    }

    method TryWait() returns (result: Error)
      modifies this
      ensures (Counts(), result) == AfterTryWait(old(Counts()))
      ensures result == Ok <==> old(Counts()).Free() > 0
    {
      result := Ok;
      if value > 0 {
        value := value - 1;
      } else {
        result := EAGAIN;
      }
    }

    method TimedCleanup() returns (took: bool)
      modifies this
      ensures (Counts(), took) == AfterTimedCleanup(old(Counts()))
      ensures old(value) < 0 ==> Counts().Supply() == old(Counts()).Supply() - if took then 1 else 0
    {
      if kernel > 0 {
        kernel := kernel - 1;
        took := true;
      } else {
        value := value + 1;
        took := false;
      }
    }
  }

  // ----- single and batch posts

  function PostTimes(f: Fields, n: nat): Fields
  {
    if n == 0 then f else AfterPost(PostTimes(f, n - 1)).0
  }

  /** A batch post is that many single posts, whenever it is accepted; when it is refused the
      single posts would have run into the same ceiling. */
  lemma {:induction false} BatchPostIsRepeatedPost(f: Fields, n: nat)
    requires 0 < n
    requires f.value <= SEM_VALUE_MAX
    ensures AfterPostMultiple(f, n).1 == Ok ==> AfterPostMultiple(f, n).0 == PostTimes(f, n)
    ensures AfterPostMultiple(f, n).1 == ERANGE <==> f.value + n > SEM_VALUE_MAX
    ensures f.value + n > SEM_VALUE_MAX ==> PostTimes(f, n).value == SEM_VALUE_MAX
  {
    if n > 1 {
      BatchPostIsRepeatedPost(f, n - 1);
    } else {
      assert PostTimes(f, 0) == f;
    }
  }

  // ----- the protocol, for any number of threads

  datatype WaitKind = Plain | Cancelable | Timed

  datatype Pc =
    | Idle
    | Blocked(kind: WaitKind)     // in the kernel wait
    | Leaving(kind: WaitKind)     // timed out or cancelled, about to run the cleanup section

  datatype Action =
    | Wait(t: nat, kind: WaitKind)
    | Wake(t: nat)
    | GiveUp(t: nat)
    | Cleanup(t: nat)
    | TryWait(t: nat)
    | Post(t: nat, count: int)    // sem_post is the batch post of one

  /** `posted` and `granted` count permits over the whole run; `skipped` counts cancelled waiters
      that left without withdrawing. */
  datatype State = State(f: Fields, threads: seq<Pc>, initial: nat, posted: nat, granted: nat, skipped: nat)

  function InitState(initial: nat, n: nat): State
  {
    State(Fields(initial, 0), seq(n, _ => Idle), initial, 0, 0, 0)
  }

  function StepWait(s: State, t: nat, kind: WaitKind): Option<State>
    requires t < |s.threads|
  {
    if !s.threads[t].Idle? then None
    else
      var f := AfterDecrement(s.f);
      if f.value < 0 then Some(s.(f := f, threads := s.threads[t := Blocked(kind)]))
      else Some(s.(f := f, granted := s.granted + 1))
  }

  function StepWake(s: State, t: nat): Option<State>
    requires t < |s.threads|
  {
    if !s.threads[t].Blocked? || s.f.kernel == 0 then None
    else Some(s.(f := s.f.(kernel := s.f.kernel - 1), threads := s.threads[t := Idle], granted := s.granted + 1))
  }

  function StepGiveUp(s: State, t: nat): Option<State>
    requires t < |s.threads|
  {
    if !s.threads[t].Blocked? || s.threads[t].kind == Plain then None
    else Some(s.(threads := s.threads[t := Leaving(s.threads[t].kind)]))
  }

  function StepCleanup(s: State, t: nat): Option<State>
    requires t < |s.threads|
  {
    if !s.threads[t].Leaving? then None
    else
      var (f, took) := if s.threads[t].kind == Timed then AfterTimedCleanup(s.f) else AfterWaitCleanup(s.f);
      Some(s.(f := f, threads := s.threads[t := Idle],
              granted := s.granted + (if took then 1 else 0),
              skipped := s.skipped + (if s.threads[t].kind != Timed && s.f.value == 0 then 1 else 0)))
  }

  function StepTryWait(s: State, t: nat): Option<State>
    requires t < |s.threads|
  {
    if !s.threads[t].Idle? then None
    else
      var (f, result) := AfterTryWait(s.f);
      Some(s.(f := f, granted := s.granted + if result == Ok then 1 else 0))
  }

  function StepPost(s: State, t: nat, count: int): Option<State>
    requires t < |s.threads|
  {
    if !s.threads[t].Idle? then None
    else
      var (f, result) := AfterPostMultiple(s.f, count);
      Some(s.(f := f, posted := s.posted + if result == Ok then count else 0))
  }

  function Step(s: State, a: Action): Option<State>
  {
    if a.t >= |s.threads| then None
    else match a
      case Wait(t, kind) => StepWait(s, t, kind)
      case Wake(t) => StepWake(s, t)
      case GiveUp(t) => StepGiveUp(s, t)
      case Cleanup(t) => StepCleanup(s, t)
      case TryWait(t) => StepTryWait(s, t)
      case Post(t, count) => StepPost(s, t, count)
  }

  function Waiting(p: Pc): nat { if p.Idle? then 0 else 1 }

  ghost function Waiters(s: State): nat { Sum(s.threads, Waiting) }

  ghost predicate Inv(s: State)
  {
    && s.f.Supply() + s.granted == s.initial + s.posted
    && Waiters(s) + s.skipped == s.f.kernel + s.f.Unserved()
    && s.f.value <= SEM_VALUE_MAX
  }

  lemma InitInv(initial: nat, n: nat)
    requires initial <= SEM_VALUE_MAX
    ensures Inv(InitState(initial, n))
  {
    SumZero(InitState(initial, n).threads, Waiting);
  }

  lemma BlockingKeepsInv(s: State, t: nat, kind: WaitKind)
    requires Inv(s) && t < |s.threads| && StepWait(s, t, kind).Some?
    ensures Inv(StepWait(s, t, kind).value)
  {
    SumUpdate(s.threads, t, Blocked(kind), Waiting);
  }

  lemma LeavingKeepsInv(s: State, t: nat)
    requires Inv(s) && t < |s.threads|
    ensures StepWake(s, t).Some? ==> Inv(StepWake(s, t).value)
    ensures StepGiveUp(s, t).Some? ==> Inv(StepGiveUp(s, t).value)
  {
    SumAtLeast(s.threads, t, Waiting);
    SumUpdate(s.threads, t, Idle, Waiting);
    if s.threads[t].Blocked? { SumUpdate(s.threads, t, Leaving(s.threads[t].kind), Waiting); }
  }

  lemma CleanupKeepsInv(s: State, t: nat)
    requires Inv(s) && t < |s.threads| && StepCleanup(s, t).Some?
    ensures Inv(StepCleanup(s, t).value)
  {
    SumAtLeast(s.threads, t, Waiting);
    SumUpdate(s.threads, t, Idle, Waiting);
  }

  lemma SupplyKeepsInv(s: State, t: nat, count: int)
    requires Inv(s) && t < |s.threads|
    ensures StepTryWait(s, t).Some? ==> Inv(StepTryWait(s, t).value)
    ensures StepPost(s, t, count).Some? ==> Inv(StepPost(s, t, count).value)
  {
  }

  lemma StepKeepsInv(s: State, a: Action)
    requires Inv(s) && Step(s, a).Some?
    ensures Inv(Step(s, a).value)
  {
    hide Inv, StepWait, StepWake, StepGiveUp, StepCleanup, StepTryWait, StepPost;
    match a
    case Wait(t, kind) => BlockingKeepsInv(s, t, kind);
    case Wake(t) => LeavingKeepsInv(s, t);
    case GiveUp(t) => LeavingKeepsInv(s, t);
    case Cleanup(t) => CleanupKeepsInv(s, t);
    case TryWait(t) => SupplyKeepsInv(s, t, 0);
    case Post(t, count) => SupplyKeepsInv(s, t, count);
  }

  ghost predicate Reachable(s: State, initial: nat, n: nat)
  {
    && initial <= SEM_VALUE_MAX    // sem_init refuses anything larger
    && exists run: seq<Action> :: Exec(InitState(initial, n), run, Step) == Some(s)
  }

  lemma ReachableInv(s: State, initial: nat, n: nat)
    requires Reachable(s, initial, n)
    ensures Inv(s) && s.initial == initial && |s.threads| == n
  {
    var run: seq<Action> :| Exec(InitState(initial, n), run, Step) == Some(s);
    InitInv(initial, n);
    var inv := (x: State) => Inv(x) && x.initial == initial && |x.threads| == n;
    forall x, a | inv(x) && Step(x, a).Some? ensures inv(Step(x, a).value) {
      StepKeepsInv(x, a);
    }
    ExecKeeps(InitState(initial, n), run, Step, inv);
  }

  // ----- main results

  /** Conservation: the two counts always represent exactly the permits supplied and not yet taken,
      so no run ever grants more than was supplied. */
  lemma PermitsConserved(s: State, initial: nat, n: nat)
    requires Reachable(s, initial, n)
    ensures s.f.Supply() == initial + s.posted - s.granted
    ensures s.granted <= initial + s.posted
  {
    ReachableInv(s, initial, n);
  }

  /** Threads inside a wait are exactly those already served by the kernel semaphore plus those the
      negative `value` records, unless some cancelled `sem_wait` left without withdrawing. */
  lemma WaitersAccountedFor(s: State, initial: nat, n: nat)
    requires Reachable(s, initial, n)
    ensures Waiters(s) + s.skipped == s.f.kernel + s.f.Unserved()
  {
    ReachableInv(s, initial, n);
  }

  /** `value` stays inside a C int for as long as the threads, plus the cancelled waiters that never
      withdrew, can be counted in one. */
  lemma ValueFits(s: State, initial: nat, n: nat)
    requires Reachable(s, initial, n)
    ensures -(n + s.skipped) <= s.f.value <= SEM_VALUE_MAX
  {
    ReachableInv(s, initial, n);
    SumBounded(s.threads, Waiting);
  }

  /** No thread stays blocked while a permit exists: its kernel wait is then enabled. */
  lemma NoWaiterStranded(s: State, initial: nat, n: nat, t: nat)
    requires Reachable(s, initial, n) && t < n
    requires |s.threads| == n && s.threads[t].Blocked?
    requires s.granted < initial + s.posted
    ensures Step(s, Wake(t)).Some?
  {
    ReachableInv(s, initial, n);
    SumAtLeast(s.threads, t, Waiting);
  }

  /** A withdrawal never invents a permit: when a timed waiter finds no permit on its second try,
      `value` is negative, and what it gives back is only its own place in the queue. */
  lemma WithdrawalCreatesNoPermit(s: State, initial: nat, n: nat, t: nat)
    requires Reachable(s, initial, n) && t < n
    requires |s.threads| == n && s.threads[t] == Leaving(Timed)
    ensures Step(s, Cleanup(t)).Some?
    ensures var s' := Step(s, Cleanup(t)).value;
            if s.f.kernel > 0 then s'.f.Supply() == s.f.Supply() - 1 && s'.granted == s.granted + 1
            else s.f.value < 0 && s'.f.Supply() == s.f.Supply() && s'.granted == s.granted
  {
    ReachableInv(s, initial, n);
    SumAtLeast(s.threads, t, Waiting);
  }

  // ----- refinement of an abstract counting semaphore

  /** The abstract object: one count, whose only moves are V(k), and P when it is positive. */
  ghost predicate AbstractStep(c: nat, c': nat, posted: nat, granted: nat)
  {
    c' == c + posted - granted && granted <= 1 && (granted == 1 ==> c > 0)
  }

  lemma RefinesCountingSemaphore(s: State, a: Action)
    requires Inv(s) && Step(s, a).Some?
    ensures var s' := Step(s, a).value;
            && s'.posted >= s.posted && s'.granted >= s.granted
            && AbstractStep(s.f.Supply(), s'.f.Supply(), s'.posted - s.posted, s'.granted - s.granted)
  {
    StepKeepsInv(s, a);
  }

  // ----- cancellation of a plain sem_wait

  /** Counting only what the counters should mean: nobody inside a wait is unaccounted for. */
  ghost predicate Exact(s: State)
  {
    Waiters(s) == s.f.kernel + s.f.Unserved()
  }

  /** The cleanup of a cancelled `sem_wait` keeps the counters exact if and only if it does not run
      at `value` zero. */
  lemma CancelKeepsExactIff(s: State, t: nat)
    requires Inv(s) && Exact(s)
    requires t < |s.threads| && s.threads[t] == Leaving(Cancelable)
    ensures Step(s, Cleanup(t)).Some?
    ensures Exact(Step(s, Cleanup(t)).value) <==> s.f.value != 0
  {
    SumUpdate(s.threads, t, Idle, Waiting);
    SumAtLeast(s.threads, t, Waiting);
  }

  /** Every other step keeps them exact. */
  lemma OtherStepsKeepExact(s: State, a: Action)
    requires Inv(s) && Exact(s) && Step(s, a).Some?
    requires a.Cleanup? ==> s.threads[a.t].kind == Timed
    ensures Exact(Step(s, a).value)
  {
    StepKeepsInv(s, a);
  }

  /** While the counters are exact, `sem_trywait` refuses only when every permit that exists is
      already claimed by a thread inside a wait. */
  lemma TryWaitRefusesOnlyClaimed(s: State)
    requires Exact(s) && AfterTryWait(s.f).1 == EAGAIN
    ensures s.f.Supply() <= Waiters(s)
  {
  }

  /** A run in which one post and one cancellation leave a permit that nobody waits for, and that
      `sem_trywait` refuses to hand out. */
  lemma CancelledWaitHidesAPermit()
    ensures exists s ::
      && Reachable(s, 0, 2)
      && s.f.Supply() == 1 && Waiters(s) == 0
      && AfterTryWait(s.f).1 == EAGAIN
  {
    var run := [Wait(0, Cancelable), GiveUp(0), Post(1, 1), Cleanup(0)];
    var s0 := InitState(0, 2);
    var s1 := Step(s0, run[0]).value;
    var s2 := Step(s1, run[1]).value;
    var s3 := Step(s2, run[2]).value;
    var s4 := Step(s3, run[3]).value;
    assert s1.f == Fields(-1, 0) && s3.f == Fields(0, 1) && s4.f == Fields(0, 1);
    ExecTrace([s0, s1, s2, s3, s4], run, Step);
    assert Reachable(s4, 0, 2);
    SumZero(s4.threads, Waiting);
  }
}
