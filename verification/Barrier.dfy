/** The reusable barrier: a height counted down under a lock by the threads coming in, and counted up
    again by an interlocked operation as they leave. The last thread in hands the lock to the barrier
    itself, and the last thread out releases it. */
module Barrier {
  import opened Counting
  import opened Runs

  // ----- the struct, updated in place

  /** `entered` and `left` count the threads that have come into the round under way and gone out of
      it; the one height tells both. */
  class BarrierObject {
    var nCurrentBarrierHeight: int
    const nInitialBarrierHeight: nat
    ghost var entered: nat
    ghost var left: nat

    ghost predicate Valid()
      reads this
    {
      && left <= entered <= nInitialBarrierHeight && left < nInitialBarrierHeight
      && (left > 0 ==> entered == nInitialBarrierHeight)
      && nCurrentBarrierHeight == if entered < nInitialBarrierHeight then nInitialBarrierHeight - entered else left
    }

    constructor (count: nat)
      requires count > 0
      ensures Valid() && entered == left == 0 && nInitialBarrierHeight == count
    {
      nCurrentBarrierHeight, nInitialBarrierHeight := count, count;
      entered, left := 0, 0;
    }

    /** pthread_barrier_init: EINVAL, that is no barrier, for a round of nobody. */
    static method Init(count: nat) returns (b: Option<BarrierObject>)
      ensures b.None? <==> count == 0
      ensures b.Some? ==> fresh(b.value) && b.value.Valid() && b.value.entered == b.value.left == 0
      ensures b.Some? ==> b.value.nInitialBarrierHeight == count
    {
      b := None;
      if count != 0 {
        var o := new BarrierObject(count);
        b := Some(o);
      }
    }

    /** With the lock, which lets nobody into a full round: the thread with which all are in hands the
        lock over and posts one permit for each of the others; any other goes on to wait. */
    method Enter() returns (last: bool, posts: nat)
      requires Valid() && entered < nInitialBarrierHeight
      modifies this
      ensures Valid() && entered == old(entered) + 1 && left == old(left)
      ensures last <==> entered == nInitialBarrierHeight
      ensures posts == if entered == nInitialBarrierHeight then entered - 1 else 0
    {
      entered := entered + 1;
      nCurrentBarrierHeight := nCurrentBarrierHeight - 1;
      last := nCurrentBarrierHeight == 0;
      posts := if last && nInitialBarrierHeight > 1 then nInitialBarrierHeight - 1 else 0;
    }

    /** The interlocked increment on the way out of a full round: the thread is the serial one, and
        releases the lock, if and only if all the others are out; an empty round follows. */
    method Leave() returns (serial: bool)
      requires Valid() && entered == nInitialBarrierHeight
      modifies this
      ensures Valid()
      ensures serial <==> old(left) + 1 == old(entered)
      ensures if serial then entered == left == 0 else entered == old(entered) && left == old(left) + 1
    {
      left := left + 1;
      nCurrentBarrierHeight := nCurrentBarrierHeight + 1;
      serial := nCurrentBarrierHeight == nInitialBarrierHeight;
      if serial {
        entered, left := 0, 0;
      }
    }
  }

  // ----- the protocol, for any number of threads

  datatype Lock = Free | HeldBy(t: nat) | Proxy

  /** The history of one round: who came in, who went out, who was told to be the serial thread. */
  datatype Round = Round(entered: set<nat>, left: set<nat>, serial: set<nat>)

  datatype Pc =
    | Idle
    | AtLock
    | Reading              // has the lock, about to read the height
    | Writing(read: int)   // about to write it back, one smaller
    | Transferring         // last in: about to hand its lock node to the barrier
    | Posting              // last in: about to post the others
    | Releasing            // not the last: about to release the lock
    | AtSem                // waiting for the breach
    | Crossing             // about to count the height up again
    | ReleasingProxy       // last out
    | Destroying           // destroyer that has the lock

  datatype State = State(initial: nat, current: int, sem: nat, lock: Lock, threads: seq<Pc>,
                         rounds: seq<Round>, freed: bool)
  {
    function Move(t: nat, p: Pc): State
      requires t < |threads|
    {
      this.(threads := threads[t := p])
    }

    function Now(): Round
    {
      if rounds == [] then Round({}, {}, {}) else rounds[|rounds| - 1]
    }

    function WithNow(r: Round): State
    {
      if rounds == [] then this else this.(rounds := rounds[|rounds| - 1 := r])
    }
  }

  datatype Action =
    | StartWait(t: nat)
    | TryDestroy(t: nat)
    | Go(t: nat)

  /** `initial` counts the threads of a round; pthread_barrier_init refuses zero. */
  function InitState(initial: nat, n: nat): State
  {
    State(initial, initial, 0, Free, seq(n, _ => Idle), [Round({}, {}, {})], false)
  }

  function StepWriting(s: State, t: nat, read: int): State
    requires t < |s.threads|
  {
    var r := s.Now();
    s.(current := read - 1)
     .WithNow(r.(entered := r.entered + {t}))
     .Move(t, if read - 1 == 0 then Transferring else Releasing)
  }

  function StepPosting(s: State, t: nat): State
    requires t < |s.threads|
  {
    s.(sem := s.sem + if s.initial > 1 then s.initial - 1 else 0).Move(t, Crossing)
  }

  function StepCrossing(s: State, t: nat): State
    requires t < |s.threads|
  {
    var r := s.Now();
    var s1 := s.(current := s.current + 1);
    if s.current + 1 == s.initial then
      s1.WithNow(r.(left := r.left + {t}, serial := r.serial + {t})).Move(t, ReleasingProxy)
    else
      s1.WithNow(r.(left := r.left + {t})).Move(t, Idle)
  }

  function StepGo(s: State, t: nat): Option<State>
    requires t < |s.threads|
  {
    match s.threads[t]
    case Idle => None
    case AtLock => if s.lock.Free? then Some(s.(lock := HeldBy(t)).Move(t, Reading)) else None
    case Reading => Some(s.Move(t, Writing(s.current)))
    case Writing(read) => Some(StepWriting(s, t, read))
    case Transferring => Some(s.(lock := Proxy).Move(t, Posting))
    case Posting => Some(StepPosting(s, t))
    case Releasing => Some(s.(lock := Free).Move(t, AtSem))
    case AtSem => if s.sem > 0 then Some(s.(sem := s.sem - 1).Move(t, Crossing)) else None
    case Crossing => Some(StepCrossing(s, t))
    case ReleasingProxy => Some(s.(lock := Free, rounds := s.rounds + [Round({}, {}, {})]).Move(t, Idle))
    case Destroying =>
      if s.current < s.initial then Some(s.(lock := Free).Move(t, Idle))      // EBUSY
      else Some(s.(lock := Free, freed := true).Move(t, Idle))
  }

  function Step(s: State, a: Action): Option<State>
  {
    if a.t >= |s.threads| || s.freed then None
    else match a
      case StartWait(t) => if s.threads[t].Idle? then Some(s.Move(t, AtLock)) else None
      case TryDestroy(t) =>
        if !s.threads[t].Idle? then None
        else if s.lock.Free? then Some(s.(lock := HeldBy(t)).Move(t, Destroying))
        else Some(s)                                                          // EBUSY
      case Go(t) => StepGo(s, t)
  }

  // ----- the invariant

  /** Came in during the round under way and has not gone out yet. */
  function Inside(p: Pc): nat
  {
    if p.Releasing? || p.AtSem? || p.Crossing? || p.Transferring? || p.Posting? then 1 else 0
  }

  function Sleeping(p: Pc): nat { if p.AtSem? then 1 else 0 }
  function Owing(p: Pc): nat { if p.Posting? then 1 else 0 }
  function Leaving(p: Pc): nat { if p.ReleasingProxy? then 1 else 0 }

  predicate HasLock(p: Pc)
  {
    p.Reading? || p.Writing? || p.Transferring? || p.Releasing? || p.Destroying?
  }

  predicate Complete(s: State, r: Round)
  {
    |r.entered| == s.initial && r.left == r.entered && |r.serial| == 1 && r.serial <= r.left
  }

  /** Fewer than all have come in: nobody is on the way out and no permit is about. */
  ghost predicate Filling(s: State)
  {
    && |s.Now().entered| < s.initial
    && s.current == s.initial - |s.Now().entered|
    && s.Now().left == {} && s.Now().serial == {} && s.sem == 0 && !s.lock.Proxy?
    && forall t :: 0 <= t < |s.threads| ==>
         var p := s.threads[t];
         !p.Transferring? && !p.Posting? && !p.Crossing? && !p.ReleasingProxy?
  }

  /** The last thread is in and has still to hand its lock over. */
  ghost predicate Full(s: State)
  {
    && |s.Now().entered| == s.initial && s.current == 0 && s.Now().left == {} && s.Now().serial == {} && s.sem == 0
    && s.lock.HeldBy?
    && s.lock.t < |s.threads| && s.threads[s.lock.t].Transferring?
    && forall t :: 0 <= t < |s.threads| && t != s.lock.t ==>
         var p := s.threads[t];
         p.Idle? || p.AtLock? || p.AtSem?
  }

  /** All are in, the barrier holds the lock, and the height counts those who are out. */
  ghost predicate Emptying(s: State)
  {
    && |s.Now().entered| == s.initial && s.lock.Proxy?
    && s.current == |s.Now().left|
    && s.sem + (if Sum(s.threads, Owing) > 0 then s.initial - 1 else 0) == Sum(s.threads, Sleeping)
    && Sum(s.threads, Owing) <= 1
    && Sum(s.threads, Leaving) == (if |s.Now().left| == s.initial then 1 else 0)
    && (if |s.Now().left| == s.initial then |s.Now().serial| == 1 && s.Now().serial <= s.Now().left
        else s.Now().serial == {})
  }

  ghost predicate ThreadOk(s: State, t: nat)
    requires t < |s.threads|
  {
    var p, r := s.threads[t], s.Now();
    && (HasLock(p) <==> s.lock == HeldBy(t))
    && (t in r.entered && t !in r.left <==> Inside(p) == 1)
    && (p.Writing? ==> p.read == s.current)
  }

  ghost predicate Inv(s: State)
  {
    && s.initial > 0 && s.rounds != []
    && (forall i :: 0 <= i < |s.rounds| - 1 ==> Complete(s, s.rounds[i]))
    && s.Now().left <= s.Now().entered
    && |s.Now().entered| == |s.Now().left| + Sum(s.threads, Inside)
    && (forall t :: 0 <= t < |s.threads| ==> ThreadOk(s, t))
    && (s.lock.HeldBy? ==> s.lock.t < |s.threads|)
    && (Filling(s) || Full(s) || Emptying(s))
  }

  lemma InitInv(initial: nat, n: nat)
    requires initial > 0
    ensures Inv(InitState(initial, n))
  {
    SumZero(InitState(initial, n).threads, Inside);
  }

  // ----- every step keeps it

  ghost predicate Moved(threads: seq<Pc>, t: nat, p: Pc, w: Pc -> nat)
    requires t < |threads|
  {
    Sum(threads[t := p], w) == Sum(threads, w) - w(threads[t]) + w(p) && Sum(threads, w) >= w(threads[t])
  }

  lemma SumsMoved(threads: seq<Pc>, t: nat, p: Pc)
    requires t < |threads|
    ensures Moved(threads, t, p, Inside) && Moved(threads, t, p, Sleeping)
    ensures Moved(threads, t, p, Owing) && Moved(threads, t, p, Leaving)
  {
    SumUpdate(threads, t, p, Inside);
    SumUpdate(threads, t, p, Sleeping);
    SumUpdate(threads, t, p, Owing);
    SumUpdate(threads, t, p, Leaving);
    SumAtLeast(threads, t, Inside);
    SumAtLeast(threads, t, Sleeping);
    SumAtLeast(threads, t, Owing);
    SumAtLeast(threads, t, Leaving);
  }

  /** What thread `t` does to the lock, the round and the height leaves the others as they should be. */
  lemma OthersStayOk(s: State, s': State, t: nat)
    requires Inv(s) && t < |s.threads| && |s'.threads| == |s.threads| && s'.threads == s.threads[t := s'.threads[t]]
    requires s'.lock == s.lock || (s'.lock in {Free, Proxy, HeldBy(t)} && s.lock in {Free, Proxy, HeldBy(t)})
    requires s'.Now().entered - {t} == s.Now().entered - {t} && s'.Now().left - {t} == s.Now().left - {t}
    requires s'.current == s.current || s.lock == HeldBy(t) || s.lock.Proxy?
    ensures forall u :: 0 <= u < |s'.threads| && u != t ==> ThreadOk(s', u)
  {
    forall u | 0 <= u < |s'.threads| && u != t ensures ThreadOk(s', u) {
      assert ThreadOk(s, u);
      assert u in s'.Now().entered <==> u in s'.Now().entered - {t};
      assert u in s.Now().entered <==> u in s.Now().entered - {t};
      assert u in s'.Now().left <==> u in s'.Now().left - {t};
      assert u in s.Now().left <==> u in s.Now().left - {t};
    }
  }

  lemma StartKeepsInv(s: State, t: nat)
    requires Inv(s) && t < |s.threads| && s.threads[t].Idle?
    ensures Inv(s.Move(t, AtLock))
  {
    assert ThreadOk(s, t);
    SumsMoved(s.threads, t, AtLock);
    OthersStayOk(s, s.Move(t, AtLock), t);
  }

  lemma TryDestroyKeepsInv(s: State, t: nat)
    requires Inv(s) && t < |s.threads| && s.threads[t].Idle? && s.lock.Free?
    ensures Inv(s.(lock := HeldBy(t)).Move(t, Destroying))
  {
    assert ThreadOk(s, t);
    SumsMoved(s.threads, t, Destroying);
    OthersStayOk(s, s.(lock := HeldBy(t)).Move(t, Destroying), t);
  }

  lemma DestroyingKeepsInv(s: State, t: nat)
    requires Inv(s) && t < |s.threads| && s.threads[t].Destroying?
    ensures Inv(StepGo(s, t).value)
  {
    assert ThreadOk(s, t);
    SumsMoved(s.threads, t, Idle);
    OthersStayOk(s, StepGo(s, t).value, t);
  }

  lemma ApproachKeepsInv(s: State, t: nat)
    requires Inv(s) && t < |s.threads| && StepGo(s, t).Some?
    requires s.threads[t].AtLock? || s.threads[t].Reading?
    ensures Inv(StepGo(s, t).value)
  {
    assert ThreadOk(s, t);
    SumsMoved(s.threads, t, StepGo(s, t).value.threads[t]);
    OthersStayOk(s, StepGo(s, t).value, t);
  }

  lemma WritingKeepsInv(s: State, t: nat)
    requires Inv(s) && t < |s.threads| && s.threads[t].Writing?
    ensures Inv(StepGo(s, t).value)
  {
    var s' := StepGo(s, t).value;
    assert ThreadOk(s, t) && t !in s.Now().entered;
    SumsMoved(s.threads, t, s'.threads[t]);
    OthersStayOk(s, s', t);
    assert |s'.Now().entered| == |s.Now().entered| + 1;
    assert ThreadOk(s', t);
    forall u | 0 <= u < |s.threads| && u != t && s'.threads[t].Transferring?
      ensures s.threads[u].Idle? || s.threads[u].AtLock? || s.threads[u].AtSem?
    {
      assert ThreadOk(s, u);
    }
  }

  lemma TransferringKeepsInv(s: State, t: nat)
    requires Inv(s) && t < |s.threads| && s.threads[t].Transferring?
    ensures Inv(StepGo(s, t).value)
  {
    var s' := StepGo(s, t).value;
    assert ThreadOk(s, t);
    SumsMoved(s.threads, t, Posting);
    OthersStayOk(s, s', t);
    SumAdd(s'.threads, Inside, Sleeping, Owing);
    SumOnlyAt(s'.threads, t, Owing);
    SumZero(s'.threads, Leaving);
    assert Emptying(s');
  }

  /** Out of the lock's hands: the barrier itself holds it. */
  lemma PostingKeepsInv(s: State, t: nat)
    requires Inv(s) && t < |s.threads| && s.threads[t].Posting?
    ensures Inv(StepGo(s, t).value)
  {
    var s' := StepGo(s, t).value;
    assert ThreadOk(s, t);
    SumsMoved(s.threads, t, Crossing);
    OthersStayOk(s, s', t);
    assert Emptying(s');
  }

  lemma ReleasingKeepsInv(s: State, t: nat)
    requires Inv(s) && t < |s.threads| && s.threads[t].Releasing?
    ensures Inv(StepGo(s, t).value)
  {
    var s' := StepGo(s, t).value;
    assert ThreadOk(s, t);
    SumsMoved(s.threads, t, AtSem);
    OthersStayOk(s, s', t);
    assert Filling(s');
  }

  lemma AtSemKeepsInv(s: State, t: nat)
    requires Inv(s) && t < |s.threads| && s.threads[t].AtSem? && StepGo(s, t).Some?
    ensures Inv(StepGo(s, t).value)
  {
    var s' := StepGo(s, t).value;
    assert ThreadOk(s, t);
    SumsMoved(s.threads, t, Crossing);
    OthersStayOk(s, s', t);
    assert Emptying(s');
  }

  lemma CrossingRound(s: State, t: nat)
    requires Inv(s) && t < |s.threads| && s.threads[t].Crossing?
    ensures var s', r := StepGo(s, t).value, s.Now();
            && s'.rounds == s.rounds[|s.rounds| - 1 := s'.Now()]
            && s'.Now().entered == r.entered && s'.Now().left == r.left + {t} && t !in r.left && t in r.entered
            && s'.Now().serial == (if s.current + 1 == s.initial then {t} else {})
            && |s'.Now().left| == |r.left| + 1
    ensures Emptying(s)
    ensures |s.Now().left| < s.initial
  {
    assert ThreadOk(s, t);
    SumAtLeast(s.threads, t, Inside);
  }

  lemma CrossingThreads(s: State, t: nat)
    requires Inv(s) && t < |s.threads| && s.threads[t].Crossing?
    ensures var s' := StepGo(s, t).value;
            && s'.threads == s.threads[t := s'.threads[t]] && Inside(s.threads[t]) == 1 && Inside(s'.threads[t]) == 0
            && forall u :: 0 <= u < |s'.threads| ==> ThreadOk(s', u)
  {
    var s' := StepGo(s, t).value;
    assert ThreadOk(s, t);
    CrossingRound(s, t);
    assert s.lock.Proxy?;
    hide Filling, Full, Emptying;
    OthersStayOk(s, s', t);
    assert ThreadOk(s', t);
  }

  lemma CrossingKeepsInv(s: State, t: nat)
    requires Inv(s) && t < |s.threads| && s.threads[t].Crossing?
    ensures Inv(StepGo(s, t).value)
  {
    var s' := StepGo(s, t).value;
    CrossingRound(s, t);
    CrossingEmptying(s, t);
    CrossingThreads(s, t);
    hide Filling, Full, Emptying, ThreadOk, Inside;
    SumUpdate(s.threads, t, s'.threads[t], Inside);
  }

  lemma CrossingEmptying(s: State, t: nat)
    requires Inv(s) && t < |s.threads| && s.threads[t].Crossing?
    ensures Emptying(StepGo(s, t).value)
  {
    CrossingRound(s, t);
    SumsMoved(s.threads, t, StepGo(s, t).value.threads[t]);
  }

  lemma ReleasingProxyKeepsInv(s: State, t: nat)
    requires Inv(s) && t < |s.threads| && s.threads[t].ReleasingProxy?
    ensures Inv(StepGo(s, t).value) && Complete(s, s.Now())
  {
    var s' := StepGo(s, t).value;
    assert ThreadOk(s, t);
    SumsMoved(s.threads, t, Idle);
    EqualByCount(s.Now().left, s.Now().entered);
    SumMonotone(s.threads, Sleeping, Inside);
    forall u | 0 <= u < |s.threads|
      ensures Inside(s'.threads[u]) == 0 && Leaving(s'.threads[u]) == 0 && ThreadOk(s', u)
    {
      assert ThreadOk(s, u);
      SumAtLeast(s.threads, u, Inside);
      if u != t {
        SumAtLeastTwo(s.threads, t, u, Leaving);
      }
    }
    assert Filling(s');
  }

  lemma EqualByCount(a: set<nat>, b: set<nat>)
    requires a <= b && |a| == |b|
    ensures a == b
  {
    assert |b - a| == |b| - |a|;
  }

  lemma StepKeepsInv(s: State, a: Action)
    requires Inv(s) && Step(s, a).Some?
    ensures Inv(Step(s, a).value)
  {
    if a.StartWait? {
      StartKeepsInv(s, a.t);
    } else if a.TryDestroy? {
      if s.lock.Free? {
        TryDestroyKeepsInv(s, a.t);
      }
    } else {
      match s.threads[a.t]
      case AtLock => ApproachKeepsInv(s, a.t);
      case Reading => ApproachKeepsInv(s, a.t);
      case Writing(_) => WritingKeepsInv(s, a.t);
      case Transferring => TransferringKeepsInv(s, a.t);
      case Posting => PostingKeepsInv(s, a.t);
      case Releasing => ReleasingKeepsInv(s, a.t);
      case AtSem => AtSemKeepsInv(s, a.t);
      case Crossing => CrossingKeepsInv(s, a.t);
      case ReleasingProxy => ReleasingProxyKeepsInv(s, a.t);
      case Destroying => DestroyingKeepsInv(s, a.t);
    }
  }

  lemma StepKeepsInitial(s: State, a: Action)
    requires Step(s, a).Some?
    ensures Step(s, a).value.initial == s.initial
  {
  }

  lemma {:induction false} RunKeepsInv(s: State, run: seq<Action>)
    requires Inv(s) && Exec(s, run, Step).Some?
    ensures Inv(Exec(s, run, Step).value) && Exec(s, run, Step).value.initial == s.initial
    decreases |run|
  {
    if run != [] {
      hide Inv, Step;
      StepKeepsInv(s, run[0]);
      StepKeepsInitial(s, run[0]);
      RunKeepsInv(Step(s, run[0]).value, run[1..]);
    }
  }

  ghost predicate Reachable(s: State, initial: nat, n: nat)
  {
    && initial > 0
    && exists run: seq<Action> :: Exec(InitState(initial, n), run, Step) == Some(s)
  }

  lemma ReachableInv(s: State, initial: nat, n: nat)
    requires Reachable(s, initial, n)
    ensures Inv(s) && s.initial == initial
  {
    var run: seq<Action> :| Exec(InitState(initial, n), run, Step) == Some(s);
    InitInv(initial, n);
    RunKeepsInv(InitState(initial, n), run);
  }

  // ----- main results

  /** Over any number of rounds: every finished round was entered by exactly the configured number of
      threads, the same threads left it, and one of them was the serial thread. In the round under
      way nobody has left before all have come in. */
  lemma RoundsAreExact(s: State, initial: nat, n: nat)
    requires Reachable(s, initial, n)
    ensures forall i :: 0 <= i < |s.rounds| - 1 ==>
              && |s.rounds[i].entered| == initial
              && s.rounds[i].left == s.rounds[i].entered
              && |s.rounds[i].serial| == 1 && s.rounds[i].serial <= s.rounds[i].left
    ensures s.Now().left <= s.Now().entered && |s.Now().entered| <= initial
    ensures s.Now().left != {} ==> |s.Now().entered| == initial
    ensures s.Now().serial != {} <==> |s.Now().left| == initial
  {
    ReachableInv(s, initial, n);
  }

  /** A thread comes into a new round only when everybody has left the last one: when it writes the
      height down, the round it joins is one that nobody has left yet and that has room. */
  lemma EntryWaitsForLastRound(s: State, initial: nat, n: nat, t: nat)
    requires Reachable(s, initial, n) && !s.freed && t < |s.threads| && s.threads[t].Writing?
    ensures s.Now().left == {} && |s.Now().entered| < initial && t !in s.Now().entered
    ensures Step(s, Go(t)).Some? && Step(s, Go(t)).value.Now().entered == s.Now().entered + {t}
  {
    ReachableInv(s, initial, n);
    assert ThreadOk(s, t);
  }

  /** The plain decrement of the height is never under way while a thread may increment it. */
  lemma DecrementNeverMeetsIncrement(s: State, initial: nat, n: nat, t: nat, u: nat)
    requires Reachable(s, initial, n) && t < |s.threads| && u < |s.threads|
    requires s.threads[t].Reading? || s.threads[t].Writing?
    ensures !s.threads[u].Crossing?
    ensures s.threads[t].Writing? ==> s.threads[t].read == s.current
  {
    ReachableInv(s, initial, n);
    assert ThreadOk(s, t);
  }

  /** A round starts with the height at its full value and no permit left over. */
  lemma RoundStartsClean(s: State, initial: nat, n: nat)
    requires Reachable(s, initial, n) && s.Now().entered == {}
    ensures s.sem == 0 && s.current == initial && s.Now().left == {}
  {
    ReachableInv(s, initial, n);
  }

  /** The return value: PTHREAD_BARRIER_SERIAL_THREAD goes to the thread that leaves last. */
  lemma SerialThreadLeavesLast(s: State, initial: nat, n: nat, t: nat)
    requires Reachable(s, initial, n) && !s.freed && t < |s.threads| && s.threads[t].Crossing?
    ensures Step(s, Go(t)).Some?
    ensures var s' := Step(s, Go(t)).value;
            s'.threads[t].ReleasingProxy? <==> s'.Now().left == s.Now().entered
  {
    ReachableInv(s, initial, n);
    assert ThreadOk(s, t);
    StepKeepsInv(s, Go(t));
    var s' := Step(s, Go(t)).value;
    assert s'.Now().entered == s.Now().entered;
    assert |s'.Now().left| == |s.Now().left| + 1;
    if |s'.Now().left| == initial {
      EqualByCount(s'.Now().left, s.Now().entered);
    }
  }

  /** Once a round is full it always goes on: no thread in it can be stuck. */
  lemma FullRoundMoves(s: State, initial: nat, n: nat) returns (t: nat)
    requires Reachable(s, initial, n) && !s.freed && |s.Now().entered| == initial
    ensures t < |s.threads| && Step(s, Go(t)).Some?
  {
    ReachableInv(s, initial, n);
    if s.lock.HeldBy? {
      t := s.lock.t;
    } else if Sum(s.threads, Leaving) > 0 {
      t := SumWitness(s.threads, Leaving);
    } else if Sum(s.threads, Owing) > 0 {
      t := SumWitness(s.threads, Owing);
    } else {
      t := SumWitness(s.threads, Inside);
      assert ThreadOk(s, t);
      SumAtLeast(s.threads, t, Sleeping);
    }
  }

  /** The longest path of library steps that a thread still has before it. */
  function StepsLeft(p: Pc): nat
  {
    match p
    case Idle => 0
    case AtLock => 8
    case Reading => 7
    case Writing(_) => 6
    case Transferring => 5
    case Posting => 4
    case Releasing => 4
    case AtSem => 3
    case Crossing => 2
    case ReleasingProxy => 1
    case Destroying => 1
  }

  lemma GoAdvances(s: State, t: nat)
    requires t < |s.threads| && StepGo(s, t).Some?
    ensures var s' := StepGo(s, t).value;
            && |s'.threads| == |s.threads| && s'.threads == s.threads[t := s'.threads[t]]
            && StepsLeft(s'.threads[t]) < StepsLeft(s.threads[t])
  {
  }

  ghost function Distance(s: State): nat { Sum(s.threads, StepsLeft) }

  /** Library steps cannot go on for ever without new calls. */
  lemma LibraryStepsRunOut(s: State, t: nat)
    requires Step(s, Go(t)).Some?
    ensures Distance(Step(s, Go(t)).value) < Distance(s)
  {
    GoAdvances(s, t);
    SumUpdate(s.threads, t, Step(s, Go(t)).value.threads[t], StepsLeft);
  }

  lemma FullRoundStep(s: State, t: nat)
    requires Inv(s) && !s.freed && |s.Now().entered| == s.initial && Step(s, Go(t)).Some?
    ensures var s' := Step(s, Go(t)).value;
            && !s'.freed && s'.initial == s.initial
            && (|s'.rounds| == |s.rounds| + 1 || (|s'.rounds| == |s.rounds| && |s'.Now().entered| == s.initial))
  {
    assert ThreadOk(s, t);
  }

  ghost predicate OnlyGo(run: seq<Action>) { forall i :: 0 <= i < |run| ==> run[i].Go? }

  /** A full round completes: from any state in which all have come in, library steps alone, at most as
      many as the threads have before them, bring everybody out and begin the next round. */
  lemma {:induction false} FullRoundCompletes(s: State, initial: nat, n: nat) returns (run: seq<Action>)
    requires Reachable(s, initial, n) && !s.freed && |s.Now().entered| == initial
    ensures OnlyGo(run) && |run| <= Distance(s)
    ensures Exec(s, run, Step).Some? && |Exec(s, run, Step).value.rounds| == |s.rounds| + 1
    decreases Distance(s)
  {
    ReachableInv(s, initial, n);
    var t := FullRoundMoves(s, initial, n);
    FullRoundStep(s, t);
    LibraryStepsRunOut(s, t);
    StepReachable(s, initial, n, Go(t));
    hide Reachable, Step, Inv, OnlyGo, Distance;
    var s' := Step(s, Go(t)).value;
    if |s'.rounds| == |s.rounds| + 1 {
      run := [Go(t)];
      assert OnlyGo(run);
      ExecTrace([s, s'], run, Step);
    } else {
      var rest := FullRoundCompletes(s', initial, n);
      run := [Go(t)] + rest;
      assert run[0] == Go(t) && run[1..] == rest;
      OnlyGoCons(t, rest);
    }
  }

  lemma OnlyGoCons(t: nat, rest: seq<Action>)
    requires OnlyGo(rest)
    ensures OnlyGo([Go(t)] + rest)
  {
  }

  lemma StepReachable(s: State, initial: nat, n: nat, a: Action)
    requires Reachable(s, initial, n) && Step(s, a).Some?
    ensures Reachable(Step(s, a).value, initial, n)
  {
    var run: seq<Action> :| Exec(InitState(initial, n), run, Step) == Some(s);
    ExecSplits(InitState(initial, n), run, [a], Step);
    assert Exec(InitState(initial, n), run + [a], Step) == Some(Step(s, a).value);
  }

  /** A thread can be kept from coming in only by a round that is already full, or by a lock owner
      that can itself move. */
  lemma EntryBlockedOnlyByOthers(s: State, initial: nat, n: nat, t: nat) returns (u: nat)
    requires Reachable(s, initial, n) && !s.freed && t < |s.threads| && s.threads[t].AtLock?
    ensures u < |s.threads| && Step(s, Go(u)).Some?
  {
    ReachableInv(s, initial, n);
    if s.lock.Free? {
      u := t;
    } else if s.lock.HeldBy? {
      u := s.lock.t;
      assert ThreadOk(s, u);
    } else {
      u := FullRoundMoves(s, initial, n);
    }
  }

  /** The destroyer that got the lock frees the barrier exactly when the round under way is empty,
      and then no thread is inside. */
  lemma DestroyOnlyWhenEmpty(s: State, initial: nat, n: nat, t: nat)
    requires Reachable(s, initial, n) && !s.freed && t < |s.threads| && s.threads[t].Destroying?
    ensures Step(s, Go(t)).Some?
    ensures Step(s, Go(t)).value.freed <==> s.Now().entered == {}
    ensures s.Now().entered == {} ==> forall u :: 0 <= u < |s.threads| ==> Inside(s.threads[u]) == 0
  {
    ReachableInv(s, initial, n);
    assert ThreadOk(s, t);
    forall u | 0 <= u < |s.threads| && s.Now().entered == {} ensures Inside(s.threads[u]) == 0 {
      assert ThreadOk(s, u);
    }
  }
}
