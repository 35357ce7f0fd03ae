/** What the MCS lock promises, for every run of any number of threads that mixes acquire,
    try-acquire, release, node transfer and hand-over. */
module McsTheorems {
  import opened Counting
  import opened Runs
  import opened McsLock
  import opened McsInvariant

  predicate Holding(p: Pc) { !p.Idle? && !Queued(p) }

  /** At most one thread holds the lock, and it is the one whose node heads the queue. */
  lemma HolderIsHead(s: State, n: nat, t: nat)
    requires Reachable(s, n) && t < |s.threads| && Holding(s.threads[t])
    ensures s.queue != [] && s.queue[0] == s.threads[t].node
    ensures forall u :: 0 <= u < |s.threads| && Holding(s.threads[u]) ==> u == t
  {
    ReachableInv(s, n);
    var k := PlaceOf(s, t);
    forall u | 0 <= u < |s.threads| && Holding(s.threads[u]) ensures u == t {
      var j := PlaceOf(s, u);
    }
  }

  /** Every written link agrees with the order of the tail exchanges. */
  lemma LinksFollowOrder(s: State, n: nat, i: nat)
    requires Reachable(s, n) && i < |s.queue|
    ensures s.queue[i] < |s.nodes|
    ensures var next := s.nodes[s.queue[i]].next;
            next.Some? ==> i + 1 < |s.queue| && next.value == s.queue[i + 1]
    ensures s.tail == Some(s.queue[|s.queue| - 1])
  {
    ReachableInv(s, n);
    assert LinkOk(s, i);
  }

  // ----- refinement of an abstract first-in-first-out lock

  /** The abstract moves of a thread that had the node `before` and then has `after`: it joins the end
      with a new node, leaves the front, puts a new node of its own in front for its old one, or does
      nothing to the queue. */
  predicate FifoStep(q: seq<nat>, q': seq<nat>, before: Option<nat>, after: Option<nat>)
  {
    || q' == q
    || (before.None? && after.Some? && after.value !in q && q' == q + [after.value])
    || (q != [] && before == Some(q[0]) && after.None? && q' == q[1..])
    || (q != [] && before == Some(q[0]) && after.Some? && after.value !in q && q' == [after.value] + q[1..])
  }

  lemma JoinIsFifo(s: State, a: Action)
    requires Inv(s) && Step(s, a).Some? && !a.Go?
    ensures a.t < |Step(s, a).value.threads|
    ensures FifoStep(s.queue, Step(s, a).value.queue, OwnNode(s.threads[a.t]), OwnNode(Step(s, a).value.threads[a.t]))
  {
    hide PlaceOk, LinkOk, HeadOk;
    assert |s.nodes| !in s.queue;
  }

  lemma ReplaceIsFifo(s: State, t: nat)
    requires Inv(s) && t < |s.threads| && StepGo(s, t).Some?
    requires s.threads[t].Copying? || (s.threads[t].Moving? && s.tail == Some(s.threads[t].node))
    ensures t < |StepGo(s, t).value.threads|
    ensures FifoStep(s.queue, StepGo(s, t).value.queue, OwnNode(s.threads[t]), OwnNode(StepGo(s, t).value.threads[t]))
  {
    var k := PlaceOf(s, t);
    assert Private(s, s.threads[t].to);
    MoveKeepsInv(s, t);
    hide PlaceOk, LinkOk, HeadOk;
  }

  lemma GoIsFifo(s: State, t: nat)
    requires Inv(s) && t < |s.threads| && StepGo(s, t).Some?
    requires !s.threads[t].Copying? && !(s.threads[t].Moving? && s.tail == Some(s.threads[t].node))
    ensures t < |StepGo(s, t).value.threads|
    ensures FifoStep(s.queue, StepGo(s, t).value.queue, OwnNode(s.threads[t]), OwnNode(StepGo(s, t).value.threads[t]))
  {
    var k := PlaceOf(s, t);
    assert s.threads[t].Passing? ==> k == 0;
    hide PlaceOk, LinkOk, HeadOk;
  }

  lemma RefinesFifoLock(s: State, n: nat, a: Action)
    requires Reachable(s, n) && Step(s, a).Some?
    ensures a.t < |Step(s, a).value.threads|
    ensures FifoStep(s.queue, Step(s, a).value.queue, OwnNode(s.threads[a.t]), OwnNode(Step(s, a).value.threads[a.t]))
  {
    ReachableInv(s, n);
    hide Inv, StepGo, FifoStep;
    if !a.Go? {
      JoinIsFifo(s, a);
    } else if s.threads[a.t].Copying? || (s.threads[a.t].Moving? && s.tail == Some(s.threads[a.t].node)) {
      ReplaceIsFifo(s, a.t);
    } else {
      GoIsFifo(s, a.t);
    }
  }

  /** Only the holder shortens or renames the queue, and the abstract owner changes with it. */
  lemma OnlyHolderLeaves(s: State, n: nat, a: Action)
    requires Reachable(s, n) && Step(s, a).Some? && s.queue != []
    requires Step(s, a).value.queue == [] || Step(s, a).value.queue[0] != s.queue[0]
    ensures a.Go? && Holding(s.threads[a.t]) && s.threads[a.t].node == s.queue[0]
  {
    ReachableInv(s, n);
    if a.Go? && !s.threads[a.t].Idle? {
      var k := PlaceOf(s, a.t);
    }
  }

  /** `try_acquire` takes the lock exactly when the queue is empty. */
  lemma TryAcquireIff(s: State, n: nat, t: nat)
    requires Reachable(s, n) && t < |s.threads| && s.threads[t].Idle?
    ensures Step(s, TryAcquire(t)).Some?
    ensures Step(s, TryAcquire(t)).value.threads[t].Held? <==> s.queue == []
  {
    ReachableInv(s, n);
  }

  // ----- the flag handshake

  /** A waiting thread gets the lock only after its predecessor has left the queue: `flag_wait` never
      returns early. */
  lemma WaitReturnsOnlyWhenGranted(s: State, n: nat, t: nat)
    requires Reachable(s, n) && t < |s.threads| && s.threads[t].Waiting?
    requires Step(s, Go(t)).Some? && Step(s, Go(t)).value.threads[t].Held?
    ensures s.queue != [] && s.queue[0] == s.threads[t].node
  {
    ReachableInv(s, n);
    var k := PlaceOf(s, t);
  }

  /** A thread that signals an event finds the event of a sleeping waiter, not signalled before and
      not closed. */
  lemma EventAliveWhenSignalled(s: State, n: nat, t: nat)
    requires Reachable(s, n) && t < |s.threads|
    ensures s.threads[t].Announcing? && s.threads[t].setting == Signal ==>
              s.threads[t].pred < |s.nodes| && s.nodes[s.threads[t].pred].nextFlag == Handle(false, false)
    ensures s.threads[t].Passing? && s.threads[t].setting == Signal ==>
              s.threads[t].next < |s.nodes| && s.nodes[s.threads[t].next].ready == Handle(false, false)
  {
    ReachableInv(s, n);
    if !s.threads[t].Idle? {
      var k := PlaceOf(s, t);
    }
  }

  /** After waiting for its successor the releasing thread finds it linked, never a null pointer. */
  lemma RereadFindsSuccessor(s: State, n: nat, t: nat)
    requires Reachable(s, n) && t < |s.threads| && s.threads[t].Rereading?
    ensures |s.queue| >= 2 && s.queue[0] < |s.nodes|
    ensures s.threads[t].node == s.queue[0] && s.nodes[s.queue[0]].next == Some(s.queue[1])
  {
    ReachableInv(s, n);
    var k := PlaceOf(s, t);
  }

  // ----- progress

  /** Unless the head of the queue simply holds the lock, some library step is enabled: no wakeup is
      lost between a releasing thread and its successor. */
  lemma SomeStepEnabled(s: State, n: nat) returns (t: nat)
    requires Reachable(s, n) && s.queue != []
    requires forall u :: 0 <= u < |s.threads| ==> !s.threads[u].Held?
    ensures Step(s, Go(t)).Some?
  {
    ReachableInv(s, n);
    t := s.nodes[s.queue[0]].owner;
    assert PlaceOk(s, 0) && LinkOk(s, 0);
    if Step(s, Go(t)).None? {
      t := s.nodes[s.queue[1]].owner;
      assert PlaceOk(s, 1) && LinkOk(s, 1);
    }
  }

  function WaitLeft(w: Wait): nat
  {
    match w
    case Look => 4
    case Store => 3
    case Block => 2
    case CloseShared => 1
    case ClosePrivate => 1
  }

  /** The longest path of library steps before the thread's call returns. */
  function StepsLeft(p: Pc): nat
  {
    match p
    case Idle => 0
    case Held(_) => 0
    case Linking(_, _) => 7
    case Announcing(_, _, g) => if g == TrySet then 6 else 5
    case Waiting(_, w) => WaitLeft(w)
    case Reading(_) => 9
    case Swapping(_) => 8
    case AwaitingLink(_, w) => 3 + WaitLeft(w)
    case Rereading(_) => 3
    case Passing(_, _, g) => if g == TrySet then 2 else 1
    case Moving(_, _) => 3
    case Spinning(_, _) => 2
    case Copying(_, _) => 1
  }

  lemma GoAdvances(s: State, t: nat)
    requires t < |s.threads| && StepGo(s, t).Some?
    ensures var s' := StepGo(s, t).value;
            && |s'.threads| == |s.threads| && s'.threads == s.threads[t := s'.threads[t]]
            && StepsLeft(s'.threads[t]) < StepsLeft(s.threads[t])
  {
  }

  /** Library steps cannot go on forever without new calls, so together with the above every waiter
      comes to hold the lock if each holder releases it. */
  lemma LibraryStepsRunOut(s: State, t: nat)
    requires Step(s, Go(t)).Some?
    ensures Sum(Step(s, Go(t)).value.threads, StepsLeft) < Sum(s.threads, StepsLeft)
  {
    GoAdvances(s, t);
    SumUpdate(s.threads, t, Step(s, Go(t)).value.threads[t], StepsLeft);
  }
}
