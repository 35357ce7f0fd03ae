/** What every reachable state of the MCS lock satisfies. */
module McsInvariant {
  import opened Runs
  import opened McsLock

  // ----- the handshake on one flag: one setter, one waiter

  datatype SetPhase = NotYet | GotHandle | Done

  datatype WaitPhase = Before | During(wait: Wait) | After

  /** Every state the three can be in together. */
  predicate FlagOk(f: Flag, g: SetPhase, w: WaitPhase)
  {
    match g
    case NotYet =>
      || (f == Clear && w in {Before, During(Look), During(Store)})
      || (f == Handle(false, false) && w == During(Block))
    case GotHandle => f == Handle(false, false) && w == During(Block)
    case Done =>
      || (f == Set && w in {Before, During(Look), During(Store), During(ClosePrivate), After})
      || (f == Handle(true, false) && w == During(Block))
      || (f == Handle(false, false) && w == During(CloseShared))
      || (f == Handle(false, true) && w == After)
  }

  // ----- the queue

  function OwnNode(p: Pc): Option<nat>
  {
    if p.Idle? then None else Some(p.node)
  }

  predicate Queued(p: Pc) { p.Linking? || p.Announcing? || p.Waiting? }

  predicate Wellformed(s: State)
  {
    && (forall i :: 0 <= i < |s.queue| ==> s.queue[i] < |s.nodes|)
    && (forall n :: 0 <= n < |s.nodes| ==> s.nodes[n].owner < |s.threads|)
  }

  /** The program point of the thread at place `i` of the queue. */
  function At(s: State, i: nat): Pc
    requires Wellformed(s) && i < |s.queue|
  {
    s.threads[s.nodes[s.queue[i]].owner]
  }

  /** The queue lists exactly the nodes in use, once each, and ends at the tail. */
  ghost predicate QueueOk(s: State)
  {
    && Wellformed(s)
    && (forall i, j :: 0 <= i < j < |s.queue| ==> s.queue[i] != s.queue[j])
    && (forall i :: 0 <= i < |s.queue| ==> OwnNode(At(s, i)) == Some(s.queue[i]))
    && (forall t :: 0 <= t < |s.threads| && !s.threads[t].Idle? ==>
          s.threads[t].node in s.queue && s.nodes[s.threads[t].node].owner == t)
    && s.tail == (if s.queue == [] then None else Some(s.queue[|s.queue| - 1]))
  }

  /** How far the thread at place `i - 1` has got with setting the ready flag of place `i`. */
  function ReadySetter(s: State, i: nat): SetPhase
    requires Wellformed(s) && i < |s.queue|
  {
    if i == 0 then Done
    else if At(s, i - 1).Passing? && At(s, i - 1).setting == Signal then GotHandle
    else NotYet
  }

  function ReadyWaiter(p: Pc): WaitPhase
  {
    if p.Linking? || p.Announcing? then Before
    else if p.Waiting? then During(p.wait)
    else After
  }

  /** How far the thread at place `i` has got with setting the next flag of place `i - 1`. */
  function NextSetter(s: State, i: nat): SetPhase
    requires Wellformed(s)
  {
    if i >= |s.queue| || At(s, i).Linking? then NotYet
    else if At(s, i).Announcing? then if At(s, i).setting == Signal then GotHandle else NotYet
    else Done
  }

  /** A predecessor that has left, or given its hold to another node, left its next flag clear for
      the thread that has still to set it. */
  ghost predicate PredOk(s: State, i: nat)
    requires Wellformed(s) && i < |s.queue|
  {
    var p := At(s, i);
    && (p.Linking? ==> i >= 1 && p.pred == s.queue[i - 1])
    && (p.Announcing? ==>
          if i >= 1 && !s.nodes[s.queue[i - 1]].moved then p.pred == s.queue[i - 1]
          else p.pred < |s.nodes| && p.pred !in s.queue && p.setting == TrySet && s.nodes[p.pred].nextFlag == Clear)
  }

  /** A node in its place: only the first can hold the lock, and the rest wait for it. */
  ghost predicate PlaceOk(s: State, i: nat)
    requires Wellformed(s) && i < |s.queue|
  {
    var p := At(s, i);
    && (i >= 1 ==> Queued(p))
    && PredOk(s, i)
    && (Queued(p) ==> FlagOk(s.nodes[s.queue[i]].ready, ReadySetter(s, i), ReadyWaiter(p)))
    && (s.nodes[s.queue[i]].moved ==> i == 0)
  }

  /** A node and its successor: the link is written as soon as the successor has written it, and the
      flag that announces it is in step with both. */
  ghost predicate LinkOk(s: State, i: nat)
    requires Wellformed(s) && i < |s.queue|
  {
    var node, p := s.nodes[s.queue[i]], At(s, i);
    && node.next == (if i + 1 < |s.queue| && !At(s, i + 1).Linking? then Some(s.queue[i + 1]) else None)
    && (node.moved ==> node.next.Some? && !Queued(p) && !p.Swapping? && !p.AwaitingLink? && !p.Rereading?)
    && (!node.moved ==>
          match p
          case AwaitingLink(_, w) => FlagOk(node.nextFlag, NextSetter(s, i + 1), During(w))
          case Rereading(_) => FlagOk(node.nextFlag, NextSetter(s, i + 1), After)
          case Passing(_, _, _) =>
            || FlagOk(node.nextFlag, NextSetter(s, i + 1), Before)
            || FlagOk(node.nextFlag, NextSetter(s, i + 1), After)
          case _ => FlagOk(node.nextFlag, NextSetter(s, i + 1), Before))
  }

  /** A node prepared for a transfer is still private to it. */
  ghost predicate Private(s: State, m: nat)
    requires Wellformed(s)
  {
    && m < |s.nodes| && m !in s.queue
    && s.nodes[m].next == None && s.nodes[m].nextFlag == Clear && !s.nodes[m].moved
    && forall i :: 0 <= i < |s.queue| && At(s, i).Announcing? ==> At(s, i).pred != m
  }

  ghost predicate HeadOk(s: State)
    requires Wellformed(s)
  {
    s.queue != [] ==>
      var p := At(s, 0);
      && (p.AwaitingLink? || p.Spinning? ==> |s.queue| >= 2)
      && (p.Passing? || p.Copying? || p.Rereading? ==> s.nodes[s.queue[0]].next.Some?)
      && (p.Passing? ==> s.nodes[s.queue[0]].next == Some(p.next))
      && (p.Moving? || p.Spinning? || p.Copying? ==>
            Private(s, p.to) && s.nodes[p.to].owner == s.nodes[s.queue[0]].owner)
  }

  ghost predicate Inv(s: State)
  {
    && QueueOk(s)
    && (forall i :: 0 <= i < |s.queue| ==> PlaceOk(s, i))
    && (forall i :: 0 <= i < |s.queue| ==> LinkOk(s, i))
    && HeadOk(s)
  }

  lemma InitInv(n: nat)
    ensures Inv(InitState(n))
  {
  }

  // ----- steps that leave the queue as it is

  /** The place of a thread that uses the lock. */
  lemma PlaceOf(s: State, t: nat) returns (k: nat)
    requires Inv(s) && t < |s.threads| && !s.threads[t].Idle?
    ensures k < |s.queue| && s.queue[k] == s.threads[t].node && s.nodes[s.queue[k]].owner == t
    ensures At(s, k) == s.threads[t] && PlaceOk(s, k) && LinkOk(s, k)
    ensures k >= 1 ==> PlaceOk(s, k - 1) && LinkOk(s, k - 1)
    ensures k + 1 < |s.queue| ==> PlaceOk(s, k + 1) && LinkOk(s, k + 1)
    ensures !Queued(s.threads[t]) ==> k == 0
  {
    k :| 0 <= k < |s.queue| && s.queue[k] == s.threads[t].node;
  }

  /** From `s` to `s'` only the thread at place `k` moved, and it kept its node; of the nodes it
      changed at most its own, its neighbours, and the next flag of its predecessor. */
  ghost predicate Inner(s: State, s': State, k: nat)
    requires Wellformed(s) && k < |s.queue|
  {
    var t := s.nodes[s.queue[k]].owner;
    && s'.queue == s.queue && s'.tail == s.tail
    && |s'.threads| == |s.threads| && s'.threads == s.threads[t := s'.threads[t]]
    && OwnNode(s'.threads[t]) == Some(s.queue[k])
    && |s'.nodes| == |s.nodes|
    && (forall n :: 0 <= n < |s.nodes| ==>
          && s'.nodes[n].owner == s.nodes[n].owner && s'.nodes[n].moved == s.nodes[n].moved
          && (k == 0 || n != s.queue[k - 1] ==> s'.nodes[n].next == s.nodes[n].next)
          && (n != s.queue[k] && (k + 1 >= |s.queue| || n != s.queue[k + 1]) ==> s'.nodes[n].ready == s.nodes[n].ready)
          && (n != s.queue[k] && (!At(s, k).Announcing? || n != At(s, k).pred) ==>
                s'.nodes[n].nextFlag == s.nodes[n].nextFlag))
  }

  /** What a step at place `k` must leave behind there. */
  ghost predicate LocalOk(s: State, k: nat)
  {
    && Wellformed(s) && k < |s.queue|
    && PlaceOk(s, k) && LinkOk(s, k)
    && (k >= 1 ==> LinkOk(s, k - 1))
    && (k + 1 < |s.queue| ==> PlaceOk(s, k + 1))
  }

  lemma InnerAt(s: State, s': State, k: nat)
    requires Inv(s) && k < |s.queue| && Inner(s, s', k)
    ensures QueueOk(s')
    ensures forall i :: 0 <= i < |s.queue| && i != k ==> At(s', i) == At(s, i)
  {
    hide PlaceOk, LinkOk, HeadOk;
    var t := s.nodes[s.queue[k]].owner;
    forall i | 0 <= i < |s.queue| && i != k ensures At(s', i) == At(s, i) && s.nodes[s.queue[i]].owner != t {
      assert OwnNode(At(s, i)) == Some(s.queue[i]);
      assert OwnNode(At(s, k)) == Some(s.queue[k]);
    }
  }

  /** At most one thread still has to announce itself to a node that is out of the queue. */
  lemma RetiredPred(s: State, i: nat, k: nat)
    requires Inv(s) && i < |s.queue| && k < |s.queue| && i != k
    requires At(s, i).Announcing? && At(s, k).Announcing?
    ensures At(s, i).pred != At(s, k).pred
  {
    assert PlaceOk(s, i) && PlaceOk(s, k) && PlaceOk(s, 0) && LinkOk(s, 0);
    assert i >= 1 ==> PlaceOk(s, i - 1);
    assert k >= 1 ==> PlaceOk(s, k - 1);
  }

  lemma InnerPlace(s: State, s': State, k: nat, i: nat)
    requires Wellformed(s) && k < |s.queue| && Inner(s, s', k) && Wellformed(s')
    requires i < |s.queue| && i != k && i != k + 1 && PlaceOk(s, i)
    requires At(s', i) == At(s, i) && (i >= 1 ==> At(s', i - 1) == At(s, i - 1))
    requires s.queue[i] != s.queue[k] && (k + 1 < |s.queue| ==> s.queue[i] != s.queue[k + 1])
    requires At(s, i).Announcing? && At(s, k).Announcing? ==> At(s, i).pred != At(s, k).pred
    ensures PlaceOk(s', i)
  {
  }

  lemma InnerLink(s: State, s': State, k: nat, i: nat)
    requires Wellformed(s) && k < |s.queue| && Inner(s, s', k) && Wellformed(s')
    requires i < |s.queue| && i != k && i + 1 != k && LinkOk(s, i) && PredOk(s, k)
    requires At(s', i) == At(s, i) && (i + 1 < |s.queue| ==> At(s', i + 1) == At(s, i + 1))
    requires s.queue[i] != s.queue[k] && (k >= 1 ==> s.queue[i] != s.queue[k - 1])
    ensures LinkOk(s', i)
  {
    assert s'.nodes[s.queue[i]].next == s.nodes[s.queue[i]].next;
    assert s'.nodes[s.queue[i]].nextFlag == s.nodes[s.queue[i]].nextFlag;
  }

  lemma InnerPlaces(s: State, s': State, k: nat)
    requires Inv(s) && k < |s.queue| && Inner(s, s', k) && LocalOk(s', k) && QueueOk(s')
    requires s'.queue == s.queue && forall i :: 0 <= i < |s.queue| && i != k ==> At(s', i) == At(s, i)
    ensures forall i :: 0 <= i < |s.queue| ==> PlaceOk(s', i)
  {
    hide PlaceOk, LinkOk, HeadOk, Inner;
    forall i | 0 <= i < |s.queue| && i != k && i != k + 1 ensures PlaceOk(s', i) {
      assert PlaceOk(s, i);
      if At(s, i).Announcing? && At(s, k).Announcing? {
        RetiredPred(s, i, k);
      }
      InnerPlace(s, s', k, i);
    }
  }

  lemma InnerLinks(s: State, s': State, k: nat)
    requires Inv(s) && k < |s.queue| && Inner(s, s', k) && LocalOk(s', k) && QueueOk(s')
    requires s'.queue == s.queue && forall i :: 0 <= i < |s.queue| && i != k ==> At(s', i) == At(s, i)
    ensures forall i :: 0 <= i < |s.queue| ==> LinkOk(s', i)
  {
    assert PlaceOk(s, k) && PredOk(s, k);
    hide PlaceOk, LinkOk, HeadOk, PredOk, Inner, OwnNode;
    assert LinkOk(s', k) && (k >= 1 ==> LinkOk(s', k - 1));
    forall i | 0 <= i < |s.queue| && i != k && i + 1 != k ensures LinkOk(s', i) {
      assert LinkOk(s, i) && s.queue[i] != s.queue[k] && (k >= 1 ==> s.queue[i] != s.queue[k - 1]);
      InnerLink(s, s', k, i);
    }
    hide Inv, QueueOk, LocalOk;
  }

  lemma InnerKeepsInv(s: State, s': State, k: nat)
    requires Inv(s) && k < |s.queue| && Inner(s, s', k) && LocalOk(s', k)
    requires HeadOk(s')
    ensures Inv(s')
  {
    hide PlaceOk, LinkOk, HeadOk;
    InnerAt(s, s', k);
    InnerPlaces(s, s', k);
    InnerLinks(s, s', k);
  }

  /** A step behind the holder does not disturb it. */
  lemma InnerHead(s: State, s': State, k: nat)
    requires Inv(s) && 0 < k < |s.queue| && Inner(s, s', k) && Wellformed(s')
    requires At(s', k).Announcing? ==> (At(s, k).Announcing? || At(s, k).Linking?) && At(s', k).pred == At(s, k).pred
    requires s'.nodes[s.queue[0]].next.Some? || s'.nodes[s.queue[0]].next == s.nodes[s.queue[0]].next
    requires s.nodes[s.queue[0]].next.Some? ==> s'.nodes[s.queue[0]].next == s.nodes[s.queue[0]].next
    ensures HeadOk(s')
  {
    InnerAt(s, s', k);
    assert PlaceOk(s, k);
    var p := At(s, 0);
    if p.Moving? || p.Spinning? || p.Copying? {
      forall i | 0 <= i < |s.queue| && At(s', i).Announcing? ensures At(s', i).pred != p.to {
        assert i != k ==> At(s', i) == At(s, i);
      }
    }
  }


  /** What one step at place `k` may see of its neighbourhood. */
  ghost predicate Window(s: State, s': State, k: nat)
  {
    && Wellformed(s) && Wellformed(s') && s'.queue == s.queue && |s'.nodes| == |s.nodes| && k < |s.queue|
    && OwnNode(At(s, k)) == Some(s.queue[k])
    && PlaceOk(s, k) && LinkOk(s, k)
    && (k >= 1 ==>
          && PlaceOk(s, k - 1) && LinkOk(s, k - 1)
          && At(s', k - 1) == At(s, k - 1) && s.queue[k - 1] != s.queue[k])
    && (k + 1 < |s.queue| ==>
          && PlaceOk(s, k + 1) && OwnNode(At(s, k + 1)) == Some(s.queue[k + 1])
          && At(s', k + 1) == At(s, k + 1) && s.queue[k + 1] != s.queue[k]
          && (k >= 1 ==> s.queue[k + 1] != s.queue[k - 1]))
  }

  lemma WindowOpens(s: State, s': State, k: nat)
    requires Inv(s) && k < |s.queue| && Inner(s, s', k)
    ensures Window(s, s', k)
  {
    InnerAt(s, s', k);
    assert OwnNode(At(s, k)) == Some(s.queue[k]);
    assert PlaceOk(s, k) && LinkOk(s, k);
    if k >= 1 {
      assert PlaceOk(s, k - 1) && LinkOk(s, k - 1);
    }
    if k + 1 < |s.queue| {
      assert PlaceOk(s, k + 1) && OwnNode(At(s, k + 1)) == Some(s.queue[k + 1]);
    }
  }

  lemma LinkingLocal(s: State, s': State, t: nat, k: nat)
    requires Window(s, s', k) && s.nodes[s.queue[k]].owner == t
    requires t < |s.threads| && s.threads[t].Linking? && StepGo(s, t) == Some(s')
    ensures LocalOk(s', k)
  {
  }

  lemma LinkingInner(s: State, t: nat, k: nat)
    requires Inv(s) && t < |s.threads| && s.threads[t].Linking? && StepGo(s, t).Some?
    requires k < |s.queue| && s.nodes[s.queue[k]].owner == t && At(s, k) == s.threads[t] && PlaceOk(s, k)
    ensures Inner(s, StepGo(s, t).value, k)
  {
  }

  lemma AnnouncingLocal(s: State, s': State, t: nat, k: nat)
    requires Window(s, s', k) && s.nodes[s.queue[k]].owner == t
    requires t < |s.threads| && s.threads[t].Announcing? && StepGo(s, t) == Some(s')
    ensures LocalOk(s', k)
  {
  }

  lemma AnnouncingInner(s: State, t: nat, k: nat)
    requires Inv(s) && t < |s.threads| && s.threads[t].Announcing? && StepGo(s, t).Some?
    requires k < |s.queue| && s.nodes[s.queue[k]].owner == t && At(s, k) == s.threads[t] && PlaceOk(s, k)
    ensures Inner(s, StepGo(s, t).value, k)
  {
  }

  lemma WaitingLocal(s: State, s': State, t: nat, k: nat)
    requires Window(s, s', k) && s.nodes[s.queue[k]].owner == t
    requires t < |s.threads| && s.threads[t].Waiting? && StepGo(s, t) == Some(s')
    ensures LocalOk(s', k)
  {
  }

  lemma WaitingInner(s: State, t: nat, k: nat)
    requires Inv(s) && t < |s.threads| && s.threads[t].Waiting? && StepGo(s, t).Some?
    requires k < |s.queue| && s.nodes[s.queue[k]].owner == t && At(s, k) == s.threads[t] && PlaceOk(s, k)
    ensures Inner(s, StepGo(s, t).value, k)
  {
  }

  lemma ReadingLocal(s: State, s': State, t: nat, k: nat)
    requires Window(s, s', k) && s.nodes[s.queue[k]].owner == t
    requires t < |s.threads| && s.threads[t].Reading? && StepGo(s, t) == Some(s')
    ensures LocalOk(s', k)
  {
  }

  lemma ReadingInner(s: State, t: nat, k: nat)
    requires Inv(s) && t < |s.threads| && s.threads[t].Reading? && StepGo(s, t).Some?
    requires k < |s.queue| && s.nodes[s.queue[k]].owner == t && At(s, k) == s.threads[t] && PlaceOk(s, k)
    ensures Inner(s, StepGo(s, t).value, k)
  {
  }

  lemma AwaitingLinkLocal(s: State, s': State, t: nat, k: nat)
    requires Window(s, s', k) && s.nodes[s.queue[k]].owner == t
    requires t < |s.threads| && s.threads[t].AwaitingLink? && StepGo(s, t) == Some(s')
    ensures LocalOk(s', k)
  {
  }

  lemma AwaitingLinkInner(s: State, t: nat, k: nat)
    requires Inv(s) && t < |s.threads| && s.threads[t].AwaitingLink? && StepGo(s, t).Some?
    requires k < |s.queue| && s.nodes[s.queue[k]].owner == t && At(s, k) == s.threads[t] && PlaceOk(s, k)
    ensures Inner(s, StepGo(s, t).value, k)
  {
  }

  lemma RereadingLocal(s: State, s': State, t: nat, k: nat)
    requires Window(s, s', k) && s.nodes[s.queue[k]].owner == t
    requires t < |s.threads| && s.threads[t].Rereading? && StepGo(s, t) == Some(s')
    ensures LocalOk(s', k)
  {
  }

  lemma RereadingInner(s: State, t: nat, k: nat)
    requires Inv(s) && t < |s.threads| && s.threads[t].Rereading? && StepGo(s, t).Some?
    requires k < |s.queue| && s.nodes[s.queue[k]].owner == t && At(s, k) == s.threads[t] && PlaceOk(s, k)
    ensures Inner(s, StepGo(s, t).value, k)
  {
  }

  lemma SpinningLocal(s: State, s': State, t: nat, k: nat)
    requires Window(s, s', k) && s.nodes[s.queue[k]].owner == t
    requires t < |s.threads| && s.threads[t].Spinning? && StepGo(s, t) == Some(s')
    ensures LocalOk(s', k)
  {
  }

  lemma SpinningInner(s: State, t: nat, k: nat)
    requires Inv(s) && t < |s.threads| && s.threads[t].Spinning? && StepGo(s, t).Some?
    requires k < |s.queue| && s.nodes[s.queue[k]].owner == t && At(s, k) == s.threads[t] && PlaceOk(s, k)
    ensures Inner(s, StepGo(s, t).value, k)
  {
  }

  /** The program points whose steps leave the queue as it is. */
  predicate Stays(p: Pc)
  {
    p.Linking? || p.Announcing? || p.Waiting? || p.Reading? || p.AwaitingLink? || p.Rereading? || p.Spinning?
  }

  lemma StaysInner(s: State, t: nat, k: nat)
    requires Inv(s) && t < |s.threads| && Stays(s.threads[t]) && StepGo(s, t).Some?
    requires k < |s.queue| && s.nodes[s.queue[k]].owner == t && At(s, k) == s.threads[t] && PlaceOk(s, k)
    ensures Inner(s, StepGo(s, t).value, k)
  {
    var p := s.threads[t];
    if p.Linking? {
      LinkingInner(s, t, k);
    } else if p.Announcing? {
      AnnouncingInner(s, t, k);
    } else if p.Waiting? {
      WaitingInner(s, t, k);
    } else if p.Reading? {
      ReadingInner(s, t, k);
    } else if p.AwaitingLink? {
      AwaitingLinkInner(s, t, k);
    } else if p.Rereading? {
      RereadingInner(s, t, k);
    } else {
      SpinningInner(s, t, k);
    }
  }

  lemma StaysLocal(s: State, s': State, t: nat, k: nat)
    requires Window(s, s', k) && s.nodes[s.queue[k]].owner == t
    requires t < |s.threads| && Stays(s.threads[t]) && StepGo(s, t) == Some(s')
    ensures LocalOk(s', k)
  {
    var p := s.threads[t];
    if p.Linking? {
      LinkingLocal(s, s', t, k);
    } else if p.Announcing? {
      AnnouncingLocal(s, s', t, k);
    } else if p.Waiting? {
      WaitingLocal(s, s', t, k);
    } else if p.Reading? {
      ReadingLocal(s, s', t, k);
    } else if p.AwaitingLink? {
      AwaitingLinkLocal(s, s', t, k);
    } else if p.Rereading? {
      RereadingLocal(s, s', t, k);
    } else {
      SpinningLocal(s, s', t, k);
    }
  }

  lemma StaysKeepsInv(s: State, t: nat)
    requires Inv(s) && t < |s.threads| && Stays(s.threads[t]) && StepGo(s, t).Some?
    ensures Inv(StepGo(s, t).value)
  {
    var k := PlaceOf(s, t);
    var s' := StepGo(s, t).value;
    StaysInner(s, t, k);
    WindowOpens(s, s', k);
    StaysLocal(s, s', t, k);
    GoHead(s, t, k);
    InnerKeepsInv(s, s', k);
  }

  lemma GoHead(s: State, t: nat, k: nat)
    requires Inv(s) && t < |s.threads| && StepGo(s, t).Some?
    requires k < |s.queue| && s.nodes[s.queue[k]].owner == t && At(s, k) == s.threads[t]
    requires OwnNode(At(s, k)) == Some(s.queue[k]) && PlaceOk(s, k) && LinkOk(s, k)
    requires k >= 1 ==> LinkOk(s, k - 1)
    requires Inner(s, StepGo(s, t).value, k) && LocalOk(StepGo(s, t).value, k)
    requires Stays(s.threads[t])
    ensures HeadOk(StepGo(s, t).value)
  {
    var s' := StepGo(s, t).value;
    if k > 0 {
      InnerHead(s, s', k);
    } else if s.threads[t].Spinning? {
      SpinningHead(s, t, k);
    }
  }

  lemma SpinningHead(s: State, t: nat, k: nat)
    requires Inv(s) && t < |s.threads| && StepGo(s, t).Some? && s.threads[t].Spinning?
    requires k == 0 && k < |s.queue| && s.nodes[s.queue[k]].owner == t && At(s, k) == s.threads[t]
    requires Inner(s, StepGo(s, t).value, k)
    ensures HeadOk(StepGo(s, t).value)
  {
    var s' := StepGo(s, t).value;
    hide PlaceOk, LinkOk;
    InnerAt(s, s', k);
    forall i | 0 <= i < |s.queue| && At(s', i).Announcing? ensures At(s', i).pred != s.threads[t].to {
      assert i != k ==> At(s', i) == At(s, i);
    }
  }

  // ----- the tail exchanges that meet a successor

  lemma FailedSwapInner(s: State, t: nat, k: nat)
    requires Inv(s) && t < |s.threads| && (s.threads[t].Swapping? || s.threads[t].Moving?)
    requires s.tail != Some(s.threads[t].node)
    requires k < |s.queue| && s.nodes[s.queue[k]].owner == t && At(s, k) == s.threads[t]
    ensures StepGo(s, t).Some? && Inner(s, StepGo(s, t).value, k)
  {
    assert OwnNode(At(s, k)) == Some(s.queue[k]);
  }

  lemma FailedSwapHead(s: State, t: nat)
    requires Inv(s) && t < |s.threads| && (s.threads[t].Swapping? || s.threads[t].Moving?)
    requires s.tail != Some(s.threads[t].node) && StepGo(s, t).Some?
    requires s.queue != [] && s.nodes[s.queue[0]].owner == t && At(s, 0) == s.threads[t]
    requires Inner(s, StepGo(s, t).value, 0)
    ensures HeadOk(StepGo(s, t).value)
  {
    var s' := StepGo(s, t).value;
    hide PlaceOk, LinkOk;
    InnerAt(s, s', 0);
    assert OwnNode(At(s, 0)) == Some(s.queue[0]);
    if s.threads[t].Moving? {
      forall i | 0 <= i < |s.queue| && At(s', i).Announcing? ensures At(s', i).pred != s.threads[t].to {
        assert i != 0 ==> At(s', i) == At(s, i);
      }
    }
  }

  lemma FailedSwapKeepsInv(s: State, t: nat)
    requires Inv(s) && t < |s.threads| && (s.threads[t].Swapping? || s.threads[t].Moving?)
    requires s.tail != Some(s.threads[t].node)
    ensures StepGo(s, t).Some? && Inv(StepGo(s, t).value)
  {
    var k := PlaceOf(s, t);
    var s' := StepGo(s, t).value;
    FailedSwapInner(s, t, k);
    WindowOpens(s, s', k);
    FailedSwapLocal(s, s', t, k);
    FailedSwapHead(s, t);
    InnerKeepsInv(s, s', k);
  }

  lemma FailedSwapLocal(s: State, s': State, t: nat, k: nat)
    requires Window(s, s', k) && s.nodes[s.queue[k]].owner == t
    requires t < |s.threads| && (s.threads[t].Swapping? || s.threads[t].Moving?) && StepGo(s, t) == Some(s')
    requires s.tail != Some(s.threads[t].node)
    ensures LocalOk(s', k)
  {
  }

  lemma PassingSignalKeepsInv(s: State, t: nat)
    requires Inv(s) && t < |s.threads| && s.threads[t].Passing? && StepGo(s, t).Some?
    requires StepGo(s, t).value.threads[t].Passing?
    ensures Inv(StepGo(s, t).value)
  {
    var k := PlaceOf(s, t);
    var s' := StepGo(s, t).value;
    assert Inner(s, s', k);
    WindowOpens(s, s', k);
    PassingSignalLocal(s, s', t, k);
    InnerAt(s, s', k);
    assert HeadOk(s');
    InnerKeepsInv(s, s', k);
  }

  lemma PassingSignalLocal(s: State, s': State, t: nat, k: nat)
    requires Window(s, s', k) && s.nodes[s.queue[k]].owner == t
    requires t < |s.threads| && s.threads[t].Passing? && StepGo(s, t) == Some(s') && s'.threads[t].Passing?
    requires s.nodes[s.queue[k]].next == Some(s.threads[t].next)
    ensures LocalOk(s', k)
  {
  }

  lemma ReleaseKeepsInv(s: State, t: nat)
    requires Inv(s) && t < |s.threads| && StepRelease(s, t).Some?
    ensures Inv(StepRelease(s, t).value)
  {
    var k := PlaceOf(s, t);
    var s' := StepRelease(s, t).value;
    assert Inner(s, s', k);
    WindowOpens(s, s', k);
    ReleaseLocal(s, s', t, k);
    InnerAt(s, s', k);
    assert HeadOk(s');
    InnerKeepsInv(s, s', k);
  }

  lemma ReleaseLocal(s: State, s': State, t: nat, k: nat)
    requires Window(s, s', k) && s.nodes[s.queue[k]].owner == t
    requires t < |s.threads| && StepRelease(s, t) == Some(s')
    ensures LocalOk(s', k)
  {
  }

  // ----- the lock becomes free, or passes to the next in line

  lemma FreeKeepsInv(s: State, t: nat)
    requires Inv(s) && t < |s.threads| && s.threads[t].Swapping? && s.tail == Some(s.threads[t].node)
    ensures StepGo(s, t).Some? && Inv(StepGo(s, t).value)
    ensures s.queue == [s.threads[t].node]
  {
    var k := PlaceOf(s, t);
    assert |s.queue| == 1;
    var s' := StepGo(s, t).value;
    assert s'.queue == [];
    forall u | 0 <= u < |s'.threads| ensures s'.threads[u].Idle? {
      if u != t && !s.threads[u].Idle? {
        var j := PlaceOf(s, u);
      }
    }
  }

  /** The holder leaves the queue from the front and goes idle. */
  ghost predicate Popped(s: State, s': State)
  {
    && Wellformed(s) && |s.queue| >= 2
    && var t := s.nodes[s.queue[0]].owner;
    && s'.queue == s.queue[1..] && s'.tail == s.tail && s'.threads == s.threads[t := Idle]
    && |s'.nodes| == |s.nodes|
    && (forall n :: 0 <= n < |s.nodes| ==>
          && s'.nodes[n].owner == s.nodes[n].owner && s'.nodes[n].moved == s.nodes[n].moved
          && s'.nodes[n].next == s.nodes[n].next && s'.nodes[n].nextFlag == s.nodes[n].nextFlag
          && (n != s.queue[1] ==> s'.nodes[n].ready == s.nodes[n].ready))
  }

  lemma PoppedAt(s: State, s': State)
    requires Inv(s) && Popped(s, s')
    ensures QueueOk(s')
    ensures forall i :: 0 <= i < |s'.queue| ==> At(s', i) == At(s, i + 1)
  {
    hide PlaceOk, LinkOk, HeadOk;
    var t := s.nodes[s.queue[0]].owner;
    forall i | 0 <= i < |s'.queue| ensures At(s', i) == At(s, i + 1) && s.nodes[s.queue[i + 1]].owner != t {
      assert OwnNode(At(s, i + 1)) == Some(s.queue[i + 1]);
      assert OwnNode(At(s, 0)) == Some(s.queue[0]);
    }
    forall u | 0 <= u < |s'.threads| && !s'.threads[u].Idle? ensures s'.threads[u].node in s'.queue {
      var k := PlaceOf(s, u);
      assert k != 0;
      assert s'.queue[k - 1] == s.threads[u].node;
    }
  }

  lemma PoppedPlace(s: State, s': State, i: nat)
    requires Popped(s, s') && i < |s'.queue| && At(s, 0).Passing? && Wellformed(s')
    requires s.nodes[s.queue[0]].next.Some? && s.queue[0] !in s'.queue && (i >= 1 ==> s.queue[i + 1] != s.queue[1])
    requires At(s', i) == At(s, i + 1) && (i >= 1 ==> At(s', i - 1) == At(s, i))
    requires FlagOk(s'.nodes[s.queue[1]].ready, Done, ReadyWaiter(At(s, 1)))
    requires PlaceOk(s, i + 1) && PlaceOk(s, i) && LinkOk(s, 0)
    ensures PlaceOk(s', i)
  {
  }

  lemma PoppedLink(s: State, s': State, i: nat)
    requires Popped(s, s') && i < |s'.queue| && Wellformed(s') && LinkOk(s, i + 1)
    requires At(s', i) == At(s, i + 1) && (i + 1 < |s'.queue| ==> At(s', i + 1) == At(s, i + 2))
    ensures LinkOk(s', i)
  {
  }

  lemma PoppedKeepsInv(s: State, s': State)
    requires Inv(s) && Popped(s, s') && At(s, 0).Passing?
    requires FlagOk(s'.nodes[s.queue[1]].ready, Done, ReadyWaiter(At(s, 1)))
    ensures Inv(s')
  {
    assert s.nodes[s.queue[0]].next.Some?;
    PoppedAt(s, s');
    assert PlaceOk(s, 1);
    assert Queued(At(s, 1)) && HeadOk(s');
    hide PlaceOk, LinkOk, HeadOk, FlagOk;
    forall i | 0 <= i < |s'.queue| ensures PlaceOk(s', i) && LinkOk(s', i) {
      assert PlaceOk(s, i) && PlaceOk(s, i + 1) && LinkOk(s, 0) && LinkOk(s, i + 1);
      PoppedPlace(s, s', i);
      PoppedLink(s, s', i);
    }
  }

  lemma PassKeepsInv(s: State, t: nat)
    requires Inv(s) && t < |s.threads| && s.threads[t].Passing? && StepGo(s, t).Some?
    requires !StepGo(s, t).value.threads[t].Passing?
    ensures Inv(StepGo(s, t).value) && Popped(s, StepGo(s, t).value)
  {
    var k := PlaceOf(s, t);
    var s' := StepGo(s, t).value;
    assert PlaceOk(s, 1);
    assert Popped(s, s');
    PoppedKeepsInv(s, s');
  }

  // ----- new nodes

  function Grown(s: State, t: nat): State { s.(nodes := s.nodes + [FreshNode(t)]) }

  /** A new node that nobody has seen yet changes nothing. */
  lemma GrownKeepsInv(s: State, t: nat)
    requires Inv(s) && t < |s.threads|
    ensures Inv(Grown(s, t)) && Private(Grown(s, t), |s.nodes|)
    ensures forall i :: 0 <= i < |s.queue| ==> At(Grown(s, t), i) == At(s, i)
  {
    GrownQueue(s, t);
    hide PlaceOk, LinkOk;
    forall i | 0 <= i < |s.queue| ensures PlaceOk(Grown(s, t), i) && LinkOk(Grown(s, t), i) {
      assert PlaceOk(s, i) && LinkOk(s, i);
      GrownPlace(s, t, i);
    }
  }

  lemma GrownQueue(s: State, t: nat)
    requires Inv(s) && t < |s.threads|
    ensures QueueOk(Grown(s, t)) && Private(Grown(s, t), |s.nodes|)
    ensures forall i :: 0 <= i < |s.queue| ==> At(Grown(s, t), i) == At(s, i)
  {
    hide LinkOk, HeadOk;
    var s' := Grown(s, t);
    assert forall i :: 0 <= i < |s.queue| ==> At(s', i) == At(s, i);
    forall i | 0 <= i < |s.queue| && At(s', i).Announcing? ensures At(s', i).pred < |s.nodes| {
      assert PlaceOk(s, i);
    }
  }

  lemma GrownPlace(s: State, t: nat, i: nat)
    requires Wellformed(s) && t < |s.threads| && i < |s.queue| && Wellformed(Grown(s, t))
    requires PlaceOk(s, i) && LinkOk(s, i)
    requires forall j :: 0 <= j < |s.queue| ==> At(Grown(s, t), j) == At(s, j)
    ensures PlaceOk(Grown(s, t), i) && LinkOk(Grown(s, t), i)
  {
  }

  /** Node `m` joins the end of the queue. */
  ghost predicate Joined(s: State, s': State, t: nat, m: nat)
  {
    && t < |s.threads| && s.threads[t].Idle?
    && s'.nodes == s.nodes && s'.queue == s.queue + [m] && s'.tail == Some(m)
    && s'.threads == s.threads[t := if s.tail.None? then Held(m) else Linking(m, s.tail.value)]
  }

  lemma JoinedAt(s: State, s': State, t: nat, m: nat)
    requires Inv(s) && Joined(s, s', t, m) && Private(s, m) && s.nodes[m].owner == t
    ensures QueueOk(s')
    ensures forall i :: 0 <= i < |s.queue| ==> At(s', i) == At(s, i)
    ensures At(s', |s.queue|) == s'.threads[t]
  {
    hide PlaceOk, LinkOk, HeadOk;
    forall i | 0 <= i < |s.queue| ensures At(s', i) == At(s, i) {
      assert OwnNode(At(s, i)) == Some(s.queue[i]);
    }
    forall u | 0 <= u < |s'.threads| && !s'.threads[u].Idle? ensures s'.threads[u].node in s'.queue {
      if u != t {
        var k := PlaceOf(s, u);
        assert s'.queue[k] == s.threads[u].node;
      } else {
        assert s'.queue[|s.queue|] == m;
      }
    }
  }

  lemma JoinedPlace(s: State, s': State, t: nat, m: nat, i: nat)
    requires Wellformed(s) && Joined(s, s', t, m) && Private(s, m) && s.nodes[m].ready == Clear
    requires i < |s'.queue| && Wellformed(s')
    requires s.tail == if s.queue == [] then None else Some(s.queue[|s.queue| - 1])
    requires forall j :: 0 <= j < |s.queue| ==> At(s', j) == At(s, j)
    requires At(s', |s.queue|) == s'.threads[t]
    requires if i < |s.queue| then PlaceOk(s, i) else i > 0 ==> LinkOk(s, i - 1) && PlaceOk(s, i - 1)
    requires At(s', 0).Passing? ==> |s.queue| >= 2
    ensures PlaceOk(s', i)
  {
  }

  lemma JoinedLink(s: State, s': State, t: nat, m: nat, i: nat)
    requires Wellformed(s) && Joined(s, s', t, m) && Private(s, m)
    requires i < |s'.queue| && Wellformed(s')
    requires forall j :: 0 <= j < |s.queue| ==> At(s', j) == At(s, j)
    requires At(s', |s.queue|) == s'.threads[t]
    requires s.tail == None ==> s.queue == []
    requires i < |s.queue| ==> LinkOk(s, i)
    ensures LinkOk(s', i)
  {
  }

  lemma JoinedKeepsInv(s: State, s': State, t: nat, m: nat)
    requires Inv(s) && Joined(s, s', t, m) && Private(s, m) && s.nodes[m].owner == t && s.nodes[m].ready == Clear
    requires s.queue != [] && (At(s, 0).Moving? || At(s, 0).Spinning? || At(s, 0).Copying?) ==> At(s, 0).to != m
    ensures Inv(s')
  {
    JoinedAt(s, s', t, m);
    JoinedHead(s, s', t, m);
    JoinedPlaces(s, s', t, m);
    JoinedLinks(s, s', t, m);
  }

  lemma JoinedPlaces(s: State, s': State, t: nat, m: nat)
    requires Inv(s) && Joined(s, s', t, m) && Private(s, m) && s.nodes[m].owner == t && s.nodes[m].ready == Clear
    requires QueueOk(s') && forall i :: 0 <= i < |s.queue| ==> At(s', i) == At(s, i)
    requires At(s', |s.queue|) == s'.threads[t]
    ensures forall i :: 0 <= i < |s'.queue| ==> PlaceOk(s', i)
  {
    JoinedFirstPass(s, s', t);
    hide PlaceOk, LinkOk, HeadOk, Private, At;
    forall i | 0 <= i < |s'.queue| ensures PlaceOk(s', i) {
      if i < |s.queue| {
        assert PlaceOk(s, i);
      } else if i > 0 {
        assert PlaceOk(s, i - 1) && LinkOk(s, i - 1);
      }
      JoinedPlace(s, s', t, m, i);
    }
  }

  lemma JoinedLinks(s: State, s': State, t: nat, m: nat)
    requires Inv(s) && Joined(s, s', t, m) && Private(s, m) && s.nodes[m].owner == t && s.nodes[m].ready == Clear
    requires QueueOk(s') && forall i :: 0 <= i < |s.queue| ==> At(s', i) == At(s, i)
    requires At(s', |s.queue|) == s'.threads[t]
    ensures forall i :: 0 <= i < |s'.queue| ==> LinkOk(s', i)
  {
    hide PlaceOk, LinkOk, HeadOk, Private, At;
    forall i | 0 <= i < |s'.queue| ensures LinkOk(s', i) {
      if i < |s.queue| {
        assert LinkOk(s, i);
      } else if i > 0 {
        assert PlaceOk(s, i - 1) && LinkOk(s, i - 1);
      }
      JoinedLink(s, s', t, m, i);
    }
  }

  lemma JoinedFirstPass(s: State, s': State, t: nat)
    requires Inv(s) && Wellformed(s') && |s'.queue| == |s.queue| + 1
    requires if s.queue == [] then At(s', 0).Held? else At(s', 0) == At(s, 0)
    ensures At(s', 0).Passing? ==> |s.queue| >= 2
  {
    assert s.queue != [] ==> LinkOk(s, 0);
  }

  lemma JoinedHead(s: State, s': State, t: nat, m: nat)
    requires Inv(s) && Joined(s, s', t, m) && Private(s, m) && s.nodes[m].owner == t
    requires s.queue != [] && (At(s, 0).Moving? || At(s, 0).Spinning? || At(s, 0).Copying?) ==> At(s, 0).to != m
    ensures HeadOk(s')
  {
    JoinedAt(s, s', t, m);
    hide PlaceOk, LinkOk;
    if s.queue != [] {
      var p := At(s, 0);
      if p.Moving? || p.Spinning? || p.Copying? {
        forall i | 0 <= i < |s'.queue| && At(s', i).Announcing? ensures At(s', i).pred != p.to {
          assert i < |s.queue| ==> At(s', i) == At(s, i);
        }
        assert Private(s', p.to);
      }
    }
  }

  lemma AcquireKeepsInv(s: State, t: nat)
    requires Inv(s) && t < |s.threads| && StepAcquire(s, t).Some?
    ensures Inv(StepAcquire(s, t).value)
  {
    var m := |s.nodes|;
    GrownKeepsInv(s, t);
    JoinedKeepsInv(Grown(s, t), StepAcquire(s, t).value, t, m);
  }

  lemma TryAcquireKeepsInv(s: State, t: nat)
    requires Inv(s) && t < |s.threads| && StepTryAcquire(s, t).Some?
    ensures Inv(StepTryAcquire(s, t).value)
  {
    GrownKeepsInv(s, t);
    if s.tail.None? {
      JoinedKeepsInv(Grown(s, t), StepTryAcquire(s, t).value, t, |s.nodes|);
    }
  }

  // ----- moving the hold to another node, or to another thread

  lemma TransferKeepsInv(s: State, t: nat)
    requires Inv(s) && t < |s.threads| && StepTransfer(s, t).Some?
    ensures Inv(StepTransfer(s, t).value)
  {
    GrownKeepsInv(s, t);
    var g, s' := Grown(s, t), StepTransfer(s, t).value;
    var k := PlaceOf(g, t);
    assert Inner(g, s', k);
    WindowOpens(g, s', k);
    TransferLocal(g, s', t, k, |s.nodes|);
    InnerAt(g, s', k);
    forall i | 0 <= i < |g.queue| && At(s', i).Announcing? ensures At(s', i).pred != |s.nodes| {
      assert i != k ==> At(s', i) == At(g, i);
    }
    assert HeadOk(s');
    InnerKeepsInv(g, s', k);
  }

  lemma TransferLocal(s: State, s': State, t: nat, k: nat, to: nat)
    requires Window(s, s', k) && s.nodes[s.queue[k]].owner == t
    requires t < |s.threads| && s.threads[t].Held? && s' == s.Move(t, Moving(s.threads[t].node, to))
    ensures LocalOk(s', k)
  {
  }

  /** The holder goes on holding the lock, by node `m` in place of the first. */
  ghost predicate Replaced(s: State, s': State, m: nat)
  {
    && Wellformed(s) && s.queue != [] && m < |s.nodes|
    && var t := s.nodes[s.queue[0]].owner;
    && s'.queue == Renamed(s.queue, m) && s'.threads == s.threads[t := Held(m)]
    && s'.tail == (if |s.queue| == 1 then Some(m) else s.tail)
    && |s'.nodes| == |s.nodes| && s'.nodes == s.nodes[m := s'.nodes[m]]
    && s'.nodes[m] == s.nodes[m].(next := s'.nodes[m].next, moved := s'.nodes[m].moved)
  }

  lemma ReplacedAt(s: State, s': State, m: nat)
    requires Inv(s) && Replaced(s, s', m) && Private(s, m) && s.nodes[m].owner == s.nodes[s.queue[0]].owner
    ensures Wellformed(s') && |s'.queue| == |s.queue| && At(s', 0) == Held(m) && s'.queue[0] == m
    ensures forall i :: 1 <= i < |s.queue| ==> At(s', i) == At(s, i) && s'.queue[i] == s.queue[i]
  {
    var t := s.nodes[s.queue[0]].owner;
    forall i | 1 <= i < |s.queue| ensures At(s', i) == At(s, i) && s'.queue[i] == s.queue[i] {
      assert OwnNode(At(s, i)) == Some(s.queue[i]);
      assert OwnNode(At(s, 0)) == Some(s.queue[0]);
    }
  }

  lemma ReplacedQueue(s: State, s': State, m: nat)
    requires Inv(s) && Replaced(s, s', m) && Private(s, m) && s.nodes[m].owner == s.nodes[s.queue[0]].owner
    ensures QueueOk(s')
  {
    ReplacedOwn(s, s', m);
    ReplacedThreads(s, s', m);
    ReplacedTail(s, s', m);
    hide Inv, Replaced, Private, OwnNode, Renamed;
  }

  lemma ReplacedTail(s: State, s': State, m: nat)
    requires Wellformed(s) && QueueOk(s) && Replaced(s, s', m)
    ensures s'.queue != [] && s'.tail == Some(s'.queue[|s'.queue| - 1])
  {
  }

  lemma ReplacedThreads(s: State, s': State, m: nat)
    requires Inv(s) && Replaced(s, s', m) && Private(s, m) && s.nodes[m].owner == s.nodes[s.queue[0]].owner
    ensures forall u :: 0 <= u < |s'.threads| && !s'.threads[u].Idle? ==>
              && s'.threads[u].node in s'.queue && s'.threads[u].node < |s'.nodes|
              && s'.nodes[s'.threads[u].node].owner == u
  {
    forall u | 0 <= u < |s'.threads| && !s'.threads[u].Idle?
      ensures s'.threads[u].node in s'.queue && s'.threads[u].node < |s'.nodes|
              && s'.nodes[s'.threads[u].node].owner == u
    {
      hide Inv, Replaced, Private;
      ReplacedThread(s, s', m, u);
    }
  }

  lemma ReplacedOwn(s: State, s': State, m: nat)
    requires Inv(s) && Replaced(s, s', m) && Private(s, m) && s.nodes[m].owner == s.nodes[s.queue[0]].owner
    ensures Wellformed(s') && forall i :: 0 <= i < |s'.queue| ==> OwnNode(At(s', i)) == Some(s'.queue[i])
    ensures forall i, j :: 0 <= i < j < |s'.queue| ==> s'.queue[i] != s'.queue[j]
  {
    ReplacedAt(s, s', m);
    assert m !in s.queue;
    hide PlaceOk, LinkOk, HeadOk, Private, Renamed;
    RenamedDistinct(s.queue, m);
    forall i | 0 <= i < |s'.queue| ensures OwnNode(At(s', i)) == Some(s'.queue[i]) {
      assert i > 0 ==> OwnNode(At(s, i)) == Some(s.queue[i]);
    }
  }

  lemma RenamedDistinct(q: seq<nat>, m: nat)
    requires q != [] && m !in q
    requires forall i, j :: 0 <= i < j < |q| ==> q[i] != q[j]
    ensures |Renamed(q, m)| == |q|
    ensures forall i, j :: 0 <= i < j < |q| ==> Renamed(q, m)[i] != Renamed(q, m)[j]
  {
    var r := Renamed(q, m);
    forall i, j | 0 <= i < j < |q| ensures r[i] != r[j] {
      assert r[j] == q[j];
      assert i > 0 ==> r[i] == q[i];
    }
  }

  lemma ReplacedThread(s: State, s': State, m: nat, u: nat)
    requires Inv(s) && Replaced(s, s', m) && Private(s, m) && s.nodes[m].owner == s.nodes[s.queue[0]].owner
    requires u < |s'.threads| && !s'.threads[u].Idle?
    ensures s'.threads[u].node in s'.queue && s'.threads[u].node < |s'.nodes| && s'.nodes[s'.threads[u].node].owner == u
  {
    hide LinkOk, HeadOk;
    if u == s.nodes[s.queue[0]].owner {
      assert s'.queue[0] == m;
    } else {
      var k := PlaceOf(s, u);
      assert s'.queue[k] == s.queue[k];
    }
  }

  lemma ReplacedKeepsInv(s: State, s': State, m: nat)
    requires Inv(s) && Replaced(s, s', m) && Private(s, m) && s.nodes[m].owner == s.nodes[s.queue[0]].owner
    requires At(s, 0).Moving? || At(s, 0).Copying?
    requires if |s.queue| == 1 then s'.nodes[m] == s.nodes[m]
             else s'.nodes[m].moved && s'.nodes[m].next == s.nodes[s.queue[0]].next && s'.nodes[m].next.Some?
    ensures Inv(s')
  {
    ReplacedAt(s, s', m);
    ReplacedQueue(s, s', m);
    assert HeadOk(s');
    hide PlaceOk, LinkOk, HeadOk, Renamed;
    forall i | 0 <= i < |s'.queue| ensures PlaceOk(s', i) && LinkOk(s', i) {
      assert PlaceOk(s, i) && LinkOk(s, 0) && LinkOk(s, i);
      ReplacedPlace(s, s', m, i);
      ReplacedLink(s, s', m, i);
    }
  }

  lemma ReplacedPlace(s: State, s': State, m: nat, i: nat)
    requires Replaced(s, s', m) && Private(s, m) && i < |s.queue|
    requires forall j :: 1 <= j < |s.queue| ==> s.queue[j] != s.queue[0]
    requires At(s, 0).Moving? || At(s, 0).Copying?
    requires if |s.queue| == 1 then s'.nodes[m] == s.nodes[m]
             else s'.nodes[m].moved && s'.nodes[m].next == s.nodes[s.queue[0]].next && s'.nodes[m].next.Some?
    requires Wellformed(s') && |s'.queue| == |s.queue| && At(s', 0) == Held(m) && s'.queue[0] == m
    requires forall j :: 1 <= j < |s.queue| ==> At(s', j) == At(s, j) && s'.queue[j] == s.queue[j]
    requires PlaceOk(s, i) && LinkOk(s, 0)
    ensures PlaceOk(s', i)
  {
    if i >= 1 {
      ReplacedPred(s, s', m, i);
    }
  }

  lemma ReplacedPred(s: State, s': State, m: nat, i: nat)
    requires Replaced(s, s', m) && Private(s, m) && 1 <= i < |s.queue|
    requires forall j :: 1 <= j < |s.queue| ==> s.queue[j] != s.queue[0]
    requires At(s, 0).Moving? || At(s, 0).Copying?
    requires s'.nodes[m].moved && s'.nodes[m].next == s.nodes[s.queue[0]].next && s'.nodes[m].next.Some?
    requires Wellformed(s') && |s'.queue| == |s.queue| && s'.queue[0] == m
    requires forall j :: 1 <= j < |s.queue| ==> At(s', j) == At(s, j) && s'.queue[j] == s.queue[j]
    requires PlaceOk(s, i) && LinkOk(s, 0)
    ensures PredOk(s', i)
  {
    assert s.queue[0] !in s'.queue;
    assert At(s, i).Announcing? ==> At(s, i).pred != m;
  }

  lemma ReplacedLink(s: State, s': State, m: nat, i: nat)
    requires Replaced(s, s', m) && Private(s, m) && i < |s.queue|
    requires if |s.queue| == 1 then s'.nodes[m] == s.nodes[m]
             else s'.nodes[m].moved && s'.nodes[m].next == s.nodes[s.queue[0]].next && s'.nodes[m].next.Some?
    requires Wellformed(s') && |s'.queue| == |s.queue| && At(s', 0) == Held(m) && s'.queue[0] == m
    requires forall j :: 1 <= j < |s.queue| ==> At(s', j) == At(s, j) && s'.queue[j] == s.queue[j]
    requires LinkOk(s, 0) && LinkOk(s, i)
    ensures LinkOk(s', i)
  {
  }

  lemma MoveKeepsInv(s: State, t: nat)
    requires Inv(s) && t < |s.threads| && StepGo(s, t).Some?
    requires s.threads[t].Copying? || (s.threads[t].Moving? && s.tail == Some(s.threads[t].node))
    ensures Inv(StepGo(s, t).value) && Replaced(s, StepGo(s, t).value, s.threads[t].to)
  {
    var k := PlaceOf(s, t);
    assert s.threads[t].Moving? ==> |s.queue| == 1;
    ReplacedKeepsInv(s, StepGo(s, t).value, s.threads[t].to);
  }

  lemma HandOverKeepsInv(s: State, t: nat, to: nat)
    requires Inv(s) && t < |s.threads| && StepHandOver(s, t, to).Some?
    ensures Inv(StepHandOver(s, t, to).value)
  {
    var s' := StepHandOver(s, t, to).value;
    HandOverQueue(s, t, to);
    forall i | 0 <= i < |s'.queue| ensures PlaceOk(s', i) && LinkOk(s', i) {
      assert PlaceOk(s, i) && LinkOk(s, i);
      HandOverPlace(s, s', i);
    }
  }

  lemma HandOverQueue(s: State, t: nat, to: nat)
    requires Inv(s) && t < |s.threads| && StepHandOver(s, t, to).Some?
    ensures QueueOk(StepHandOver(s, t, to).value)
    ensures forall i :: 0 <= i < |s.queue| ==> At(StepHandOver(s, t, to).value, i) == At(s, i)
    ensures s.queue != [] && At(s, 0).Held?
  {
    var s' := StepHandOver(s, t, to).value;
    var k := PlaceOf(s, t);
    hide PlaceOk, LinkOk, HeadOk;
    forall i | 0 <= i < |s.queue| ensures At(s', i) == At(s, i) {
      assert OwnNode(At(s, i)) == Some(s.queue[i]);
    }
  }

  lemma HandOverPlace(s: State, s': State, i: nat)
    requires Wellformed(s) && i < |s.queue| && Wellformed(s') && s'.queue == s.queue && |s'.nodes| == |s.nodes|
    requires PlaceOk(s, i) && LinkOk(s, i)
    requires forall n :: 0 <= n < |s.nodes| ==> s'.nodes[n] == s.nodes[n].(owner := s'.nodes[n].owner)
    requires forall j :: 0 <= j < |s.queue| ==> At(s', j) == At(s, j)
    ensures PlaceOk(s', i) && LinkOk(s', i)
  {
  }

  // ----- all steps

  lemma GoKeepsInv(s: State, t: nat)
    requires Inv(s) && t < |s.threads| && StepGo(s, t).Some?
    ensures Inv(StepGo(s, t).value)
  {
    match s.threads[t]
    case Swapping(n) => if s.tail == Some(n) { FreeKeepsInv(s, t); } else { FailedSwapKeepsInv(s, t); }
    case Moving(n, _) => if s.tail == Some(n) { MoveKeepsInv(s, t); } else { FailedSwapKeepsInv(s, t); }
    case Copying(_, _) => MoveKeepsInv(s, t);
    case Passing(_, _, _) =>
      if StepGo(s, t).value.threads[t].Passing? { PassingSignalKeepsInv(s, t); } else { PassKeepsInv(s, t); }
    case _ => StaysKeepsInv(s, t);
  }

  lemma StepKeepsInv(s: State, a: Action)
    requires Inv(s) && Step(s, a).Some?
    ensures Inv(Step(s, a).value)
  {
    match a
    case Acquire(t) => AcquireKeepsInv(s, t);
    case TryAcquire(t) => TryAcquireKeepsInv(s, t);
    case Release(t) => ReleaseKeepsInv(s, t);
    case Transfer(t) => TransferKeepsInv(s, t);
    case HandOver(t, to) => HandOverKeepsInv(s, t, to);
    case Go(t) => GoKeepsInv(s, t);
  }

  lemma {:induction false} RunKeepsInv(s: State, run: seq<Action>)
    requires Inv(s) && Exec(s, run, Step).Some?
    ensures Inv(Exec(s, run, Step).value)
    decreases |run|
  {
    if run != [] {
      StepKeepsInv(s, run[0]);
      RunKeepsInv(Step(s, run[0]).value, run[1..]);
    }
  }

  ghost predicate Reachable(s: State, n: nat)
  {
    exists run: seq<Action> :: Exec(InitState(n), run, Step) == Some(s)
  }

  lemma ReachableInv(s: State, n: nat)
    requires Reachable(s, n)
    ensures Inv(s)
  {
    var run: seq<Action> :| Exec(InitState(n), run, Step) == Some(s);
    InitInv(n);
    RunKeepsInv(InitState(n), run);
  }
}
