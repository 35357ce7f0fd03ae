/** The per-thread doubly linked list of the robust mutexes a thread has locked, updated only by that
    thread, in any order of unlocking, and drained when it exits. Each mutex has one node, made and freed
    with it, whose fields are kept in the mutex here. */
module RobustList {

  const OWNER_DIED: int := -1

  class MutexObject {
    var ownerThread: ThreadObject?
    var stateInconsistent: int
    var prev: MutexObject?
    var next: MutexObject?
    var event: bool

    constructor ()
      ensures ownerThread == null && stateInconsistent == 0 && prev == null && next == null && !event
    {
      ownerThread, stateInconsistent, prev, next, event := null, 0, null, null, false;
    }
  }

  ghost function NodeAt(c: seq<MutexObject>, i: int): MutexObject?
  {
    if 0 <= i < |c| then c[i] else null
  }

  ghost function Target(m: MutexObject?): set<MutexObject>
  {
    if m == null then {} else {m}
  }

  ghost function Without(c: seq<MutexObject>, i: nat): seq<MutexObject>
    requires i < |c|
  {
    c[..i] + c[i + 1..]
  }

  class ThreadObject {
    var robustMxList: MutexObject?
    ghost var chain: seq<MutexObject>

    constructor ()
      ensures ListOk() && chain == []
    {
      robustMxList := null;
      chain := [];
    }

    ghost predicate Linked(i: nat)
      requires i < |chain|
      reads this`chain, chain`ownerThread, chain`next, chain`prev
    {
      && chain[i].ownerThread == this
      && chain[i].next == NodeAt(chain, i + 1)
      && chain[i].prev == NodeAt(chain, i - 1)
    }

    /** `chain` is what the list holds, in order, each mutex once; all of them are this thread's. */
    ghost predicate ListOk()
      reads this`robustMxList, this`chain, chain`ownerThread, chain`next, chain`prev
    {
      && robustMxList == NodeAt(chain, 0)
      && (forall i :: 0 <= i < |chain| ==> Linked(i))
      && (forall i, j :: 0 <= i < j < |chain| ==> chain[i] != chain[j])
    }
  }

  /** Lists of different threads have no mutex in common. */
  lemma OffList(t: ThreadObject, m: MutexObject)
    requires t.ListOk() && m.ownerThread != t
    ensures m !in t.chain
  {
    forall i | 0 <= i < |t.chain| ensures t.chain[i] != m {
      assert t.Linked(i);
    }
  }

  lemma HeadOfList(t: ThreadObject)
    requires t.ListOk()
    ensures t.robustMxList == NodeAt(t.chain, 0)
    ensures t.chain != [] ==>
              t.chain[0].ownerThread == t && t.chain[0].next == NodeAt(t.chain, 1) && t.chain[0].prev == null
    ensures forall i :: 0 < i < |t.chain| ==> t.chain[i] != t.chain[0]
  {
    assert t.chain != [] ==> t.Linked(0);
  }

  // ----- one list

  method PushNode(mx: MutexObject, self: ThreadObject)
    requires self.ListOk() && mx !in self.chain
    modifies mx`ownerThread, mx`prev, mx`next, self`robustMxList, self`chain, Target(self.robustMxList)`prev
    ensures self.ListOk() && self.chain == [mx] + old(self.chain)
  {
    assert |self.chain| > 0 ==> self.Linked(0);
    mx.ownerThread := self;
    if self.robustMxList == null {
      mx.prev := null;
      mx.next := null;
      self.robustMxList := mx;
    } else {
      mx.prev := null;
      mx.next := self.robustMxList;
      self.robustMxList.prev := mx;
      self.robustMxList := mx;
    }
    self.chain := [mx] + self.chain;
    forall i | 0 <= i < |self.chain| ensures self.Linked(i) {
      if i > 0 {
        assert old(self.Linked(i - 1));
      }
    }
  }

  method UnlinkNode(mx: MutexObject, t: ThreadObject, otp: ThreadObject?, ghost j: nat)
    requires t.ListOk() && j < |t.chain| && t.chain[j] == mx
    modifies mx`ownerThread, t`robustMxList, t`chain, Target(mx.next)`prev, Target(mx.prev)`next
    ensures t.ListOk() && t.chain == Without(old(t.chain), j)
    ensures mx.ownerThread == otp
  {
    ghost var c := t.chain;
    assert t.Linked(j);
    assert j > 0 ==> t.Linked(j - 1);
    assert j + 1 < |c| ==> t.Linked(j + 1);
    mx.ownerThread := otp;
    if mx.next != null {
      mx.next.prev := mx.prev;
    }
    if mx.prev != null {
      mx.prev.next := mx.next;
    }
    if t.robustMxList == mx {
      t.robustMxList := mx.next;
    }
    t.chain := Without(c, j);
    forall i | 0 <= i < |t.chain| ensures t.Linked(i) {
      if i < j {
        assert old(t.Linked(i));
      } else {
        assert old(t.Linked(i + 1));
      }
    }
  }

  // ----- the lists of all threads

  /** ptw32_robust_mutex_add: the calling thread has just got the mutex. */
  method Add(mx: MutexObject, self: ThreadObject, ghost threads: set<ThreadObject>)
    requires self in threads && forall t :: t in threads ==> t.ListOk() && mx !in t.chain
    modifies mx`ownerThread, mx`prev, mx`next, self`robustMxList, self`chain, Target(self.robustMxList)`prev
    ensures forall t :: t in threads ==> t.ListOk() && t.chain == if t == self then [mx] + old(t.chain) else old(t.chain)
    ensures mx.ownerThread == self
  {
    assert |self.chain| > 0 ==> self.Linked(0);
    forall t | t in threads && t != self ensures self.robustMxList != null ==> self.robustMxList !in t.chain {
      if self.robustMxList != null { OffList(t, self.robustMxList); }
    }
    PushNode(mx, self);
    assert self.Linked(0);
  }

  /** ptw32_robust_mutex_remove: the mutex comes off the list of the thread that has it, wherever it
      stands, and is left with `otp` for an owner. */
  method Remove(mx: MutexObject, otp: ThreadObject?, ghost threads: set<ThreadObject>, ghost j: nat)
    requires forall t :: t in threads ==> t.ListOk()
    requires mx.ownerThread != null && mx.ownerThread in threads
    requires j < |mx.ownerThread.chain| && mx.ownerThread.chain[j] == mx
    modifies mx`ownerThread, mx.ownerThread`robustMxList, mx.ownerThread`chain, Target(mx.next)`prev, Target(mx.prev)`next
    ensures forall t :: t in threads ==> t.ListOk() && mx !in t.chain
    ensures forall t :: t in threads ==>
              t.chain == if t == old(mx.ownerThread) then Without(old(t.chain), j) else old(t.chain)
    ensures mx.ownerThread == otp
  {
    var owner := mx.ownerThread;
    assert owner.Linked(j);
    assert j > 0 ==> owner.Linked(j - 1);
    assert j + 1 < |owner.chain| ==> owner.Linked(j + 1);
    forall t | t in threads && t != owner
      ensures mx !in t.chain
      ensures (mx.next != null ==> mx.next !in t.chain) && (mx.prev != null ==> mx.prev !in t.chain)
    {
      OffList(t, mx);
      if mx.next != null { OffList(t, mx.next); }
      if mx.prev != null { OffList(t, mx.prev); }
    }
    UnlinkNode(mx, owner, otp, j);
  }

  /** The loop at the end of a thread: every mutex on its list is taken off, marked, and its event set,
      whatever their number and order; the lists of other threads stay as they are. */
  method DrainOnExit(sp: ThreadObject, ghost threads: set<ThreadObject>)
    requires sp in threads && forall t :: t in threads ==> t.ListOk()
    modifies sp, sp.chain
    ensures sp.robustMxList == null && sp.chain == []
    ensures forall m :: m in old(sp.chain) ==> m.stateInconsistent == OWNER_DIED && m.event && m.ownerThread == sp
    ensures forall t :: t in threads ==> t.ListOk()
    ensures forall t :: t in threads && t != sp ==> t.chain == old(t.chain)
    ensures forall t, m :: t in threads && m in old(sp.chain) ==> m !in t.chain
  {
    hide ThreadObject.ListOk;
    HeadOfList(sp);
    ghost var c, i := sp.chain, 0;
    while sp.robustMxList != null
      invariant i <= |c| && sp.chain == c[i..] && sp.robustMxList == NodeAt(sp.chain, 0)
      invariant forall t :: t in threads ==> t.ListOk()
      invariant forall t :: t in threads && t != sp ==> t.chain == old(t.chain)
      invariant forall k :: 0 <= k < i ==> c[k].stateInconsistent == OWNER_DIED && c[k].event && c[k].ownerThread == sp
      invariant forall t, k :: t in threads && 0 <= k < i ==> c[k] !in t.chain
      decreases |c| - i
    {
      var mx := sp.robustMxList;
      HeadOfList(sp);
      Remove(mx, sp, threads, 0);
      mx.stateInconsistent := OWNER_DIED;
      mx.event := true;
      i := i + 1;
      HeadOfList(sp);
    }
  }
}
