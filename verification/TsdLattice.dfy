/** Thread-specific data: every association of a thread with a key lies on two doubly linked chains,
    the thread's chain of keys and the key's chain of threads. */
module TsdLattice {

  class Assoc {
    const thread: ThreadRec
    const key: KeyRec
    var nextKey: Assoc?
    var prevKey: Assoc?
    var nextThread: Assoc?
    var prevThread: Assoc?

    constructor (t: ThreadRec, k: KeyRec)
      ensures thread == t && key == k
      ensures nextKey == null && prevKey == null && nextThread == null && prevThread == null
    {
      thread, key := t, k;
      nextKey, prevKey, nextThread, prevThread := null, null, null, null;
    }
  }

  ghost function NodeAt(c: seq<Assoc>, i: int): Assoc?
  {
    if 0 <= i < |c| then c[i] else null
  }

  /** `chain` lists the associations on the thread's chain, and `at` is the place of the cursor on it;
      `|chain|` stands for the null cursor. */
  class ThreadRec {
    var keys: Assoc?
    var nextAssoc: Assoc?
    var tls: map<KeyRec, nat>      // the values the system keeps for this thread; zero is NULL
    ghost var chain: seq<Assoc>
    ghost var at: nat

    constructor ()
      ensures ChainOk() && chain == [] && nextAssoc == null && tls == map[]
    {
      keys, nextAssoc, tls := null, null, map[];
      chain, at := [], 0;
    }

    ghost predicate Linked(i: nat)
      requires i < |chain|
      reads this`keys, this`chain, chain`nextKey, chain`prevKey
    {
      && chain[i].thread == this
      && chain[i].nextKey == NodeAt(chain, i + 1)
      && chain[i].prevKey == NodeAt(chain, i - 1)
    }

    ghost predicate LinksOk()
      reads this`keys, this`chain, chain`nextKey, chain`prevKey
    {
      && keys == NodeAt(chain, 0)
      && (forall i :: 0 <= i < |chain| ==> Linked(i))
      && (forall i, j :: 0 <= i < j < |chain| ==> chain[i].key != chain[j].key)
    }

    ghost predicate ChainOk()
      reads this`keys, this`nextAssoc, this`at, this`chain, chain`nextKey, chain`prevKey
    {
      LinksOk() && at <= |chain| && nextAssoc == NodeAt(chain, at)
    }

    /** The search that pthread_setspecific starts with. */
    method Find(k: KeyRec) returns (assoc: Assoc?)
      requires ChainOk()
      ensures assoc != null ==> assoc in chain && assoc.key == k
      ensures assoc == null ==> forall a :: a in chain ==> a.key != k
    {
      assoc := keys;
      ghost var i := 0;
      while assoc != null
        invariant i <= |chain| && assoc == NodeAt(chain, i)
        invariant forall j :: 0 <= j < i ==> chain[j].key != k
        decreases |chain| - i
      {
        assert Linked(i);
        if assoc.key == k {
          break;
        }
        assoc := assoc.nextKey;
        i := i + 1;
      }
    }

    method AdvanceCursor() returns (assoc: Assoc)
      requires ChainOk() && nextAssoc != null
      modifies this`nextAssoc, this`at
      ensures ChainOk() && at == old(at) + 1
      ensures old(at) < |chain| && assoc == chain[old(at)] && assoc.thread == this
    {
      assert Linked(at);
      assoc := nextAssoc;
      nextAssoc := assoc.nextKey;
      at := at + 1;
    }

    method ResetCursor()
      requires ChainOk()
      modifies this`nextAssoc, this`at
      ensures ChainOk() && at == 0
    {
      nextAssoc := keys;
      at := 0;
    }

    /** What the cursor still has before it. */
    ghost function Rest(): seq<Assoc>
      reads this`chain, this`at
    {
      if at <= |chain| then chain[at..] else []
    }
  }

  class KeyRec {
    const hasDestructor: bool
    var threads: Assoc?
    ghost var chain: seq<Assoc>

    constructor (d: bool)
      ensures ChainOk() && chain == [] && hasDestructor == d
    {
      hasDestructor := d;
      threads := null;
      chain := [];
    }

    ghost predicate Linked(i: nat)
      requires i < |chain|
      reads this`threads, this`chain, chain`nextThread, chain`prevThread
    {
      && chain[i].key == this
      && chain[i].nextThread == NodeAt(chain, i + 1)
      && chain[i].prevThread == NodeAt(chain, i - 1)
    }

    ghost predicate ChainOk()
      reads this`threads, this`chain, chain`nextThread, chain`prevThread
    {
      && threads == NodeAt(chain, 0)
      && (forall i :: 0 <= i < |chain| ==> Linked(i))
      && (forall i, j :: 0 <= i < j < |chain| ==> chain[i].thread != chain[j].thread)
    }
  }

  ghost function Target(a: Assoc?): set<Assoc>
  {
    if a == null then {} else {a}
  }

  ghost function Without(c: seq<Assoc>, i: nat): seq<Assoc>
    requires i < |c|
  {
    c[..i] + c[i + 1..]
  }

  ghost function PlaceIn(c: seq<Assoc>, a: Assoc): (i: nat)
    requires a in c
    ensures i < |c| && c[i] == a
  {
    if c[0] == a then 0 else 1 + PlaceIn(c[1..], a)
  }

  lemma OffThread(t: ThreadRec, x: Assoc)
    requires t.LinksOk() && x.thread != t
    ensures x !in t.chain
  {
    forall i | 0 <= i < |t.chain| ensures t.chain[i] != x {
      assert t.Linked(i);
    }
  }

  lemma OffKey(k: KeyRec, x: Assoc)
    requires k.ChainOk() && x.key != k
    ensures x !in k.chain
  {
    forall i | 0 <= i < |k.chain| ensures k.chain[i] != x {
      assert k.Linked(i);
    }
  }

  // ----- one axis at a time

  method PushOnThread(a: Assoc)
    requires a.thread.ChainOk() && a !in a.thread.chain
    requires forall i :: 0 <= i < |a.thread.chain| ==> a.thread.chain[i].key != a.key
    modifies a`nextKey, a`prevKey, a.thread`keys, a.thread`chain, a.thread`at, Target(a.thread.keys)`prevKey
    ensures a.thread.ChainOk()
    ensures a.thread.chain == [a] + old(a.thread.chain)
    ensures a.thread.Rest() == old(a.thread.Rest())
    ensures a.thread.at == old(a.thread.at) + 1
  {
    var sp := a.thread;
    a.prevKey := null;
    a.nextKey := sp.keys;
    assert |sp.chain| > 0 ==> sp.Linked(0);
    if a.nextKey != null {
      a.nextKey.prevKey := a;
    }
    sp.keys := a;
    sp.chain := [a] + sp.chain;
    sp.at := sp.at + 1;
    forall i | 0 <= i < |sp.chain| ensures sp.Linked(i) {
      if i > 0 {
        assert old(sp.Linked(i - 1));
      }
    }
  }

  method PushOnKey(a: Assoc)
    requires a.key.ChainOk() && a !in a.key.chain
    requires forall i :: 0 <= i < |a.key.chain| ==> a.key.chain[i].thread != a.thread
    modifies a`nextThread, a`prevThread, a.key`threads, a.key`chain, Target(a.key.threads)`prevThread
    ensures a.key.ChainOk()
    ensures a.key.chain == [a] + old(a.key.chain)
  {
    var k := a.key;
    a.prevThread := null;
    a.nextThread := k.threads;
    assert |k.chain| > 0 ==> k.Linked(0);
    if a.nextThread != null {
      a.nextThread.prevThread := a;
    }
    k.threads := a;
    k.chain := [a] + k.chain;
    forall i | 0 <= i < |k.chain| ensures k.Linked(i) {
      if i > 0 {
        assert old(k.Linked(i - 1));
      }
    }
  }

  method UnlinkFromThread(a: Assoc, ghost j: nat) returns (next: Assoc?)
    requires a.thread.LinksOk() && j < |a.thread.chain| && a.thread.chain[j] == a
    modifies a.thread`keys, a.thread`chain, Target(a.prevKey)`nextKey, Target(a.nextKey)`prevKey
    ensures a.thread.LinksOk()
    ensures a.thread.chain == Without(old(a.thread.chain), j)
    ensures next == NodeAt(old(a.thread.chain), j + 1)
  {
    var sp := a.thread;
    ghost var c := sp.chain;
    assert sp.Linked(j);
    assert j > 0 ==> sp.Linked(j - 1);
    assert j + 1 < |c| ==> sp.Linked(j + 1);
    var prev := a.prevKey;
    next := a.nextKey;
    if prev != null {
      prev.nextKey := next;
    }
    if next != null {
      next.prevKey := prev;
    }
    if sp.keys == a {
      sp.keys := next;
    }
    sp.chain := Without(c, j);
    forall i | 0 <= i < |sp.chain| ensures sp.Linked(i) {
      if i < j {
        assert old(sp.Linked(i));
      } else {
        assert old(sp.Linked(i + 1));
      }
    }
  }

  /** The thread is exiting and its cursor may stand on the association being removed. */
  method MoveCursor(a: Assoc, next: Assoc?, ghost c: seq<Assoc>, ghost j: nat)
    requires j < |c| && c[j] == a && next == NodeAt(c, j + 1) && a.thread.chain == Without(c, j)
    requires a.thread.LinksOk() && a.thread.at <= |c| && a.thread.nextAssoc == NodeAt(c, a.thread.at)
    requires forall i :: 0 <= i < |c| && i != j ==> c[i] != a
    modifies a.thread`nextAssoc, a.thread`at
    ensures a.thread.ChainOk()
    ensures a.thread.at == if old(a.thread.at) > j then old(a.thread.at) - 1 else old(a.thread.at)
  {
    var sp := a.thread;
    if sp.nextAssoc == a {
      sp.nextAssoc := next;
    }
    sp.at := if sp.at > j then sp.at - 1 else sp.at;
    forall i | 0 <= i < |sp.chain| ensures sp.Linked(i) {
      assert old(sp.Linked(i));
    }
  }

  method UnlinkFromKey(a: Assoc, ghost j: nat)
    requires a.key.ChainOk() && j < |a.key.chain| && a.key.chain[j] == a
    modifies a.key`threads, a.key`chain, Target(a.prevThread)`nextThread,
             Target(a.nextThread)`prevThread
    ensures a.key.ChainOk()
    ensures a.key.chain == Without(old(a.key.chain), j)
  {
    var k := a.key;
    ghost var c := k.chain;
    assert k.Linked(j);
    assert j > 0 ==> k.Linked(j - 1);
    assert j + 1 < |c| ==> k.Linked(j + 1);
    var prev, next := a.prevThread, a.nextThread;
    if prev != null {
      prev.nextThread := next;
    }
    if next != null {
      next.prevThread := prev;
    }
    if k.threads == a {
      k.threads := next;
    }
    k.chain := Without(c, j);
    forall i | 0 <= i < |k.chain| ensures k.Linked(i) {
      if i < j {
        assert old(k.Linked(i));
      } else {
        assert old(k.Linked(i + 1));
      }
    }
  }

  // ----- the lattice

  class Lattice {
    const threads: set<ThreadRec>
    const keys: set<KeyRec>
    ghost var assocs: set<Assoc>

    /** Each association is once on its thread's chain and once on its key's chain, both chains are
        properly linked in both directions, and there is one association at most for a thread and a
        key. */
    ghost predicate Valid()
      reads this, threads, keys, assocs
    {
      && (forall t :: t in threads ==> forall a :: a in t.chain ==> a in assocs)
      && (forall k :: k in keys ==> forall a :: a in k.chain ==> a in assocs)
      && (forall t :: t in threads ==> t.ChainOk())
      && (forall k :: k in keys ==> k.ChainOk())
      && (forall a :: a in assocs ==>
            && a.thread in threads && a.key in keys && a.key.hasDestructor
            && a in a.thread.chain && a in a.key.chain)
    }

    ghost predicate Has(t: ThreadRec, k: KeyRec)
      reads this`assocs
    {
      exists a :: a in assocs && a.thread == t && a.key == k
    }

    /** An association is once on the chain of its thread and once on that of its key, on no other
        chain, and its neighbours on either axis point back at it. */
    lemma OnceOnEachChain(a: Assoc)
      requires Valid() && a in assocs
      ensures forall t :: t in threads ==> (a in t.chain <==> t == a.thread)
      ensures forall k :: k in keys ==> (a in k.chain <==> k == a.key)
      ensures forall i, j :: 0 <= i < |a.thread.chain| && 0 <= j < |a.thread.chain| && a.thread.chain[i] == a.thread.chain[j] == a ==> i == j
      ensures forall i, j :: 0 <= i < |a.key.chain| && 0 <= j < |a.key.chain| && a.key.chain[i] == a.key.chain[j] == a ==> i == j
      ensures a.nextKey != null ==> a.nextKey.prevKey == a && a.nextKey.thread == a.thread
      ensures a.prevKey != null ==> a.prevKey.nextKey == a && a.prevKey.thread == a.thread
      ensures a.nextThread != null ==> a.nextThread.prevThread == a && a.nextThread.key == a.key
      ensures a.prevThread != null ==> a.prevThread.nextThread == a && a.prevThread.key == a.key
    {
      NeighboursOf(a);
      var c, d := a.thread.chain, a.key.chain;
      var i, j := PlaceIn(c, a), PlaceIn(d, a);
      assert a.thread.Linked(i) && a.key.Linked(j);
      assert i > 0 ==> a.thread.Linked(i - 1);
      assert i + 1 < |c| ==> a.thread.Linked(i + 1);
      assert j > 0 ==> a.key.Linked(j - 1);
      assert j + 1 < |d| ==> a.key.Linked(j + 1);
    }

    lemma OneAssociationPerPair(a: Assoc, b: Assoc)
      requires Valid() && a in assocs && b in assocs && a.thread == b.thread && a.key == b.key
      ensures a == b
    {
      var c := a.thread.chain;
      assert c[PlaceIn(c, a)].key == c[PlaceIn(c, b)].key;
    }

    /** A thread's cursor is null or stands on an association still on that thread's chain. */
    lemma CursorOnChain(t: ThreadRec)
      requires Valid() && t in threads && t.nextAssoc != null
      ensures t.nextAssoc in assocs && t.nextAssoc.thread == t
      ensures t.Rest() != [] && t.Rest()[0] == t.nextAssoc
    {
      assert t.Linked(t.at) && t.chain[t.at] in t.chain;
    }

    constructor (ts: set<ThreadRec>, ks: set<KeyRec>)
      requires forall t :: t in ts ==> t.ChainOk() && t.chain == []
      requires forall k :: k in ks ==> k.ChainOk() && k.chain == []
      ensures Valid() && threads == ts && keys == ks && assocs == {}
    {
      threads, keys := ts, ks;
      assocs := {};
    }

    method PushThreadAxis(a: Assoc)
      requires a.thread in threads && (forall t :: t in threads ==> a !in t.chain)
      requires (forall t :: t in threads ==> t.ChainOk()) && (forall k :: k in keys ==> k.ChainOk())
      requires forall i :: 0 <= i < |a.thread.chain| ==> a.thread.chain[i].key != a.key
      modifies a`nextKey, a`prevKey, a.thread`keys, a.thread`chain, a.thread`at, Target(a.thread.keys)`prevKey
      ensures (forall t :: t in threads ==> t.ChainOk()) && (forall k :: k in keys ==> k.ChainOk())
      ensures a.thread.chain == [a] + old(a.thread.chain)
      ensures a.thread.Rest() == old(a.thread.Rest()) && a.thread.at == old(a.thread.at) + 1
    {
      var sp := a.thread;
      assert |sp.chain| > 0 ==> sp.Linked(0);
      forall t | t in threads && t != sp ensures sp.keys != null ==> sp.keys !in t.chain {
        if sp.keys != null { OffThread(t, sp.keys); }
      }
      PushOnThread(a);
    }

    method PushKeyAxis(a: Assoc)
      requires a.key in keys && (forall k :: k in keys ==> a !in k.chain)
      requires (forall t :: t in threads ==> t.ChainOk()) && (forall k :: k in keys ==> k.ChainOk())
      requires forall i :: 0 <= i < |a.key.chain| ==> a.key.chain[i].thread != a.thread
      modifies a`nextThread, a`prevThread, a.key`threads, a.key`chain, Target(a.key.threads)`prevThread
      ensures (forall t :: t in threads ==> t.ChainOk()) && (forall k :: k in keys ==> k.ChainOk())
      ensures a.key.chain == [a] + old(a.key.chain)
    {
      var k := a.key;
      assert |k.chain| > 0 ==> k.Linked(0);
      forall k' | k' in keys && k' != k ensures k.threads != null ==> k.threads !in k'.chain {
        if k.threads != null { OffKey(k', k.threads); }
      }
      PushOnKey(a);
    }

    method UnlinkThreadAxis(a: Assoc, ghost j: nat)
      requires a.thread in threads && j < |a.thread.chain| && a.thread.chain[j] == a
      requires (forall t :: t in threads ==> t.ChainOk()) && (forall k :: k in keys ==> k.ChainOk())
      modifies a.thread`keys, a.thread`nextAssoc, a.thread`chain, a.thread`at,
               Target(a.prevKey)`nextKey, Target(a.nextKey)`prevKey
      ensures (forall t :: t in threads ==> t.ChainOk()) && (forall k :: k in keys ==> k.ChainOk())
      ensures a.thread.chain == Without(old(a.thread.chain), j)
      ensures a.thread.at == if old(a.thread.at) > j then old(a.thread.at) - 1 else old(a.thread.at)
    {
      var sp := a.thread;
      ghost var c := sp.chain;
      assert sp.Linked(j);
      assert j > 0 ==> sp.Linked(j - 1);
      assert j + 1 < |c| ==> sp.Linked(j + 1);
      forall t | t in threads && t != sp
        ensures (a.prevKey != null ==> a.prevKey !in t.chain) && (a.nextKey != null ==> a.nextKey !in t.chain)
      {
        if a.prevKey != null { OffThread(t, a.prevKey); }
        if a.nextKey != null { OffThread(t, a.nextKey); }
      }
      var next := UnlinkFromThread(a, j);
      MoveCursor(a, next, c, j);
    }

    method UnlinkKeyAxis(a: Assoc, ghost j: nat)
      requires a.key in keys && j < |a.key.chain| && a.key.chain[j] == a
      requires (forall t :: t in threads ==> t.ChainOk()) && (forall k :: k in keys ==> k.ChainOk())
      modifies a.key`threads, a.key`chain, Target(a.prevThread)`nextThread, Target(a.nextThread)`prevThread
      ensures (forall t :: t in threads ==> t.ChainOk()) && (forall k :: k in keys ==> k.ChainOk())
      ensures a.key.chain == Without(old(a.key.chain), j)
    {
      var k := a.key;
      assert k.Linked(j);
      assert j > 0 ==> k.Linked(j - 1);
      assert j + 1 < |k.chain| ==> k.Linked(j + 1);
      forall k' | k' in keys && k' != k
        ensures (a.prevThread != null ==> a.prevThread !in k'.chain) && (a.nextThread != null ==> a.nextThread !in k'.chain)
      {
        if a.prevThread != null { OffKey(k', a.prevThread); }
        if a.nextThread != null { OffKey(k', a.nextThread); }
      }
      UnlinkFromKey(a, j);
    }

    lemma NoPairYet(sp: ThreadRec, k: KeyRec)
      requires Valid() && sp in threads && k in keys
      requires forall a :: a in assocs ==> a.thread != sp || a.key != k
      ensures forall i :: 0 <= i < |sp.chain| ==> sp.chain[i].key != k
      ensures forall i :: 0 <= i < |k.chain| ==> k.chain[i].thread != sp
      ensures (sp.keys != null ==> sp.keys in assocs) && (k.threads != null ==> k.threads in assocs)
    {
      forall i | 0 <= i < |sp.chain| ensures sp.chain[i].key != k {
        assert sp.Linked(i) && sp.chain[i] in sp.chain;
      }
      forall i | 0 <= i < |k.chain| ensures k.chain[i].thread != sp {
        assert k.Linked(i) && k.chain[i] in k.chain;
      }
    }

    method Create(sp: ThreadRec, k: KeyRec) returns (a: Assoc)
      requires Valid() && sp in threads && k in keys && k.hasDestructor
      requires forall a :: a in assocs ==> a.thread != sp || a.key != k
      modifies this`assocs, sp, k, assocs
      ensures Valid()
      ensures fresh(a) && a.thread == sp && a.key == k && assocs == old(assocs) + {a}
      ensures sp.chain == [a] + old(sp.chain) && sp.Rest() == old(sp.Rest()) && sp.tls == old(sp.tls)
      ensures sp.at == old(sp.at) + 1
      ensures k.chain == [a] + old(k.chain)
      ensures forall t :: t in threads && t != sp ==> t.chain == old(t.chain) && t.at == old(t.at) && t.tls == old(t.tls)
      ensures forall k' :: k' in keys && k' != k ==> k'.chain == old(k'.chain)
    {
      hide ThreadRec.ChainOk, KeyRec.ChainOk;
      NoPairYet(sp, k);
      a := new Assoc(sp, k);
      assocs := assocs + {a};
      PushKeyAxis(a);
      PushThreadAxis(a);
      Attached(a);
    }

    /** The two chains and the set of associations have each got one more element. */
    twostate lemma Attached(new a: Assoc)
      requires a.thread in threads && a.key in keys && a.key.hasDestructor
      requires old(forall t :: t in threads ==> forall x :: x in t.chain ==> x in assocs)
      requires old(forall k :: k in keys ==> forall x :: x in k.chain ==> x in assocs)
      requires old(forall x :: x in assocs ==>
                     && x.thread in threads && x.key in keys && x.key.hasDestructor
                     && x in x.thread.chain && x in x.key.chain)
      requires assocs == old(assocs) + {a}
      requires forall t :: t in threads ==> t.chain == if t == a.thread then [a] + old(t.chain) else old(t.chain)
      requires forall k :: k in keys ==> k.chain == if k == a.key then [a] + old(k.chain) else old(k.chain)
      ensures forall t :: t in threads ==> forall x :: x in t.chain ==> x in assocs
      ensures forall k :: k in keys ==> forall x :: x in k.chain ==> x in assocs
      ensures forall x :: x in assocs ==>
                && x.thread in threads && x.key in keys && x.key.hasDestructor
                && x in x.thread.chain && x in x.key.chain
    {
    }

    lemma NeighboursOf(a: Assoc)
      requires Valid() && a in assocs
      ensures a.prevKey != null ==> a.prevKey in assocs
      ensures a.nextKey != null ==> a.nextKey in assocs
      ensures a.prevThread != null ==> a.prevThread in assocs
      ensures a.nextThread != null ==> a.nextThread in assocs
      ensures forall t :: t in threads && t != a.thread ==> a !in t.chain
      ensures forall k :: k in keys && k != a.key ==> a !in k.chain
      ensures forall i :: 0 <= i < |a.thread.chain| && a.thread.chain[i] == a ==> i == PlaceIn(a.thread.chain, a)
      ensures forall i :: 0 <= i < |a.key.chain| && a.key.chain[i] == a ==> i == PlaceIn(a.key.chain, a)
    {
      forall t | t in threads && t != a.thread ensures a !in t.chain {
        OffThread(t, a);
      }
      forall k | k in keys && k != a.key ensures a !in k.chain {
        OffKey(k, a);
      }
      var c, d := a.thread.chain, a.key.chain;
      var i, j := PlaceIn(c, a), PlaceIn(d, a);
      assert a.thread.Linked(i) && a.key.Linked(j);
      assert i > 0 ==> c[i - 1] in c;
      assert i + 1 < |c| ==> c[i + 1] in c;
      assert j > 0 ==> d[j - 1] in d;
      assert j + 1 < |d| ==> d[j + 1] in d;
    }

    method Unlink(a: Assoc, ghost i: nat, ghost j: nat)
      requires a.thread in threads && i < |a.thread.chain| && a.thread.chain[i] == a
      requires a.key in keys && j < |a.key.chain| && a.key.chain[j] == a
      requires (forall t :: t in threads ==> t.ChainOk()) && (forall k :: k in keys ==> k.ChainOk())
      modifies a.thread`keys, a.thread`nextAssoc, a.thread`chain, a.thread`at, a.key`threads, a.key`chain,
               Target(a.prevKey)`nextKey, Target(a.nextKey)`prevKey,
               Target(a.prevThread)`nextThread, Target(a.nextThread)`prevThread
      ensures (forall t :: t in threads ==> t.ChainOk()) && (forall k :: k in keys ==> k.ChainOk())
      ensures a.thread.chain == Without(old(a.thread.chain), i)
      ensures a.thread.at == if old(a.thread.at) > i then old(a.thread.at) - 1 else old(a.thread.at)
      ensures a.key.chain == Without(old(a.key.chain), j)
    {
      hide ThreadRec.ChainOk, KeyRec.ChainOk, Without;
      UnlinkThreadAxis(a, i);
      UnlinkKeyAxis(a, j);
    }

    method Destroy(a: Assoc)
      requires Valid() && a in assocs
      modifies this`assocs, a.thread, a.key, assocs
      ensures Valid() && assocs == old(assocs) - {a}
      ensures var j := PlaceIn(old(a.thread.chain), a);
              && a.thread.chain == Without(old(a.thread.chain), j)
              && a.thread.at == if old(a.thread.at) > j then old(a.thread.at) - 1 else old(a.thread.at)
      ensures a.thread.tls == old(a.thread.tls)
      ensures a.key.chain == Without(old(a.key.chain), PlaceIn(old(a.key.chain), a))
      ensures forall t :: t in threads && t != a.thread ==>
                t.chain == old(t.chain) && t.at == old(t.at) && t.tls == old(t.tls)
      ensures forall k :: k in keys && k != a.key ==> k.chain == old(k.chain)
    {
      hide ThreadRec.ChainOk, KeyRec.ChainOk, Without, PlaceIn;
      NeighboursOf(a);
      assocs := assocs - {a};
      Unlink(a, PlaceIn(a.thread.chain, a), PlaceIn(a.key.chain, a));
      Detached(a);
    }

    twostate lemma Detached(a: Assoc)
      requires old(forall t :: t in threads ==> forall x :: x in t.chain ==> x in assocs)
      requires old(forall k :: k in keys ==> forall x :: x in k.chain ==> x in assocs)
      requires old(forall x :: x in assocs ==>
                     && x.thread in threads && x.key in keys && x.key.hasDestructor
                     && x in x.thread.chain && x in x.key.chain)
      requires old(forall t :: t in threads && t != a.thread ==> a !in t.chain)
      requires old(forall k :: k in keys && k != a.key ==> a !in k.chain)
      requires a in old(a.thread.chain) && a in old(a.key.chain)
      requires assocs == old(assocs) - {a}
      requires forall t :: t in threads ==>
                 t.chain == if t == a.thread then Without(old(t.chain), PlaceIn(old(t.chain), a)) else old(t.chain)
      requires forall k :: k in keys ==>
                 k.chain == if k == a.key then Without(old(k.chain), PlaceIn(old(k.chain), a)) else old(k.chain)
      requires old(forall i :: 0 <= i < |a.thread.chain| && a.thread.chain[i] == a ==> i == PlaceIn(a.thread.chain, a))
      requires old(forall i :: 0 <= i < |a.key.chain| && a.key.chain[i] == a ==> i == PlaceIn(a.key.chain, a))
      ensures forall t :: t in threads ==> forall x :: x in t.chain ==> x in assocs
      ensures forall k :: k in keys ==> forall x :: x in k.chain ==> x in assocs
      ensures forall x :: x in assocs ==>
                && x.thread in threads && x.key in keys && x.key.hasDestructor
                && x in x.thread.chain && x in x.key.chain
    {
      WithoutMembers(old(a.thread.chain), a);
      WithoutMembers(old(a.key.chain), a);
    }

    /** The body of the loop of pthread_key_delete: whatever heads the key's chain is removed. */
    method DestroyFirst(k: KeyRec)
      requires Valid() && k in keys
      modifies this`assocs, k, assocs, threads
      ensures Valid() && assocs <= old(assocs)
      ensures forall a :: a in old(assocs) && a.key != k ==> a in assocs
      ensures k.chain == if old(k.chain) == [] then [] else old(k.chain)[1..]
      ensures forall t :: t in threads ==> t.tls == old(t.tls)
      ensures forall t :: t in threads ==> RestShrinks(t) && (old(t.at) == 0 ==> t.at == 0)
    {
      if k.threads != null {
        var a := k.threads;
        assert a == k.chain[0] && a in k.chain && k.Linked(0);
        ghost var c, at, j := a.thread.chain, a.thread.at, PlaceIn(a.thread.chain, a);
        Destroy(a);
        WithoutRest(c, at, j);
      }
    }

    /** Nothing new comes before the cursor of `t`. */
    twostate predicate RestShrinks(t: ThreadRec)
      reads t
    {
      && |t.Rest()| <= |old(t.Rest())|
      && forall x :: x in t.Rest() ==> x in old(t.Rest())
    }

    lemma OnChainIff(sp: ThreadRec, a: Assoc)
      requires Valid() && sp in threads
      ensures a in sp.chain <==> a in assocs && a.thread == sp
    {
      if a in sp.chain {
        assert sp.Linked(PlaceIn(sp.chain, a));
      }
    }

    method SearchOrCreate(sp: ThreadRec, k: KeyRec)
      requires Valid() && sp in threads && k in keys && k.hasDestructor
      modifies this`assocs, sp, k, assocs
      ensures Valid() && Has(sp, k)
      ensures old(assocs) <= assocs && fresh(assocs - old(assocs))
      ensures sp.tls == old(sp.tls) && sp.Rest() == old(sp.Rest())
      ensures forall a :: a in assocs - old(assocs) ==> a.thread == sp && a.key == k
      ensures forall t :: t in threads && t != sp ==> t.chain == old(t.chain) && t.at == old(t.at) && t.tls == old(t.tls)
    {
      hide ThreadRec.ChainOk, KeyRec.ChainOk;
      var assoc := sp.Find(k);
      if assoc == null {
        forall a | a in assocs ensures a.thread != sp || a.key != k { OnChainIff(sp, a); }
        assoc := Create(sp, k);
      } else {
        OnChainIff(sp, assoc);
      }
    }

    /** pthread_setspecific: search the thread's chain for the key, and create an association if there
        is none and the value will need a destructor. */
    method SetSpecific(sp: ThreadRec, k: KeyRec, value: nat)
      requires Valid() && sp in threads && k in keys
      modifies this`assocs, sp, k, assocs
      ensures Valid()
      ensures old(assocs) <= assocs && fresh(assocs - old(assocs))
      ensures sp.tls == old(sp.tls)[k := value] && sp.Rest() == old(sp.Rest())
      ensures forall a :: a in assocs - old(assocs) ==> a.thread == sp && a.key == k
      ensures Has(sp, k) <==> (k.hasDestructor && value != 0) || old(Has(sp, k))
      ensures forall t :: t in threads && t != sp ==> t.chain == old(t.chain) && t.at == old(t.at) && t.tls == old(t.tls)
    {
      hide ThreadRec.ChainOk, KeyRec.ChainOk;
      if k.hasDestructor && value != 0 {
        SearchOrCreate(sp, k);
      }
      sp.tls := sp.tls[k := value];
    }
  }

  /** A cursor at `at` keeps what it has before it, but for the element removed. */
  lemma WithoutRest(c: seq<Assoc>, at: nat, j: nat)
    requires j < |c| && at <= |c|
    ensures var d := Without(c, j); var at' := if at > j then at - 1 else at;
            && at' <= |d| && |d[at'..]| <= |c[at..]|
            && forall x :: x in d[at'..] ==> x in c[at..]
  {
    var d := Without(c, j);
    var at' := if at > j then at - 1 else at;
    forall x | x in d[at'..] ensures x in c[at..] {
      var i :| 0 <= i < |d[at'..]| && d[at'..][i] == x;
      var i' := at' + i;
      assert x == c[if i' < j then i' else i' + 1];
      assert x == c[at..][(if i' < j then i' else i' + 1) - at];
    }
  }

  lemma WithoutMembers(c: seq<Assoc>, a: Assoc)
    requires a in c && forall i :: 0 <= i < |c| && c[i] == a ==> i == PlaceIn(c, a)
    ensures forall x :: x in Without(c, PlaceIn(c, a)) <==> x in c && x != a
  {
    var j := PlaceIn(c, a);
    var d := Without(c, j);
    forall x | x in c && x != a ensures x in d {
      var i :| 0 <= i < |c| && c[i] == x;
      assert d[if i < j then i else i - 1] == x;
    }
    forall x | x in d ensures x in c && x != a {
      var i :| 0 <= i < |d| && d[i] == x;
      assert c[if i < j then i else i + 1] == x;
    }
  }
}
