/** The pool of thread structs: never freed, each kept with its handle, and handed out again in the order
    in which they came back. */
module ReusePool {

  /** A link of the pool: null outside it, and a value of its own at its end. */
  datatype Link = Null | Empty | To(node: ThreadStruct)

  datatype RunState = Initial | Running | Last | Reuse

  class ThreadStruct {
    var x: nat               // the reuse counter of the handle kept in the struct
    var state: RunState
    var detached: bool
    var prevReuse: Link

    /** What calloc gives. */
    constructor ()
      ensures x == 0 && state == Initial && !detached && prevReuse == Null
    {
      x, state, detached, prevReuse := 0, Initial, false, Null;
    }
  }

  datatype Handle = Nil | Handle(p: ThreadStruct, x: nat)

  class Pool {
    var top: Link
    var bottom: Link
    ghost var queue: seq<ThreadStruct>

    ghost predicate Linked(i: nat)
      requires i < |queue|
      reads this`queue, queue`prevReuse
    {
      queue[i].prevReuse == if i + 1 < |queue| then To(queue[i + 1]) else Empty
    }

    /** `queue` is what the links give, from the top to the bottom, each struct once. */
    ghost predicate Valid()
      reads this, queue`prevReuse
    {
      && top == (if queue == [] then Empty else To(queue[0]))
      && bottom == (if queue == [] then Empty else To(queue[|queue| - 1]))
      && (forall i :: 0 <= i < |queue| ==> Linked(i))
      && (forall i, j :: 0 <= i < j < |queue| ==> queue[i] != queue[j])
    }

    constructor ()
      ensures Valid() && queue == []
    {
      top, bottom := Empty, Empty;
      queue := [];
    }

    /** ptw32_threadReusePop: the struct that has been in the pool longest, with its handle as it is. */
    method Pop() returns (t: Handle)
      requires Valid()
      modifies this, Target(top)`prevReuse
      ensures Valid()
      ensures if old(queue) == [] then t == Nil && queue == []
              else t == Handle(old(queue)[0], old(queue)[0].x) && queue == old(queue)[1..] && t.p.prevReuse == Null
    {
      t := Nil;
      if top != Empty {
        var tp := top.node;
        assert Linked(0);
        top := tp.prevReuse;
        if top == Empty {
          bottom := Empty;
        }
        tp.prevReuse := Null;
        t := Handle(tp, tp.x);
        queue := queue[1..];
        forall i | 0 <= i < |queue| ensures Linked(i) {
          assert old(Linked(i + 1));
        }
      }
    }

    /** ptw32_threadReusePush: wipe the struct, step its counter, and put it at the bottom. */
    method Push(tp: ThreadStruct)
      requires Valid() && tp !in queue
      modifies this, tp, Target(bottom)`prevReuse
      ensures Valid() && queue == old(queue) + [tp]
      ensures tp.x == old(tp.x) + 1 && tp.state == Reuse && !tp.detached
    {
      tp.x := tp.x + 1;
      tp.detached := false;
      tp.state := Reuse;
      tp.prevReuse := Empty;
      if bottom != Empty {
        bottom.node.prevReuse := To(tp);
      } else {
        top := To(tp);
      }
      bottom := To(tp);
      queue := queue + [tp];
      forall i | 0 <= i < |queue| ensures Linked(i) {
        if i < |queue| - 1 {
          assert old(Linked(i));
        }
      }
    }

    /** ptw32_new: reuse a struct if there is one, make one otherwise. */
    method New() returns (t: Handle)
      requires Valid()
      modifies this, Target(top)`prevReuse, Target(top)`detached
      ensures Valid() && t.Handle? && t.p !in queue && t.x == t.p.x && !t.p.detached
      ensures if old(queue) == [] then fresh(t.p) && t.x == 0 && queue == []
              else t.p == old(queue)[0] && t.x == old(t.p.x) && queue == old(queue)[1..]
    {
      t := Pop();
      if t == Nil {
        var tp := new ThreadStruct();
        t := Handle(tp, tp.x);
      }
      t.p.detached := false;
    }
  }

  ghost function Target(l: Link): set<ThreadStruct>
  {
    if l.To? then {l.node} else {}
  }

  // ----- first in, first out, over any run of pops and pushes

  datatype PoolOp = PopOp | PushOp(tp: ThreadStruct)

  ghost function After(q: seq<ThreadStruct>, op: PoolOp): seq<ThreadStruct>
  {
    match op
    case PopOp => if q == [] then q else q[1..]
    case PushOp(tp) => q + [tp]
  }

  ghost function Popped(q: seq<ThreadStruct>, ops: seq<PoolOp>): seq<ThreadStruct>
    decreases |ops|
  {
    if ops == [] then []
    else (if ops[0].PopOp? && q != [] then [q[0]] else []) + Popped(After(q, ops[0]), ops[1..])
  }

  ghost function Left(q: seq<ThreadStruct>, ops: seq<PoolOp>): seq<ThreadStruct>
    decreases |ops|
  {
    if ops == [] then q else Left(After(q, ops[0]), ops[1..])
  }

  ghost function Pushed(ops: seq<PoolOp>): seq<ThreadStruct>
  {
    if ops == [] then [] else (if ops[0].PushOp? then [ops[0].tp] else []) + Pushed(ops[1..])
  }

  lemma RegroupPop(q: seq<ThreadStruct>, popped: seq<ThreadStruct>, left: seq<ThreadStruct>, pushed: seq<ThreadStruct>)
    requires q != [] && popped + left == q[1..] + pushed
    ensures ([q[0]] + popped) + left == q + pushed
  {
    assert ([q[0]] + popped) + left == [q[0]] + (popped + left);
    assert [q[0]] + (q[1..] + pushed) == q + pushed;
  }

  lemma RegroupPush(q: seq<ThreadStruct>, tp: ThreadStruct, pushed: seq<ThreadStruct>)
    ensures (q + [tp]) + pushed == q + ([tp] + pushed)
  {
  }

  lemma NothingAdded(s: seq<ThreadStruct>)
    ensures [] + s == s
  {
  }

  /** What has come out, and then what is left, is what was there and then what went in, in order. */
  lemma {:induction false} PoolIsFifo(q: seq<ThreadStruct>, ops: seq<PoolOp>)
    ensures Popped(q, ops) + Left(q, ops) == q + Pushed(ops)
    decreases |ops|
  {
    if ops != [] {
      var q', rest := After(q, ops[0]), ops[1..];
      var popped, left, pushed := Popped(q', rest), Left(q', rest), Pushed(rest);
      PoolIsFifo(q', rest);
      NothingAdded(popped);
      NothingAdded(pushed);
      match ops[0]
      case PopOp =>
        assert Pushed(ops) == pushed;
        if q != [] { RegroupPop(q, popped, left, pushed); }
      case PushOp(tp) =>
        assert Popped(q, ops) == popped && Pushed(ops) == [tp] + pushed;
        RegroupPush(q, tp, pushed);
    }
  }
}
