/** What a thread does with its thread-specific data when it exits: the bounded loop over its chain of
    associations that calls the users' destructors, while those destructors and other threads go on
    using the lattice. */
module TsdExit {
  import opened Runs
  import opened TsdLattice

  const DESTRUCTOR_ITERATIONS: nat := 4

  /** What a destructor, or another thread, may do to the lattice. */
  datatype Op =
    | SetValue(t: ThreadRec, k: KeyRec, value: nat)
    | DeleteFrom(k: KeyRec)                  // one turn of the loop of pthread_key_delete

  /** A run of a user's destructor for `assoc` with `value`. */
  datatype Call = Call(assoc: Assoc, value: nat)

  /** What happens around one association that the exiting thread visits: each element of `busy` is
      done by other threads while its attempt to lock the key fails, and `destructor` while the user's
      destructor runs, if it does. */
  datatype Turn = Turn(busy: seq<seq<Op>>, destructor: seq<Op>)

  predicate Deletes(ops: seq<Op>, k: KeyRec)
  {
    exists i :: 0 <= i < |ops| && ops[i] == DeleteFrom(k)
  }

  ghost predicate NeverDeleted(env: nat -> Turn, k: KeyRec)
  {
    forall i: nat ::
      && !Deletes(env(i).destructor, k)
      && forall j :: 0 <= j < |env(i).busy| ==> !Deletes(env(i).busy[j], k)
  }

  /** Nothing else touches the lattice, and the destructors set no values. */
  ghost predicate Quiet(env: nat -> Turn)
  {
    forall i: nat :: env(i) == Turn([], [])
  }

  function Value(tls: map<KeyRec, nat>, k: KeyRec): nat
  {
    if k in tls then tls[k] else 0
  }

  /** A value that a destructor must be called for has an association to say so. */
  ghost predicate Tracked(l: Lattice, sp: ThreadRec, k: KeyRec)
    reads l`assocs, sp`tls
  {
    k.hasDestructor && Value(sp.tls, k) != 0 ==> l.Has(sp, k)
  }

  /** How often the destructor of key `k` has run, for whichever of its associations. */
  function Times(calls: seq<Call>, k: KeyRec): nat
  {
    if calls == [] then 0
    else Times(calls[..|calls| - 1], k) + if calls[|calls| - 1].assoc.key == k then 1 else 0
  }

  lemma TimesAppend(calls: seq<Call>, c: Call, k: KeyRec)
    ensures Times(calls + [c], k) == Times(calls, k) + if c.assoc.key == k then 1 else 0
  {
    assert (calls + [c])[..|calls|] == calls;
  }

  lemma {:induction false} TimesZero(calls: seq<Call>, k: KeyRec)
    requires forall i :: 0 <= i < |calls| ==> calls[i].assoc.key != k
    ensures Times(calls, k) == 0
  {
    if calls != [] {
      TimesZero(calls[..|calls| - 1], k);
    }
  }

  /** The destructor runs that the values call for, in the order of the chain. */
  ghost function CallsFor(c: seq<Assoc>, tls: map<KeyRec, nat>): seq<Call>
  {
    if c == [] then []
    else (if Value(tls, c[0].key) != 0 then [Call(c[0], Value(tls, c[0].key))] else []) + CallsFor(c[1..], tls)
  }

  lemma {:induction false} CallsForOthers(c: seq<Assoc>, tls: map<KeyRec, nat>, k: KeyRec)
    requires forall i :: 0 <= i < |c| ==> c[i].key != k
    ensures CallsFor(c, tls[k := 0]) == CallsFor(c, tls)
  {
    if c != [] {
      CallsForOthers(c[1..], tls, k);
    }
  }

  lemma {:induction false} CallsForNone(c: seq<Assoc>, tls: map<KeyRec, nat>)
    requires forall i :: 0 <= i < |c| ==> Value(tls, c[i].key) == 0
    ensures CallsFor(c, tls) == []
  {
    if c != [] {
      CallsForNone(c[1..], tls);
    }
  }

  // ----- the thread's own values, told from what it visits and what the destructors set

  /** The values of `sp` after the operations of one of its destructors. */
  function AfterSets(keys: set<KeyRec>, sp: ThreadRec, tls: map<KeyRec, nat>, ops: seq<Op>): map<KeyRec, nat>
  {
    if ops == [] then tls
    else
      var before, op := AfterSets(keys, sp, tls, ops[..|ops| - 1]), ops[|ops| - 1];
      if op.SetValue? && op.t == sp && op.k in keys then before[op.k := op.value] else before
  }

  /** A visit to an association, in the pass with the number `pass`. */
  datatype Visited = Visited(assoc: Assoc, pass: nat)

  predicate Due(tls: map<KeyRec, nat>, v: Visited)
  {
    Value(tls, v.assoc.key) != 0 && v.pass <= DESTRUCTOR_ITERATIONS
  }

  /** What a visit leaves of the values: its own is cleared, and then the destructor, if it is due, sets
      what it sets. */
  function AfterVisit(keys: set<KeyRec>, sp: ThreadRec, tls: map<KeyRec, nat>, v: Visited, destructor: seq<Op>): map<KeyRec, nat>
  {
    var cleared := tls[v.assoc.key := 0];
    if Due(tls, v) then AfterSets(keys, sp, cleared, destructor) else cleared
  }

  function CallOf(tls: map<KeyRec, nat>, v: Visited): seq<Call>
  {
    if Due(tls, v) then [Call(v.assoc, Value(tls, v.assoc.key))] else []
  }

  /** The values after all the visits so far, the destructor of each having done what the environment
      says. */
  function Replay(keys: set<KeyRec>, sp: ThreadRec, tls: map<KeyRec, nat>, trail: seq<Visited>, env: nat -> Turn): map<KeyRec, nat>
  {
    if trail == [] then tls
    else
      var n := |trail| - 1;
      AfterVisit(keys, sp, Replay(keys, sp, tls, trail[..n], env), trail[n], env(n).destructor)
  }

  /** The destructor runs that those visits call for: each with the value that is there then. */
  function CallsAlong(keys: set<KeyRec>, sp: ThreadRec, tls: map<KeyRec, nat>, trail: seq<Visited>, env: nat -> Turn): seq<Call>
  {
    if trail == [] then []
    else
      var n := |trail| - 1;
      CallsAlong(keys, sp, tls, trail[..n], env) + CallOf(Replay(keys, sp, tls, trail[..n], env), trail[n])
  }

  /** The values and the calls made are those that the trail of visits leads to. */
  predicate OnTrail(keys: set<KeyRec>, sp: ThreadRec, first: map<KeyRec, nat>, trail: seq<Visited>, env: nat -> Turn,
                    tls: map<KeyRec, nat>, calls: seq<Call>)
  {
    tls == Replay(keys, sp, first, trail, env) && calls == CallsAlong(keys, sp, first, trail, env)
  }

  function Flat(ops: seq<seq<Op>>): seq<Op>
  {
    if ops == [] then [] else Flat(ops[..|ops| - 1]) + ops[|ops| - 1]
  }

  /** What has happened to the lattice around the visits of a trail, from the visit with the number `start` on:
      what other threads did while the key was locked against the visit, and then what its destructor did. */
  function OpsAlong(keys: set<KeyRec>, sp: ThreadRec, tls: map<KeyRec, nat>, trail: seq<Visited>, env: nat -> Turn,
                    start: nat): seq<Op>
  {
    if |trail| <= start then []
    else
      var n := |trail| - 1;
      OpsAlong(keys, sp, tls, trail[..n], env, start) + Flat(env(n).busy)
      + if Due(Replay(keys, sp, tls, trail[..n], env), trail[n]) then env(n).destructor else []
  }

  /** All that has happened since then, when `tried` attempts to lock the next key have failed. */
  predicate Happened(keys: set<KeyRec>, sp: ThreadRec, first: map<KeyRec, nat>, trail: seq<Visited>, env: nat -> Turn, start: nat,
                     tried: nat, done: seq<Op>)
  {
    && tried <= |env(|trail|).busy|
    && done == OpsAlong(keys, sp, first, trail, env, start) + Flat(env(|trail|).busy[..tried])
  }

  lemma OneMoreTried(keys: set<KeyRec>, sp: ThreadRec, first: map<KeyRec, nat>, trail: seq<Visited>, env: nat -> Turn, start: nat,
                     tried: nat, done: seq<Op>)
    requires Happened(keys, sp, first, trail, env, start, tried, done) && tried < |env(|trail|).busy|
    ensures Happened(keys, sp, first, trail, env, start, tried + 1, done + env(|trail|).busy[tried])
  {
    var busy := env(|trail|).busy;
    assert busy[..tried + 1][..tried] == busy[..tried];
  }

  lemma OneMoreVisited(keys: set<KeyRec>, sp: ThreadRec, first: map<KeyRec, nat>, trail: seq<Visited>, env: nat -> Turn, start: nat,
                       done: seq<Op>, v: Visited, tls: map<KeyRec, nat>)
    requires start <= |trail| && Happened(keys, sp, first, trail, env, start, |env(|trail|).busy|, done)
    requires tls == Replay(keys, sp, first, trail, env)
    ensures Happened(keys, sp, first, trail + [v], env, start, 0, done + if Due(tls, v) then env(|trail|).destructor else [])
  {
    var busy := env(|trail|).busy;
    assert busy[..|busy|] == busy;
    assert (trail + [v])[..|trail|] == trail;
  }

  lemma NoTrailYet(keys: set<KeyRec>, sp: ThreadRec, tls: map<KeyRec, nat>, env: nat -> Turn)
    ensures OnTrail(keys, sp, tls, [], env, tls, []) && InPasses([], 0)
  {
  }

  /** The visits of the first pass come first, then those of the second, and so on. */
  predicate InPasses(trail: seq<Visited>, passes: nat)
  {
    && (forall i :: 0 <= i < |trail| ==> 1 <= trail[i].pass <= passes)
    && (forall i, j :: 0 <= i < j < |trail| ==> trail[i].pass <= trail[j].pass)
  }

  lemma PassAdded(trail: seq<Visited>, trail': seq<Visited>, pass: nat)
    requires 1 <= pass && InPasses(trail, pass - 1) && trail <= trail'
    requires forall i :: |trail| <= i < |trail'| ==> trail'[i].pass == pass
    ensures InPasses(trail', pass)
  {
    assert forall i :: 0 <= i < |trail| ==> trail'[i] == trail[i];
  }

  lemma ValuesOnTrail(keys: set<KeyRec>, sp: ThreadRec, first: map<KeyRec, nat>, trail: seq<Visited>, env: nat -> Turn,
                      tls: map<KeyRec, nat>, calls: seq<Call>)
    requires OnTrail(keys, sp, first, trail, env, tls, calls)
    ensures tls == Replay(keys, sp, first, trail, env)
  {
  }

  lemma NothingHappened(keys: set<KeyRec>, sp: ThreadRec, first: map<KeyRec, nat>, trail: seq<Visited>, env: nat -> Turn)
    ensures Happened(keys, sp, first, trail, env, |trail|, 0, [])
  {
  }

  lemma TrailGrows(keys: set<KeyRec>, sp: ThreadRec, first: map<KeyRec, nat>, trail: seq<Visited>, env: nat -> Turn,
                   tls: map<KeyRec, nat>, calls: seq<Call>, v: Visited)
    requires OnTrail(keys, sp, first, trail, env, tls, calls)
    ensures OnTrail(keys, sp, first, trail + [v], env, AfterVisit(keys, sp, tls, v, env(|trail|).destructor), calls + CallOf(tls, v))
  {
    assert (trail + [v])[..|trail|] == trail;
  }

  // ----- what may happen between two steps of the loop

  /** One operation. Only the thread `sp` itself (`own`) sets values of `sp`. */
  method RunOp(l: Lattice, sp: ThreadRec, op: Op, own: bool)
    requires l.Valid() && sp in l.threads
    modifies l`assocs, l.threads, l.keys, l.assocs
    ensures l.Valid() && fresh(l.assocs - old(l.assocs))
    ensures l.RestShrinks(sp)
    ensures !own ==> sp.tls == old(sp.tls) && (old(sp.at) == 0 ==> sp.at == 0)
    ensures own ==> sp.tls == AfterSets(l.keys, sp, old(sp.tls), [op])
    ensures op.DeleteFrom? && op.k in l.keys ==> op.k.chain == if old(op.k.chain) == [] then [] else old(op.k.chain)[1..]
    ensures op.SetValue? && op.t in l.threads && op.k in l.keys && (own || op.t != sp) ==>
              Tracked(l, op.t, op.k) && Value(op.t.tls, op.k) == op.value
    ensures forall k :: k in l.keys && op != DeleteFrom(k) && old(Tracked(l, sp, k)) ==> Tracked(l, sp, k)
  {
    hide Lattice.Valid;
    assert [op][..0] == [];
    match op
    case SetValue(t, k, value) =>
      if t in l.threads && k in l.keys && (own || t != sp) {
        l.SetSpecific(t, k, value);
      }
    case DeleteFrom(k) =>
      if k in l.keys {
        l.DestroyFirst(k);
      }
  }

  lemma NoSets(keys: set<KeyRec>, sp: ThreadRec, tls: map<KeyRec, nat>)
    ensures AfterSets(keys, sp, tls, []) == tls
  {
  }

  lemma SetsAppend(keys: set<KeyRec>, sp: ThreadRec, tls: map<KeyRec, nat>, ops: seq<Op>, i: nat)
    requires i < |ops|
    ensures AfterSets(keys, sp, tls, ops[..i + 1]) == AfterSets(keys, sp, AfterSets(keys, sp, tls, ops[..i]), [ops[i]])
  {
    assert ops[..i + 1][..i] == ops[..i];
    assert [ops[i]][..0] == [];
  }

  method RunOps(l: Lattice, sp: ThreadRec, ops: seq<Op>, own: bool) returns (ghost done: seq<Op>)
    requires l.Valid() && sp in l.threads
    modifies l`assocs, l.threads, l.keys, l.assocs
    ensures l.Valid() && fresh(l.assocs - old(l.assocs))
    ensures l.RestShrinks(sp)
    ensures !own ==> sp.tls == old(sp.tls) && (old(sp.at) == 0 ==> sp.at == 0)
    ensures own ==> sp.tls == AfterSets(l.keys, sp, old(sp.tls), ops)
    ensures done == ops
    ensures ops == [] ==> sp.chain == old(sp.chain) && sp.at == old(sp.at) && sp.tls == old(sp.tls)
    ensures forall k :: k in l.keys && !Deletes(ops, k) && old(Tracked(l, sp, k)) ==> Tracked(l, sp, k)
  {
    hide Lattice.Valid, Tracked, AfterSets, ThreadRec.Rest;
    NoSets(l.keys, sp, sp.tls);
    done := [];
    for i := 0 to |ops|
      invariant l.Valid() && fresh(l.assocs - old(l.assocs))
      invariant l.RestShrinks(sp)
      invariant !own ==> sp.tls == old(sp.tls) && (old(sp.at) == 0 ==> sp.at == 0)
      invariant own ==> sp.tls == AfterSets(l.keys, sp, old(sp.tls), ops[..i])
      invariant done == ops[..i]
      invariant ops == [] ==> sp.chain == old(sp.chain) && sp.at == old(sp.at) && sp.tls == old(sp.tls)
      invariant forall k :: k in l.keys && !Deletes(ops, k) && old(Tracked(l, sp, k)) ==> Tracked(l, sp, k)
    {
      SetsAppend(l.keys, sp, old(sp.tls), ops, i);
      RunOp(l, sp, ops[i], own);
      done := done + [ops[i]];
    }
    assert ops[..|ops|] == ops;
  }

  // ----- one association

  lemma WithoutAt(c: seq<Assoc>, at: nat)
    requires at < |c|
    ensures Without(c, at)[at..] == c[at + 1..] && Without(c, at)[..at] == c[..at]
  {
  }

  /** Move the cursor on, take the value and clear it. */
  method Take(l: Lattice, sp: ThreadRec) returns (assoc: Assoc, value: nat)
    requires l.Valid() && sp in l.threads && sp.nextAssoc != null
    modifies sp`nextAssoc, sp`at, sp`tls
    ensures l.Valid() && assoc in l.assocs && assoc.thread == sp && assoc.key in l.keys
    ensures old(sp.at) < |sp.chain| && assoc == sp.chain[old(sp.at)] && sp.at == old(sp.at) + 1
    ensures value == Value(old(sp.tls), assoc.key) && sp.tls == old(sp.tls)[assoc.key := 0]
  {
    hide ThreadRec.ChainOk, KeyRec.ChainOk;
    assoc := sp.AdvanceCursor();
    assert assoc in sp.chain;
    var k := assoc.key;
    value := Value(sp.tls, k);
    sp.tls := sp.tls[k := 0];
  }

  /** Remove the association that the cursor has just passed. */
  method Drop(l: Lattice, sp: ThreadRec, assoc: Assoc)
    requires l.Valid() && sp in l.threads && assoc in l.assocs && assoc.thread == sp
    requires 0 < sp.at <= |sp.chain| && sp.chain[sp.at - 1] == assoc && Value(sp.tls, assoc.key) == 0
    modifies l`assocs, sp, assoc.key, l.assocs
    ensures l.Valid() && l.assocs == old(l.assocs) - {assoc}
    ensures sp.at == old(sp.at) - 1 && sp.at <= |sp.chain| && sp.tls == old(sp.tls)
    ensures sp.chain[sp.at..] == old(sp.chain[sp.at..]) && sp.chain[..sp.at] == old(sp.chain[..sp.at - 1])
  {
    hide ThreadRec.ChainOk, KeyRec.ChainOk;
    l.OnceOnEachChain(assoc);
    assert PlaceIn(sp.chain, assoc) == sp.at - 1;
    WithoutAt(sp.chain, sp.at - 1);
    l.Destroy(assoc);
    assert sp.ChainOk();
  }

  /** With both locks: move the cursor on, take the value and clear it; then either the destructor is to
      be called, or the association goes. */
  method Visit(l: Lattice, sp: ThreadRec, pass: nat) returns (call: Option<Call>)
    requires l.Valid() && sp in l.threads && sp.nextAssoc != null
    modifies l`assocs, l.threads, l.keys, l.assocs
    ensures l.Valid() && l.assocs <= old(l.assocs)
    ensures old(sp.Rest()) != [] && sp.Rest() == old(sp.Rest())[1..] && sp.at <= |sp.chain|
    ensures var a := old(sp.Rest())[0]; var value := Value(old(sp.tls), a.key);
            && a.thread == sp && a.key in l.keys
            && sp.tls == old(sp.tls)[a.key := 0]
            && call == (if value != 0 && pass <= DESTRUCTOR_ITERATIONS then Some(Call(a, value)) else None)
            && (call.Some? ==> sp.chain == old(sp.chain) && sp.at == old(sp.at) + 1)
            && (call.None? ==> sp.at == old(sp.at) && sp.chain[..sp.at] == old(sp.chain[..sp.at]))
    ensures forall k :: k in l.keys && old(Tracked(l, sp, k)) ==> Tracked(l, sp, k)
  {
    hide ThreadRec.ChainOk, KeyRec.ChainOk;
    var assoc, value := Take(l, sp);
    assert assoc == old(sp.Rest())[0] && sp.Rest() == old(sp.Rest())[1..];
    if value != 0 && pass <= DESTRUCTOR_ITERATIONS {
      call := Some(Call(assoc, value));
    } else {
      call := None;
      Drop(l, sp, assoc);
    }
  }

  // ----- the loop

  /** How often destructors have run so far: for each key no more than once in each of `passes` passes,
      and in the current one not yet for the keys that the cursor has before it. */
  ghost predicate RunsBounded(calls: seq<Call>, passes: nat, before: seq<Assoc>)
  {
    && (forall i :: 0 <= i < |calls| ==>
          && calls[i].value != 0
          && Times(calls, calls[i].assoc.key) <= passes
          && Times(calls, calls[i].assoc.key) <= DESTRUCTOR_ITERATIONS)
    && (forall x :: x in before ==> Times(calls, x.key) < passes)
  }

  lemma RunsNextPass(calls: seq<Call>, passes: nat, before: seq<Assoc>, chain: seq<Assoc>)
    requires RunsBounded(calls, passes, before)
    ensures RunsBounded(calls, passes + 1, chain)
  {
    forall x | x in chain ensures Times(calls, x.key) <= passes {
      if forall i :: 0 <= i < |calls| ==> calls[i].assoc.key != x.key {
        TimesZero(calls, x.key);
      }
    }
  }

  lemma RunsShrink(calls: seq<Call>, passes: nat, before: seq<Assoc>, left: seq<Assoc>)
    requires RunsBounded(calls, passes, before) && forall x :: x in left ==> x in before
    ensures RunsBounded(calls, passes, left)
  {
  }

  lemma RunsOneMore(calls: seq<Call>, passes: nat, before: seq<Assoc>, c: Call)
    requires RunsBounded(calls, passes, before) && before != [] && c.assoc == before[0]
    requires c.value != 0 && passes <= DESTRUCTOR_ITERATIONS
    requires forall i :: 0 < i < |before| ==> before[i].key != before[0].key
    ensures RunsBounded(calls + [c], passes, before[1..])
  {
    var calls' := calls + [c];
    forall i | 0 <= i < |calls'|
      ensures calls'[i].value != 0 && Times(calls', calls'[i].assoc.key) <= passes
    {
      TimesAppend(calls, c, calls'[i].assoc.key);
    }
    forall x | x in before[1..] ensures Times(calls', x.key) < passes {
      TimesAppend(calls, c, x.key);
    }
  }

  /** A pass that begins: `sp.nextAssoc = sp.keys`. */
  method BeginPass(l: Lattice, sp: ThreadRec)
    requires l.Valid() && sp in l.threads
    modifies sp`nextAssoc, sp`at
    ensures l.Valid() && sp.at == 0
  {
    hide ThreadRec.ChainOk, KeyRec.ChainOk;
    sp.ResetCursor();
  }

  /** The associations before the cursor have been passed with their values cleared, and the calls made
      and still due are the ones called for at the start. */
  ghost predicate OnSchedule(chain: seq<Assoc>, at: nat, tls: map<KeyRec, nat>, calls: seq<Call>, full: seq<Call>)
  {
    && at <= |chain|
    && (forall i :: 0 <= i < at ==> Value(tls, chain[i].key) == 0)
    && calls + CallsFor(chain[at..], tls) == full
  }

  /** A visit keeps to the schedule, whether the association stays on the chain or goes. */
  lemma ScheduleStep(chain: seq<Assoc>, at: nat, tls: map<KeyRec, nat>, calls: seq<Call>, full: seq<Call>,
                     chain': seq<Assoc>, at': nat)
    requires OnSchedule(chain, at, tls, calls, full) && at < |chain|
    requires forall i :: at < i < |chain| ==> chain[i].key != chain[at].key
    requires at' <= |chain'| && chain'[at'..] == chain[at + 1..]
    requires if Value(tls, chain[at].key) != 0 then chain' == chain && at' == at + 1
             else at' == at && chain'[..at] == chain[..at]
    ensures var k := chain[at].key; var v := Value(tls, k);
            OnSchedule(chain', at', tls[k := 0], if v != 0 then calls + [Call(chain[at], v)] else calls, full)
  {
    var k := chain[at].key;
    assert chain[at..][0] == chain[at] && chain[at..][1..] == chain[at + 1..];
    CallsForOthers(chain[at + 1..], tls, k);
    forall i | 0 <= i < at' ensures Value(tls[k := 0], chain'[i].key) == 0 {
      assert i < at ==> chain'[i] == chain[i] by { assert i < at ==> chain'[..at][i] == chain[..at][i]; }
    }
  }

  lemma RestKeysDistinct(l: Lattice, sp: ThreadRec)
    requires l.Valid() && sp in l.threads && sp.nextAssoc != null
    ensures sp.at < |sp.chain| && forall i :: sp.at < i < |sp.chain| ==> sp.chain[i].key != sp.chain[sp.at].key
    ensures forall i :: 0 < i < |sp.Rest()| ==> sp.Rest()[i].key != sp.Rest()[0].key
  {
  }

  /** The call that a visit is due to make is the one that the trail says. */
  lemma VisitOnTrail(keys: set<KeyRec>, sp: ThreadRec, tls: map<KeyRec, nat>, v: Visited, destructor: seq<Op>, call: Option<Call>)
    requires var value := Value(tls, v.assoc.key);
             call == if value != 0 && v.pass <= DESTRUCTOR_ITERATIONS then Some(Call(v.assoc, value)) else None
    ensures call.Some? == Due(tls, v) && CallOf(tls, v) == if call.Some? then [call.value] else []
    ensures var cleared := tls[v.assoc.key := 0];
            AfterVisit(keys, sp, tls, v, destructor) == if call.Some? then AfterSets(keys, sp, cleared, destructor) else cleared
  {
  }

  /** A visit, entered in the list of calls. */
  method VisitBooked(l: Lattice, sp: ThreadRec, pass: nat, calls: seq<Call>, ghost destructor: seq<Op>, ghost full: seq<Call>)
    returns (due: bool, calls': seq<Call>)
    requires l.Valid() && sp in l.threads && sp.nextAssoc != null
    requires RunsBounded(calls, pass, sp.Rest())
    modifies l`assocs, l.threads, l.keys, l.assocs
    ensures l.Valid() && l.assocs <= old(l.assocs)
    ensures |sp.Rest()| < |old(sp.Rest())| && RunsBounded(calls', pass, sp.Rest())
    ensures var v := Visited(old(sp.Rest())[0], pass);
            && calls' == calls + CallOf(old(sp.tls), v) && due == Due(old(sp.tls), v)
            && AfterVisit(l.keys, sp, old(sp.tls), v, destructor)
               == if due then AfterSets(l.keys, sp, sp.tls, destructor) else sp.tls
    ensures if due then |calls'| > |calls| && pass <= DESTRUCTOR_ITERATIONS else calls' == calls && sp.at == old(sp.at)
    ensures forall k :: k in l.keys && old(Tracked(l, sp, k)) ==> Tracked(l, sp, k)
    ensures pass <= DESTRUCTOR_ITERATIONS && OnSchedule(old(sp.chain), old(sp.at), old(sp.tls), calls, full) ==>
              OnSchedule(sp.chain, sp.at, sp.tls, calls', full)
  {
    hide Lattice.Valid, Tracked, AfterSets, AfterVisit, CallOf;
    ghost var rest, chain, at, tls := sp.Rest(), sp.chain, sp.at, sp.tls;
    RestKeysDistinct(l, sp);
    var call := Visit(l, sp, pass);
    if pass <= DESTRUCTOR_ITERATIONS && OnSchedule(chain, at, tls, calls, full) {
      ScheduleStep(chain, at, tls, calls, full, sp.chain, sp.at);
    }
    VisitOnTrail(l.keys, sp, tls, Visited(rest[0], pass), destructor, call);
    hide OnSchedule, CallsFor, RunsBounded;
    due := call.Some?;
    calls' := if due then calls + [call.value] else calls;
    if due {
      RunsOneMore(calls, pass, rest, call.value);
    } else {
      RunsShrink(calls, pass, rest, sp.Rest());
    }
  }

  /** One turn of the inner loop that gets both locks: visit, and run the destructor if it is due. */
  method TakeTurn(l: Lattice, sp: ThreadRec, pass: nat, calls: seq<Call>, destructor: seq<Op>, ghost full: seq<Call>)
    returns (calls': seq<Call>, ghost done: seq<Op>)
    requires l.Valid() && sp in l.threads && sp.nextAssoc != null
    requires RunsBounded(calls, pass, sp.Rest())
    modifies l`assocs, l.threads, l.keys, l.assocs
    ensures l.Valid() && fresh(l.assocs - old(l.assocs))
    ensures |sp.Rest()| < |old(sp.Rest())|
    ensures var v := Visited(old(sp.Rest())[0], pass);
            && sp.tls == AfterVisit(l.keys, sp, old(sp.tls), v, destructor)
            && calls' == calls + CallOf(old(sp.tls), v)
            && done == if Due(old(sp.tls), v) then destructor else []
    ensures RunsBounded(calls', pass, sp.Rest())
    ensures calls <= calls' && (pass > DESTRUCTOR_ITERATIONS ==> calls' == calls)
    ensures calls' == calls && old(sp.at) == 0 ==> sp.at == 0
    ensures forall k :: k in l.keys && !Deletes(destructor, k) && old(Tracked(l, sp, k)) ==> Tracked(l, sp, k)
    ensures destructor == [] && pass <= DESTRUCTOR_ITERATIONS &&
              OnSchedule(old(sp.chain), old(sp.at), old(sp.tls), calls, full) ==>
              OnSchedule(sp.chain, sp.at, sp.tls, calls', full)
  {
    hide Lattice.Valid, Tracked, AfterSets, AfterVisit, CallOf, OnSchedule, RunsBounded, Deletes;
    var due;
    due, calls' := VisitBooked(l, sp, pass, calls, destructor, full);
    ghost var left := sp.Rest();
    done := [];
    if due {
      done := RunOps(l, sp, destructor, true);
    }
    RunsShrink(calls', pass, left, sp.Rest());
  }

  /** While the attempt to lock the key fails, both locks are free for others. */
  method WaitForKey(l: Lattice, sp: ThreadRec, pass: nat, ops: seq<Op>, ghost calls: seq<Call>) returns (ghost done: seq<Op>)
    requires l.Valid() && sp in l.threads
    requires RunsBounded(calls, pass, sp.Rest())
    modifies l`assocs, l.threads, l.keys, l.assocs
    ensures l.Valid() && fresh(l.assocs - old(l.assocs))
    ensures |sp.Rest()| <= |old(sp.Rest())| && RunsBounded(calls, pass, sp.Rest())
    ensures sp.tls == old(sp.tls) && done == ops
    ensures old(sp.at) == 0 ==> sp.at == 0
    ensures forall k :: k in l.keys && !Deletes(ops, k) && old(Tracked(l, sp, k)) ==> Tracked(l, sp, k)
  {
    hide Lattice.Valid, Tracked;
    ghost var rest := sp.Rest();
    done := RunOps(l, sp, ops, false);
    RunsShrink(calls, pass, rest, sp.Rest());
  }

  ghost function NextUp(l: Lattice, sp: ThreadRec): Assoc
    requires l.Valid() && sp in l.threads && sp.nextAssoc != null
    reads l, l.threads, l.keys, l.assocs
    ensures sp.Rest() != [] && NextUp(l, sp) == sp.Rest()[0]
  {
    sp.chain[sp.at]
  }

  /** A turn, entered on the trail. */
  method TurnOnTrail(l: Lattice, sp: ThreadRec, env: nat -> Turn, pass: nat, calls: seq<Call>, destructor: seq<Op>,
                     ghost full: seq<Call>, ghost first: map<KeyRec, nat>, ghost start: nat, ghost trail: seq<Visited>, ghost done: seq<Op>)
    returns (calls': seq<Call>, ghost trail': seq<Visited>, ghost done': seq<Op>)
    requires l.Valid() && sp in l.threads && sp.nextAssoc != null
    requires RunsBounded(calls, pass, sp.Rest())
    requires start <= |trail| && destructor == env(|trail|).destructor
    requires OnTrail(l.keys, sp, first, trail, env, sp.tls, calls)
    requires Happened(l.keys, sp, first, trail, env, start, |env(|trail|).busy|, done)
    modifies l`assocs, l.threads, l.keys, l.assocs
    ensures l.Valid() && fresh(l.assocs - old(l.assocs))
    ensures |sp.Rest()| < |old(sp.Rest())|
    ensures |trail'| == |trail| + 1 && trail <= trail' && trail'[|trail|].pass == pass
    ensures OnTrail(l.keys, sp, first, trail', env, sp.tls, calls')
    ensures Happened(l.keys, sp, first, trail', env, start, 0, done')
    ensures RunsBounded(calls', pass, sp.Rest())
    ensures calls <= calls' && (pass > DESTRUCTOR_ITERATIONS ==> calls' == calls)
    ensures calls' == calls && old(sp.at) == 0 ==> sp.at == 0
    ensures forall k :: k in l.keys && !Deletes(destructor, k) && old(Tracked(l, sp, k)) ==> Tracked(l, sp, k)
    ensures destructor == [] && pass <= DESTRUCTOR_ITERATIONS &&
              OnSchedule(old(sp.chain), old(sp.at), old(sp.tls), calls, full) ==>
              OnSchedule(sp.chain, sp.at, sp.tls, calls', full)
  {
    ghost var v := Visited(NextUp(l, sp), pass);
    hide Lattice.Valid, RunsBounded, Tracked, OnSchedule, AfterVisit, CallOf, Due, Deletes;
    TrailGrows(l.keys, sp, first, trail, env, sp.tls, calls, v);
    ValuesOnTrail(l.keys, sp, first, trail, env, sp.tls, calls);
    OneMoreVisited(l.keys, sp, first, trail, env, start, done, v, sp.tls);
    hide OnTrail, Happened;
    trail' := trail + [v];
    ghost var more;
    calls', more := TakeTurn(l, sp, pass, calls, destructor, full);
    done' := done + more;
  }

  /** One pass: every association that the cursor still has before it is visited. */
  method RunPass(l: Lattice, sp: ThreadRec, env: nat -> Turn, start: nat, pass: nat, calls: seq<Call>, ghost full: seq<Call>,
                 ghost first: map<KeyRec, nat>, ghost trail: seq<Visited>)
    returns (calls': seq<Call>, turn: nat, ghost trail': seq<Visited>, ghost done: seq<Op>, ghost tried: nat)
    requires l.Valid() && sp in l.threads && 1 <= pass && RunsBounded(calls, pass - 1, [])
    requires |trail| == start && OnTrail(l.keys, sp, first, trail, env, sp.tls, calls)
    modifies l`assocs, l.threads, l.keys, l.assocs
    ensures l.Valid() && fresh(l.assocs - old(l.assocs))
    ensures sp.at == |sp.chain| && RunsBounded(calls', pass, [])
    ensures |trail'| == turn && trail <= trail' && OnTrail(l.keys, sp, first, trail', env, sp.tls, calls')
    ensures forall i :: start <= i < turn ==> trail'[i].pass == pass
    ensures Happened(l.keys, sp, first, trail', env, start, tried, done)
    ensures calls <= calls' && (pass > DESTRUCTOR_ITERATIONS ==> calls' == calls)
    ensures calls' == calls ==> sp.chain == []
    ensures forall k :: k in l.keys && NeverDeleted(env, k) && old(Tracked(l, sp, k)) ==> Tracked(l, sp, k)
    ensures Quiet(env) && pass <= DESTRUCTOR_ITERATIONS && OnSchedule(old(sp.chain), 0, old(sp.tls), calls, full) ==>
              OnSchedule(sp.chain, sp.at, sp.tls, calls', full)
  {
    hide Lattice.Valid, RunsBounded, Tracked, OnSchedule, OnTrail, AfterVisit, CallOf, Happened, Due;
    BeginPass(l, sp);
    RunsNextPass(calls, pass - 1, [], sp.Rest());
    calls', turn, trail' := calls, start, trail;
    var failed := 0;
    done, tried := [], 0;
    NothingHappened(l.keys, sp, first, trail, env);
    while sp.nextAssoc != null
      invariant l.Valid() && fresh(l.assocs - old(l.assocs))
      invariant RunsBounded(calls', pass, sp.Rest())
      invariant |trail'| == turn && trail <= trail' && OnTrail(l.keys, sp, first, trail', env, sp.tls, calls')
      invariant forall i :: start <= i < turn ==> trail'[i].pass == pass
      invariant tried == failed && Happened(l.keys, sp, first, trail', env, start, tried, done) && failed <= |env(turn).busy|
      invariant calls <= calls' && (pass > DESTRUCTOR_ITERATIONS ==> calls' == calls)
      invariant calls' == calls ==> sp.at == 0
      invariant forall k :: k in l.keys && NeverDeleted(env, k) && old(Tracked(l, sp, k)) ==> Tracked(l, sp, k)
      invariant Quiet(env) && pass <= DESTRUCTOR_ITERATIONS && OnSchedule(old(sp.chain), 0, old(sp.tls), calls, full) ==>
                  OnSchedule(sp.chain, sp.at, sp.tls, calls', full)
      decreases |sp.Rest()|, |env(turn).busy| - failed
    {
      if failed < |env(turn).busy| {
        ghost var more := WaitForKey(l, sp, pass, env(turn).busy[failed], calls');
        OneMoreTried(l.keys, sp, first, trail', env, start, failed, done);
        done := done + more;
        failed, tried := failed + 1, tried + 1;
      } else {
        calls', trail', done :=
          TurnOnTrail(l, sp, env, pass, calls', env(turn).destructor, full, first, start, trail', done);
        turn, failed, tried := turn + 1, 0, 0;
      }
    }
    CursorAtEnd(l, sp);
    RunsShrink(calls', pass, sp.Rest(), []);
  }

  lemma CursorAtEnd(l: Lattice, sp: ThreadRec)
    requires l.Valid() && sp in l.threads
    ensures sp.nextAssoc == null <==> sp.at == |sp.chain|
    ensures sp.chain == [] ==> sp.keys == null && sp.nextAssoc == null
  {
  }

  lemma CallsForNoneLeft(chain: seq<Assoc>, tls: map<KeyRec, nat>)
    ensures (forall i :: 0 <= i < |chain| ==> Value(tls, chain[i].key) == 0) ==> CallsFor(chain, tls) == []
  {
    if forall i :: 0 <= i < |chain| ==> Value(tls, chain[i].key) == 0 {
      CallsForNone(chain, tls);
    }
  }

  lemma NoneLeft(l: Lattice, sp: ThreadRec)
    requires l.Valid() && sp in l.threads && sp.chain == []
    ensures forall k :: k in l.keys && k.hasDestructor && Tracked(l, sp, k) ==> Value(sp.tls, k) == 0
  {
  }

  /** Whatever the destructors and other threads do, the loop makes one pass more than
      DESTRUCTOR_ITERATIONS at most, runs the destructor of no key more often than that, though its
      associations be deleted and made again, and leaves the thread's chain empty. No value that needs a
      destructor is left behind, unless its key is being deleted meanwhile. Every destructor runs with the
      value that is there when its association is visited, and the values that destructors set are the ones
      found later. If nothing else interferes, the destructors that run are exactly those whose values were
      set, once each, in the order of the chain. */
  method CallUserDestroyRoutines(l: Lattice, sp: ThreadRec, env: nat -> Turn) 
    returns (passes: nat, calls: seq<Call>, ghost trail: seq<Visited>)
    requires l.Valid() && sp in l.threads
    modifies l`assocs, l.threads, l.keys, l.assocs
    ensures l.Valid() && sp.chain == [] && sp.keys == null && sp.nextAssoc == null
    ensures 1 <= passes <= DESTRUCTOR_ITERATIONS + 1
    ensures forall i :: 0 <= i < |calls| ==> calls[i].value != 0 && Times(calls, calls[i].assoc.key) <= DESTRUCTOR_ITERATIONS
    ensures forall k :: k in l.keys && k.hasDestructor && NeverDeleted(env, k) && old(Tracked(l, sp, k)) ==> Value(sp.tls, k) == 0
    ensures OnTrail(l.keys, sp, old(sp.tls), trail, env, sp.tls, calls)
    ensures InPasses(trail, passes)
    ensures Quiet(env) ==> calls == CallsFor(old(sp.chain), old(sp.tls))
  {
    hide Lattice.Valid, Tracked, OnTrail, InPasses, Happened;
    ghost var full := CallsFor(sp.chain, sp.tls);
    var turn, remaining := 0, true;
    passes, calls, trail := 0, [], [];
    NoTrailYet(l.keys, sp, sp.tls, env);
    while remaining
      invariant l.Valid() && fresh(l.assocs - old(l.assocs))
      invariant passes <= DESTRUCTOR_ITERATIONS + 1 && (passes == DESTRUCTOR_ITERATIONS + 1 ==> !remaining)
      invariant RunsBounded(calls, passes, [])
      invariant |trail| == turn && OnTrail(l.keys, sp, old(sp.tls), trail, env, sp.tls, calls)
      invariant InPasses(trail, passes)
      invariant if remaining then true else passes > 0 && sp.chain == []
      invariant forall k :: k in l.keys && NeverDeleted(env, k) && old(Tracked(l, sp, k)) ==> Tracked(l, sp, k)
      invariant Quiet(env) ==> OnSchedule(sp.chain, 0, sp.tls, calls, full)
      invariant Quiet(env) && passes > 0 ==> calls == full && (passes > 1 ==> !remaining)
      decreases DESTRUCTOR_ITERATIONS + 1 - passes, remaining
    {
      passes := passes + 1;
      var before := calls;
      ghost var sofar := trail;
      ghost var done, tried;
      calls, turn, trail, done, tried := RunPass(l, sp, env, turn, passes, before, full, old(sp.tls), trail);
      remaining := calls != before;
      PassAdded(sofar, trail, passes);
      CallsForNoneLeft(sp.chain, sp.tls);
    }
    CursorAtEnd(l, sp);
    NoneLeft(l, sp);
  }
}
