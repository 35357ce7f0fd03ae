/** What a call on the MCS lock comes to between its start and its return, whatever other threads do
    meanwhile. */
module McsCalls {
  import opened Runs
  import opened McsLock
  import opened McsInvariant
  import opened McsTheorems

  predicate AtRest(p: Pc) { p.Idle? || p.Held? }

  /** The thread is in a call. */
  function InCall(t: nat): State -> bool
  {
    (s: State) => t < |s.threads| && !AtRest(s.threads[t])
  }

  predicate IsCall(a: Action) { a.Acquire? || a.TryAcquire? || a.Release? || a.Transfer? }

  /** What an observer notes of the steps of thread `t`: how often they made the queue longer, shorter, and
      put another node at its head. */
  datatype Notes = Notes(joined: nat, left: nat, renamed: nat)

  const BLANK := Notes(0, 0, 0)

  function Noted(t: nat, h: Notes, s: State, a: Action, s': State): Notes
  {
    if a.t != t then h
    else Notes(h.joined + if |s'.queue| > |s.queue| then 1 else 0,
               h.left + if |s'.queue| < |s.queue| then 1 else 0,
               h.renamed + if |s'.queue| == |s.queue| && s'.queue != s.queue then 1 else 0)
  }

  function Noting(t: nat): (Notes, State, Action, State) -> Notes
  {
    (h: Notes, s: State, a: Action, s': State) => Noted(t, h, s, a, s')
  }

  /** `own` is the node that the call brings with it, `free` whether the queue was empty at the call. */
  predicate Outcome(call: Action, own: nat, free: bool, p: Pc, h: Notes)
  {
    match call
    case Acquire(_) => p == Held(own) && h == Notes(1, 0, 0)
    case TryAcquire(_) => if free then p == Held(own) && h == Notes(1, 0, 0) else p.Idle? && h == BLANK
    case Release(_) => p.Idle? && h == Notes(0, 1, 0)
    case Transfer(_) => p == Held(own) && h == Notes(0, 0, 1)
    case _ => false
  }

  predicate ReleasePoint(p: Pc)
  {
    p.Reading? || p.Swapping? || p.AwaitingLink? || p.Rereading? || p.Passing?
  }

  predicate Midway(call: Action, own: nat, p: Pc, h: Notes)
  {
    match call
    case Acquire(_) => Queued(p) && p.node == own && h == Notes(1, 0, 0)
    case Release(_) => ReleasePoint(p) && h == BLANK
    case Transfer(_) => (p.Moving? || p.Spinning? || p.Copying?) && p.to == own && h == BLANK
    case _ => false
  }

  predicate Follows(call: Action, own: nat, free: bool, p: Pc, h: Notes)
  {
    if AtRest(p) then Outcome(call, own, free, p, h) else Midway(call, own, p, h)
  }

  lemma CallFollows(s: State, call: Action)
    requires Inv(s) && IsCall(call) && Step(s, call).Some?
    ensures var s1 := Step(s, call).value;
            && call.t < |s1.threads|
            && Follows(call, |s.nodes|, s.queue == [], s1.threads[call.t], Noted(call.t, BLANK, s, call, s1))
  {
    hide PlaceOk, LinkOk, HeadOk;
  }

  lemma AcquireFollows(s: State, t: nat, call: Action, own: nat, free: bool, h: Notes)
    requires Inv(s) && t < |s.threads| && StepGo(s, t).Some? && call.Acquire? && Midway(call, own, s.threads[t], h)
    ensures var s' := StepGo(s, t).value;
            t < |s'.threads| && Follows(call, own, free, s'.threads[t], Noted(t, h, s, Go(t), s'))
  {
    hide Inv;
  }

  lemma ReleaseFollows(s: State, t: nat, call: Action, own: nat, free: bool, h: Notes)
    requires Inv(s) && t < |s.threads| && StepGo(s, t).Some? && call.Release? && Midway(call, own, s.threads[t], h)
    ensures var s' := StepGo(s, t).value;
            t < |s'.threads| && Follows(call, own, free, s'.threads[t], Noted(t, h, s, Go(t), s'))
  {
    var k := PlaceOf(s, t);
    hide Inv;
  }

  lemma TransferFollows(s: State, t: nat, call: Action, own: nat, free: bool, h: Notes)
    requires Inv(s) && t < |s.threads| && StepGo(s, t).Some? && call.Transfer? && Midway(call, own, s.threads[t], h)
    ensures var s' := StepGo(s, t).value;
            t < |s'.threads| && Follows(call, own, free, s'.threads[t], Noted(t, h, s, Go(t), s'))
  {
    var k := PlaceOf(s, t);
    assert Private(s, s.threads[t].to);
    assert s.queue[0] != s.threads[t].to;
    hide Inv;
  }

  lemma OthersLeaveAlone(s: State, a: Action, t: nat)
    requires Step(s, a).Some? && t < |s.threads| && a.t != t && !AtRest(s.threads[t])
    ensures t < |Step(s, a).value.threads| && Step(s, a).value.threads[t] == s.threads[t]
  {
  }

  lemma StepFollows(s: State, a: Action, t: nat, call: Action, own: nat, free: bool, h: Notes)
    requires Inv(s) && Step(s, a).Some? && t < |s.threads| && !AtRest(s.threads[t])
    requires Follows(call, own, free, s.threads[t], h)
    ensures var s' := Step(s, a).value;
            t < |s'.threads| && Follows(call, own, free, s'.threads[t], Noted(t, h, s, a, s'))
  {
    assert Midway(call, own, s.threads[t], h) && (call.Acquire? || call.Release? || call.Transfer?);
    hide Inv, StepGo, Follows, Midway;
    if a.t != t {
      OthersLeaveAlone(s, a, t);
    } else if call.Acquire? {
      AcquireFollows(s, t, call, own, free, h);
    } else if call.Release? {
      ReleaseFollows(s, t, call, own, free, h);
    } else {
      TransferFollows(s, t, call, own, free, h);
    }
  }

  /** Over any run from a call to its return: acquire has joined the queue once, with the node it brought, and
      holds the lock with it; try_acquire has done so if and only if the queue was empty, and nothing else;
      release has taken one node off the head and leaves its thread without any; node_transfer has put the
      new node at the head for the old one, once, and holds the lock with it. */
  lemma CallOutcome(s: State, n: nat, call: Action, run: seq<Action>)
    requires Reachable(s, n) && IsCall(call) && Step(s, call).Some?
    requires While(Step(s, call).value, run, Step, InCall(call.t))
    ensures var t, s1 := call.t, Step(s, call).value;
            var r, h := Exec(s1, run, Step), Fold(s1, run, Step, Noting(t), Noted(t, BLANK, s, call, s1));
            && r.Some? && t < |r.value.threads|
            && (AtRest(r.value.threads[t]) ==> Outcome(call, |s.nodes|, s.queue == [], r.value.threads[t], h))
            && (!AtRest(r.value.threads[t]) ==> Midway(call, |s.nodes|, r.value.threads[t], h))
  {
    ReachableInv(s, n);
    var s1, t := Step(s, call).value, call.t;
    StepKeepsInv(s, call);
    CallFollows(s, call);
    var inv := (x: State, h: Notes) =>
      Inv(x) && t < |x.threads| && Follows(call, |s.nodes|, s.queue == [], x.threads[t], h);
    forall x, h, a | InCall(t)(x) && inv(x, h) && Step(x, a).Some?
      ensures inv(Step(x, a).value, Noted(t, h, x, a, Step(x, a).value))
    {
      StepKeepsInv(x, a);
      StepFollows(x, a, t, call, |s.nodes|, s.queue == [], h);
    }
    hide Inv;
    WhileKeeps(s1, run, Step, InCall(t), Noting(t), Noted(t, BLANK, s, call, s1), inv);
  }

  /** A hold that is handed over is the other thread's: it has the node, still at the head. */
  lemma HandedOver(s: State, n: nat, t: nat, to: nat)
    requires Reachable(s, n) && Step(s, HandOver(t, to)).Some?
    ensures var s' := Step(s, HandOver(t, to)).value;
            && s'.queue == s.queue && s.queue != [] && t < |s'.threads| && to < |s'.threads|
            && s'.threads[to] == Held(s.queue[0]) && s'.threads[t].Idle?
  {
    ReachableInv(s, n);
    var k := PlaceOf(s, t);
    hide Inv;
  }

  /** A thread without a node can acquire, one that holds the lock can release, transfer and hand over. */
  lemma CallsCanBegin(s: State, n: nat, t: nat, to: nat)
    requires Reachable(s, n) && t < |s.threads|
    ensures s.threads[t].Idle? ==> Step(s, Acquire(t)).Some? && Step(s, TryAcquire(t)).Some?
    ensures s.threads[t].Held? ==> Step(s, Release(t)).Some? && Step(s, Transfer(t)).Some?
    ensures s.threads[t].Held? && to < |s.threads| && s.threads[to].Idle? ==> Step(s, HandOver(t, to)).Some?
  {
    ReachableInv(s, n);
    if s.threads[t].Held? {
      var k := PlaceOf(s, t);
    }
    hide Inv;
  }

}
