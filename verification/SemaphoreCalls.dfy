/** What a call on a semaphore comes to between its start and its return, whatever other threads do
    meanwhile. */
module SemaphoreCalls {
  import opened Counting
  import opened Runs
  import opened Semaphore

  /** The thread is in a call. */
  function InCall(t: nat): State -> bool
  {
    (s: State) => t < |s.threads| && !s.threads[t].Idle?
  }

  predicate IsCall(a: Action) { a.Wait? || a.TryWait? || a.Post? }

  /** What an observer notes of the steps of thread `t`: the permits they were granted and posted, by how
      much they changed the supply, and whether they gave up the wait. */
  datatype Notes = Notes(granted: int, posted: int, supplied: int, gaveUp: bool)

  const BLANK := Notes(0, 0, 0, false)

  function Noted(t: nat, h: Notes, s: State, a: Action, s': State): Notes
  {
    if a.t != t then h
    else Notes(h.granted + s'.granted - s.granted, h.posted + s'.posted - s.posted,
               h.supplied + s'.f.Supply() - s.f.Supply(), h.gaveUp || a.GiveUp?)
  }

  function Noting(t: nat): (Notes, State, Action, State) -> Notes
  {
    (h: Notes, s: State, a: Action, s': State) => Noted(t, h, s, a, s')
  }

  /** What the call may have come to, with `f` the counts at the call. */
  predicate Outcome(call: Action, f: Fields, h: Notes)
  {
    && h.supplied == h.posted - h.granted
    && match call
       case Wait(_, kind) =>
         h.posted == 0 && if h.gaveUp then kind != Plain && f.Free() == 0 && 0 <= h.granted <= 1 else h.granted == 1
       case TryWait(_) => h.posted == 0 && !h.gaveUp && h.granted == if f.Free() > 0 then 1 else 0
       case Post(_, count) =>
         h.granted == 0 && !h.gaveUp && h.posted == if 0 < count <= SEM_VALUE_MAX - f.value then count else 0
       case _ => false
  }

  predicate Midway(call: Action, f: Fields, p: Pc, h: Notes)
  {
    && h.granted == 0 && h.posted == 0 && h.supplied == 0
    && match call
       case Wait(_, kind) =>
         f.Free() == 0 && if h.gaveUp then p == Leaving(kind) && kind != Plain else p == Blocked(kind)
       case _ => false
  }

  predicate Follows(call: Action, f: Fields, p: Pc, h: Notes)
  {
    if p.Idle? then Outcome(call, f, h) else Midway(call, f, p, h)
  }

  lemma CallFollows(s: State, call: Action)
    requires Inv(s) && IsCall(call) && Step(s, call).Some?
    ensures var s1 := Step(s, call).value;
            call.t < |s1.threads| && Follows(call, s.f, s1.threads[call.t], Noted(call.t, BLANK, s, call, s1))
  {
    hide Inv;
    if call.Post? {
      PostedSupply(s.f, call.count);
      hide AfterPostMultiple, Fields.Supply;
    }
  }

  lemma PostedSupply(f: Fields, count: int)
    ensures var (f', result) := AfterPostMultiple(f, count);
            && (result == Ok <==> 0 < count <= SEM_VALUE_MAX - f.value)
            && f'.Supply() == f.Supply() + if result == Ok then count else 0
  {
  }

  lemma StepFollows(s: State, a: Action, t: nat, call: Action, f: Fields, h: Notes)
    requires Inv(s) && Step(s, a).Some? && t < |s.threads| && !s.threads[t].Idle? && Follows(call, f, s.threads[t], h)
    ensures var s' := Step(s, a).value;
            t < |s'.threads| && Follows(call, f, s'.threads[t], Noted(t, h, s, a, s'))
  {
    if a.t == t { SumAtLeast(s.threads, t, Waiting); }
  }

  /** Over any run from a call to its return: a wait has been granted one permit, unless it gave up, which
      only a timed or cancellable wait that found no free permit at the call can do, and which takes one
      permit at most; trywait has been granted one if and only if one was free; a post has supplied what it
      was asked to, or nothing if that is not positive or would pass the ceiling. The supply changes by
      what the call posted and was granted, and by nothing else. Until a wait returns, its thread can go on
      whenever a permit is there for it, and give up unless it is a plain one. */
  lemma CallOutcome(s: State, initial: nat, n: nat, call: Action, run: seq<Action>)
    requires Reachable(s, initial, n) && IsCall(call) && Step(s, call).Some?
    requires While(Step(s, call).value, run, Step, InCall(call.t))
    ensures var t, s1 := call.t, Step(s, call).value;
            var r, h := Exec(s1, run, Step), Fold(s1, run, Step, Noting(t), Noted(t, BLANK, s, call, s1));
            && r.Some? && t < |r.value.threads|
            && (r.value.threads[t].Idle? ==> Outcome(call, s.f, h))
            && (!r.value.threads[t].Idle? ==>
                  && call.Wait?
                  && if h.gaveUp then Step(r.value, Cleanup(t)).Some?
                     else
                       && (r.value.f.kernel > 0 ==> Step(r.value, Wake(t)).Some?)
                       && (Step(r.value, GiveUp(t)).Some? <==> call.kind != Plain))
  {
    ReachableInv(s, initial, n);
    var s1, t := Step(s, call).value, call.t;
    StepKeepsInv(s, call);
    CallFollows(s, call);
    var inv := (x: State, h: Notes) => Inv(x) && t < |x.threads| && Follows(call, s.f, x.threads[t], h);
    forall x, h, a | InCall(t)(x) && inv(x, h) && Step(x, a).Some?
      ensures inv(Step(x, a).value, Noted(t, h, x, a, Step(x, a).value))
    {
      StepKeepsInv(x, a);
      StepFollows(x, a, t, call, s.f, h);
    }
    WhileKeeps(s1, run, Step, InCall(t), Noting(t), Noted(t, BLANK, s, call, s1), inv);
  }

  /** A thread outside any call can make each of them. */
  lemma CallsCanBegin(s: State, initial: nat, n: nat, t: nat, kind: WaitKind, count: int)
    requires Reachable(s, initial, n) && t < |s.threads| && s.threads[t].Idle?
    ensures Step(s, Wait(t, kind)).Some? && Step(s, TryWait(t)).Some? && Step(s, Post(t, count)).Some?
  {
  }

  // ----- no cancellation, no drift

  ghost predicate NoCancelable(run: seq<Action>)
  {
    forall i :: 0 <= i < |run| && run[i].Wait? ==> run[i].kind != Cancelable
  }

  ghost predicate NobodyCancelable(s: State)
  {
    && s.skipped == 0
    && forall t :: 0 <= t < |s.threads| ==>
         s.threads[t] != Blocked(Cancelable) && (s.threads[t].Leaving? ==> s.threads[t].kind == Timed)
  }

  lemma StepStaysExact(s: State, a: Action)
    requires NobodyCancelable(s) && Step(s, a).Some? && (a.Wait? ==> a.kind != Cancelable)
    ensures NobodyCancelable(Step(s, a).value)
  {
  }

  /** Only a cancellable wait can put the counters out of step: after any run without one they account for
      every waiter. */
  lemma ExactWithoutCancelableWaits(initial: nat, n: nat, run: seq<Action>)
    requires initial <= SEM_VALUE_MAX && NoCancelable(run) && Exec(InitState(initial, n), run, Step).Some?
    ensures var s := Exec(InitState(initial, n), run, Step).value; s.skipped == 0 && Exact(s)
  {
    var s := Exec(InitState(initial, n), run, Step).value;
    assert Reachable(s, initial, n);
    ReachableInv(s, initial, n);
    RunStaysExact(InitState(initial, n), run);
  }

  lemma {:induction false} RunStaysExact(s: State, run: seq<Action>)
    requires NobodyCancelable(s) && NoCancelable(run) && Exec(s, run, Step).Some?
    ensures NobodyCancelable(Exec(s, run, Step).value)
    decreases |run|
  {
    if run != [] {
      StepStaysExact(s, run[0]);
      assert NoCancelable(run[1..]);
      RunStaysExact(Step(s, run[0]).value, run[1..]);
    }
  }
}
