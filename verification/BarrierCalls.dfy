/** What a call on a barrier comes to between its start and its return, whatever other threads do
    meanwhile. */
module BarrierCalls {
  import opened Counting
  import opened Runs
  import opened Barrier

  /** The thread is in a call. */
  function InCall(t: nat): State -> bool
  {
    (s: State) => t < |s.threads| && !s.threads[t].Idle?
  }

  predicate IsCall(a: Action) { a.StartWait? || a.TryDestroy? }

  /** What an observer notes of the steps of thread `t`: in which round they came in, and in which they went
      out, by number, whether they were the serial ones, and whether they freed the barrier. */
  datatype Notes = Notes(entered: Option<nat>, left: Option<nat>, serial: bool, freed: bool)

  const BLANK := Notes(None, None, false, false)

  function Noted(t: nat, h: Notes, s: State, a: Action, s': State): Notes
  {
    if a.t != t || s.rounds == [] then h
    else
      var k := |s.rounds| - 1;
      if k >= |s'.rounds| then h
      else
        Notes(if t !in s.rounds[k].entered && t in s'.rounds[k].entered then Some(k) else h.entered,
              if t !in s.rounds[k].left && t in s'.rounds[k].left then Some(k) else h.left,
              h.serial || (t !in s.rounds[k].serial && t in s'.rounds[k].serial),
              h.freed || (!s.freed && s'.freed))
  }

  function Noting(t: nat): (Notes, State, Action, State) -> Notes
  {
    (h: Notes, s: State, a: Action, s': State) => Noted(t, h, s, a, s')
  }

  /** A wait comes back from the round that it came into, when all have come in, and is told that it is the
      serial one if and only if all are out with it. A destroyer frees the barrier if and only if the lock was
      free and the round empty at the call, which `unused` says. */
  ghost predicate Outcome(s: State, t: nat, call: Action, unused: bool, h: Notes)
  {
    match call
    case StartWait(_) =>
      && !h.freed && h.entered.Some? && h.left == h.entered && h.entered.value < |s.rounds|
      && var r := s.rounds[h.entered.value];
         && |r.entered| == s.initial && t in r.entered && t in r.left
         && (h.serial <==> r.serial == {t}) && (h.serial <==> r.left == r.entered)
    case TryDestroy(_) => h.entered.None? && h.left.None? && !h.serial && (h.freed <==> unused)
    case _ => false
  }

  ghost predicate Midway(s: State, t: nat, call: Action, unused: bool, h: Notes)
    requires t < |s.threads|
  {
    var p, k := s.threads[t], |s.rounds| - 1;
    && !h.freed
    && match call
       case StartWait(_) =>
         if p.ReleasingProxy? then h.entered == h.left == Some(k) && h.serial && s.Now().serial == {t} && t in s.Now().left
         else
           && h.left == None && !h.serial
           && if Inside(p) == 1 then h.entered == Some(k) else h.entered == None && (p.AtLock? || p.Reading? || p.Writing?)
       case TryDestroy(_) => p.Destroying? && h == BLANK && (s.Now().entered == {} <==> unused)
       case _ => false
  }

  ghost predicate Follows(s: State, t: nat, call: Action, unused: bool, h: Notes)
  {
    && t < |s.threads| && s.rounds != []
    && if s.threads[t].Idle? then Outcome(s, t, call, unused, h) else Midway(s, t, call, unused, h)
  }

  lemma CallFollows(s: State, call: Action)
    requires Inv(s) && IsCall(call) && Step(s, call).Some?
    ensures var s1 := Step(s, call).value;
            Follows(s1, call.t, call, s.lock.Free? && s.Now().entered == {}, BLANK)
  {
  }

  lemma EntryFollows(s: State, t: nat, call: Action, unused: bool, h: Notes)
    requires Inv(s) && !s.freed && t < |s.threads| && StepGo(s, t).Some? && Follows(s, t, call, unused, h)
    requires s.threads[t].AtLock? || s.threads[t].Reading? || s.threads[t].Writing? || s.threads[t].Destroying?
    ensures var s' := StepGo(s, t).value; Follows(s', t, call, unused, Noted(t, h, s, Go(t), s'))
  {
    assert ThreadOk(s, t);
    hide Emptying, Full;
  }

  lemma InsideFollows(s: State, t: nat, call: Action, unused: bool, h: Notes)
    requires Inv(s) && !s.freed && t < |s.threads| && StepGo(s, t).Some? && Follows(s, t, call, unused, h)
    requires Inside(s.threads[t]) == 1 && !s.threads[t].Crossing?
    ensures var s' := StepGo(s, t).value; Follows(s', t, call, unused, Noted(t, h, s, Go(t), s'))
  {
    hide Inv;
  }

  lemma CrossingFollows(s: State, t: nat, call: Action, unused: bool, h: Notes)
    requires Inv(s) && !s.freed && t < |s.threads| && s.threads[t].Crossing? && Follows(s, t, call, unused, h)
    ensures var s' := StepGo(s, t).value; Follows(s', t, call, unused, Noted(t, h, s, Go(t), s'))
  {
    var s' := StepGo(s, t).value;
    CrossingRound(s, t);
    if s.current + 1 == s.initial { EqualByCount(s'.Now().left, s'.Now().entered); }
  }

  lemma ReleasingFollows(s: State, t: nat, call: Action, unused: bool, h: Notes)
    requires Inv(s) && !s.freed && t < |s.threads| && s.threads[t].ReleasingProxy? && Follows(s, t, call, unused, h)
    ensures var s' := StepGo(s, t).value; Follows(s', t, call, unused, Noted(t, h, s, Go(t), s'))
  {
    ReleasingProxyKeepsInv(s, t);
    hide Inv;
  }

  lemma OwnStepFollows(s: State, t: nat, call: Action, unused: bool, h: Notes)
    requires Inv(s) && !s.freed && t < |s.threads| && StepGo(s, t).Some? && Follows(s, t, call, unused, h)
    ensures var s' := StepGo(s, t).value; Follows(s', t, call, unused, Noted(t, h, s, Go(t), s'))
  {
    hide Inv, Follows;
    if s.threads[t].Crossing? {
      CrossingFollows(s, t, call, unused, h);
    } else if s.threads[t].ReleasingProxy? {
      ReleasingFollows(s, t, call, unused, h);
    } else if Inside(s.threads[t]) == 1 {
      InsideFollows(s, t, call, unused, h);
    } else {
      EntryFollows(s, t, call, unused, h);
    }
  }

  /** The round that a thread is in is not over for others either. */
  lemma RoundStays(s: State, a: Action, t: nat)
    requires Inv(s) && Step(s, a).Some? && a.t != t && t < |s.threads|
    requires Inside(s.threads[t]) == 1 || s.threads[t].ReleasingProxy?
    ensures |Step(s, a).value.rounds| == |s.rounds|
    ensures s.threads[t].ReleasingProxy? ==> Step(s, a).value.Now() == s.Now()
  {
    assert ThreadOk(s, t) && ThreadOk(s, a.t);
    if a.Go? && s.threads[a.t].ReleasingProxy? {
      ReleasingProxyKeepsInv(s, a.t);
      SumAtLeastTwo(s.threads, t, a.t, Leaving);
    } else if a.Go? && s.threads[a.t].Crossing? && s.threads[t].ReleasingProxy? {
      SumAtLeast(s.threads, t, Leaving);
      SumAtLeast(s.threads, a.t, Inside);
    }
  }

  lemma OtherStepFollows(s: State, a: Action, t: nat, call: Action, unused: bool, h: Notes)
    requires Inv(s) && Step(s, a).Some? && a.t != t && Follows(s, t, call, unused, h) && !s.threads[t].Idle?
    ensures Follows(Step(s, a).value, t, call, unused, h)
  {
    var s' := Step(s, a).value;
    OthersLeaveAlone(s, a, t);
    if Inside(s.threads[t]) == 1 || s.threads[t].ReleasingProxy? {
      RoundStays(s, a, t);
    } else if s.threads[t].Destroying? {
      DestroyerKeepsRound(s, a, t);
    }
    hide Inv, Step;
  }

  lemma OthersLeaveAlone(s: State, a: Action, t: nat)
    requires Inv(s) && Step(s, a).Some? && a.t != t && t < |s.threads|
    ensures var s' := Step(s, a).value;
            t < |s'.threads| && s'.threads[t] == s.threads[t] && s'.rounds != [] && s'.initial == s.initial
  {
    hide Filling, Full, Emptying, ThreadOk;
  }

  lemma DestroyerKeepsRound(s: State, a: Action, t: nat)
    requires Inv(s) && Step(s, a).Some? && a.t != t && t < |s.threads| && s.threads[t].Destroying?
    ensures Step(s, a).value.Now() == s.Now()
  {
    assert ThreadOk(s, t) && ThreadOk(s, a.t);
  }

  /** Over any run from a call to its return: a thread that waits comes into one round and goes out of the
      same one, which all have then come into, and it is told that it is the serial thread if and only if
      it is the one with which all are out. A destroyer frees the barrier if and only if its lock was free and
      nobody had come into the round when it called. */
  lemma CallOutcome(s: State, initial: nat, n: nat, call: Action, run: seq<Action>)
    requires Reachable(s, initial, n) && IsCall(call) && Step(s, call).Some?
    requires While(Step(s, call).value, run, Step, InCall(call.t))
    ensures var t, s1, unused := call.t, Step(s, call).value, s.lock.Free? && s.Now().entered == {};
            var r, h := Exec(s1, run, Step), Fold(s1, run, Step, Noting(t), BLANK);
            && r.Some? && t < |r.value.threads|
            && (r.value.threads[t].Idle? ==> Outcome(r.value, t, call, unused, h))
            && (!r.value.threads[t].Idle? ==> Midway(r.value, t, call, unused, h))
  {
    ReachableInv(s, initial, n);
    var s1, t, unused := Step(s, call).value, call.t, s.lock.Free? && s.Now().entered == {};
    StepKeepsInv(s, call);
    CallFollows(s, call);
    var inv := (x: State, h: Notes) => Inv(x) && Follows(x, t, call, unused, h);
    forall x, h, a | InCall(t)(x) && inv(x, h) && Step(x, a).Some?
      ensures inv(Step(x, a).value, Noted(t, h, x, a, Step(x, a).value))
    {
      StepKeepsInv(x, a);
      StepFollows(x, a, t, call, unused, h);
    }
    hide Inv;
    WhileKeeps(s1, run, Step, InCall(t), Noting(t), BLANK, inv);
  }

  lemma StepFollows(s: State, a: Action, t: nat, call: Action, unused: bool, h: Notes)
    requires Inv(s) && Step(s, a).Some? && Follows(s, t, call, unused, h) && !s.threads[t].Idle?
    ensures Follows(Step(s, a).value, t, call, unused, Noted(t, h, s, a, Step(s, a).value))
  {
    if a.t == t {
      OwnStepFollows(s, t, call, unused, h);
    } else {
      OtherStepFollows(s, a, t, call, unused, h);
    }
    hide Inv, Follows;
  }

  /** A thread outside any call can make each of them. */
  lemma CallsCanBegin(s: State, initial: nat, n: nat, t: nat)
    requires Reachable(s, initial, n) && !s.freed && t < |s.threads| && s.threads[t].Idle?
    ensures Step(s, StartWait(t)).Some? && Step(s, TryDestroy(t)).Some?
  {
  }

}
