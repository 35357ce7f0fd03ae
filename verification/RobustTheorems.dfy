/** What robust mutexes promise, for every run of any number of threads and mutexes. */
module RobustTheorems {
  import opened Counting
  import opened Runs
  import opened RobustMutex

  /** The thread has the lock of `m`: its node is on the thread's list, or just about to be, or just
      not any more. */
  predicate Has(th: Thread, m: nat)
  {
    m in th.list || Pending(th.pc, m) == 1
  }

  lemma HasIsStake(th: Thread, m: nat)
    ensures Has(th, m) <==> Stake(th, m) > 0
  {
    assert m in th.list <==> multiset(th.list)[m] > 0;
  }

  /** No two threads have the same mutex, whoever died before. */
  lemma MutualExclusion(s: State, kinds: seq<Kind>, n: nat, t: nat, u: nat, m: nat)
    requires Reachable(s, kinds, n) && t < |s.threads| && u < |s.threads| && m < |s.mutexes|
    requires Has(s.threads[t], m) && Has(s.threads[u], m)
    ensures t == u && s.mutexes[m].lockIdx != 0
  {
    ReachableInv(s, kinds, n);
    HasIsStake(s.threads[t], m);
    HasIsStake(s.threads[u], m);
    InvLocal(s, t, m);
    if t != u { StakeOfOthers(s, t, u, m); }
  }

  /** A mutex is on the list of a thread that is not exiting exactly when that thread reads itself as
      its owner, it is there once, and a dead thread has none. */
  lemma ListedIffOwner(s: State, kinds: seq<Kind>, n: nat, t: nat, m: nat)
    requires Reachable(s, kinds, n) && t < |s.threads| && m < |s.mutexes|
    ensures !Leaving(s.threads[t].pc) ==> (m in s.threads[t].list <==> s.mutexes[m].owner == Some(t))
    ensures multiset(s.threads[t].list)[m] <= 1
    ensures s.threads[t].pc.Dead? ==> s.threads[t].list == []
  {
    ReachableInv(s, kinds, n);
    assert OwnerOk(s.mutexes[m], s.threads[t], t, m) && ThreadOk(s, t);
    InvLocal(s, t, m);
  }

  /** A mutex whose owner has died is nobody's, and still locked. */
  lemma OrphanIsLocked(s: State, kinds: seq<Kind>, n: nat, t: nat, m: nat)
    requires Reachable(s, kinds, n) && t < |s.threads| && m < |s.mutexes| && s.mutexes[m].state == OwnerDied
    ensures !Has(s.threads[t], m) && s.mutexes[m].lockIdx != 0
  {
    ReachableInv(s, kinds, n);
    HasIsStake(s.threads[t], m);
    InvLocal(s, t, m);
    assert MutexOk(s, m);
  }

  /** The next thread to get a mutex after its owner's death is one that will be told EOWNERDEAD: until
      then the mutex stays as the dying thread left it, and nobody has it. */
  lemma NextOwnerInherits(s: State, kinds: seq<Kind>, n: nat, a: Action, m: nat)
    requires Reachable(s, kinds, n) && Step(s, a).Some? && m < |s.mutexes| && s.mutexes[m].state == OwnerDied
    ensures var s' := Step(s, a).value;
            && m < |s'.mutexes| && |s'.threads| == |s.threads|
            && (s'.mutexes[m].state != OwnerDied ==>
                  && a.Go? && s'.threads[a.t].pc == At(m, Adding(true)) && s'.mutexes[m].state == Inconsistent
                  && s'.mutexes[m].inherited == s.mutexes[m].inherited + 1)
            && (s'.mutexes[m].state == OwnerDied ==>
                  forall t :: 0 <= t < |s.threads| ==> !Has(s'.threads[t], m))
  {
    StepReachable(s, kinds, n, a);
    var s' := Step(s, a).value;
    StepShape(s, kinds, n, a, m);
    if s'.mutexes[m].state == OwnerDied {
      forall t | 0 <= t < |s.threads| ensures !Has(s'.threads[t], m) {
        OrphanIsLocked(s', kinds, n, t, m);
      }
    }
  }

  lemma StepShape(s: State, kinds: seq<Kind>, n: nat, a: Action, m: nat)
    requires Reachable(s, kinds, n) && Step(s, a).Some? && m < |s.mutexes|
    ensures var s' := Step(s, a).value;
            && |s'.mutexes| == |s.mutexes| && |s'.threads| == |s.threads|
            && (s.mutexes[m].state == OwnerDied && s'.mutexes[m].state != OwnerDied ==>
                  && a.Go? && a.t < |s.threads| && s'.threads[a.t].pc == At(m, Adding(true))
                  && s'.mutexes[m].state == Inconsistent && s'.mutexes[m].inherited == s.mutexes[m].inherited + 1)
  {
    ReachableInv(s, kinds, n);
    if a.Go? && s.threads[a.t].pc.At? && s.threads[a.t].pc.m == m {
      InvLocal(s, a.t, m);
    }
  }

  lemma StepReachable(s: State, kinds: seq<Kind>, n: nat, a: Action)
    requires Reachable(s, kinds, n) && Step(s, a).Some?
    ensures Reachable(Step(s, a).value, kinds, n)
  {
    var run: seq<Action> :| Exec(InitState(kinds, n), run, Step) == Some(s);
    ExecSplits(InitState(kinds, n), run, [a], Step);
    assert Exec(InitState(kinds, n), run + [a], Step) == Some(Step(s, a).value);
  }

  /** What the first thread that puts `m` on its list along the run is told, if there is one. */
  function FirstTold(s: State, run: seq<Action>, m: nat): Option<Result>
    decreases |run|
  {
    if run == [] || Step(s, run[0]).None? then None
    else
      var s', t := Step(s, run[0]).value, run[0].t;
      if t < |s.threads| && t < |s'.threads| && m !in s.threads[t].list && m in s'.threads[t].list
      then Some(s'.threads[t].last) else FirstTold(s', run[1..], m)
  }

  /** The owner has died and nobody has been told yet. */
  predicate NotToldYet(s: State, m: nat)
  {
    && m < |s.mutexes|
    && (s.mutexes[m].state == OwnerDied || exists u :: 0 <= u < |s.threads| && s.threads[u].pc == At(m, Adding(true)))
  }

  lemma OnlyInheritorAdds(s: State, kinds: seq<Kind>, n: nat, a: Action, m: nat)
    requires Reachable(s, kinds, n) && NotToldYet(s, m) && Step(s, a).Some?
    ensures a.t < |s.threads| && |Step(s, a).value.threads| == |s.threads|
    ensures var th, th' := s.threads[a.t], Step(s, a).value.threads[a.t];
            m !in th.list && m in th'.list ==> a == Go(a.t) && th.pc == At(m, Adding(true)) && th'.last == OwnerDead
    ensures var th, th' := s.threads[a.t], Step(s, a).value.threads[a.t];
            !(m !in th.list && m in th'.list) ==> NotToldYet(Step(s, a).value, m)
  {
    var s', t := Step(s, a).value, a.t;
    ReachableInv(s, kinds, n);
    assert ThreadOk(s, t);
    ListGrowsByAdding(s, a, m);
    if s.mutexes[m].state == OwnerDied {
      OrphanIsLocked(s, kinds, n, t, m);
      NextOwnerInherits(s, kinds, n, a, m);
      assert s.threads[t].pc != At(m, Adding(false));
    } else {
      var u :| 0 <= u < |s.threads| && s.threads[u].pc == At(m, Adding(true));
      if u != t {
        OthersLeaveAlone(s, u, a);
        assert s'.threads[u].pc == At(m, Adding(true));
        if Pending(s.threads[t].pc, m) == 1 { MutualExclusion(s, kinds, n, t, u, m); }
      } else {
        InvLocal(s, t, m);
        HasIsStake(s.threads[t].(pc := Idle), m);
      }
    }
  }

  lemma ListGrowsByAdding(s: State, a: Action, m: nat)
    requires Step(s, a).Some?
    ensures a.t < |s.threads| && |Step(s, a).value.threads| == |s.threads| && |Step(s, a).value.mutexes| == |s.mutexes|
    ensures var th, th' := s.threads[a.t], Step(s, a).value.threads[a.t];
            m !in th.list && m in th'.list ==>
              a == Go(a.t) && th.pc.At? && th.pc.m == m && th.pc.point.Adding?
              && th'.last == if th.pc.point.inherits then OwnerDead else Success
    ensures var th, th' := s.threads[a.t], Step(s, a).value.threads[a.t];
            a == Go(a.t) && th.pc.At? && th.pc.m == m && th.pc.point.Adding? ==> m in th'.list
  {
    var th := s.threads[a.t];
    if a.Go? {
      RemovedWithin(th.list, if th.pc.At? then th.pc.m else if th.list != [] then th.list[0] else 0);
      hide LockStep, WaitStep, TryStep, Removed;
    }
  }

  /** Over whole runs: of all the threads that come to have the mutex after its owner's death, in
      whatever order they called, the first is told EOWNERDEAD. */
  lemma {:induction false} FirstOwnerAfterDeathIsTold(s: State, kinds: seq<Kind>, n: nat, run: seq<Action>, m: nat)
    requires Reachable(s, kinds, n) && NotToldYet(s, m) && Exec(s, run, Step).Some?
    ensures FirstTold(s, run, m) == None || FirstTold(s, run, m) == Some(OwnerDead)
    decreases |run|
  {
    if run != [] {
      OnlyInheritorAdds(s, kinds, n, run[0], m);
      StepReachable(s, kinds, n, run[0]);
      hide Step, NotToldYet, Reachable;
      var s', t := Step(s, run[0]).value, run[0].t;
      if !(m !in s.threads[t].list && m in s'.threads[t].list) {
        FirstOwnerAfterDeathIsTold(s', kinds, n, run[1..], m);
      }
    }
  }

  /** Every death is told to one thread, and no death to two. */
  lemma InheritedOncePerDeath(s: State, kinds: seq<Kind>, n: nat, m: nat)
    requires Reachable(s, kinds, n) && m < |s.mutexes|
    ensures s.mutexes[m].deaths - s.mutexes[m].inherited == if s.mutexes[m].state == OwnerDied then 1 else 0
  {
    ReachableInv(s, kinds, n);
    assert MutexOk(s, m);
  }

  // ----- thread exit

  /** How many steps an exiting thread still has to take. */
  function ExitRank(th: Thread): nat
  {
    match th.pc
    case Exiting => 3 * |th.list| + 1
    case At(_, ExitMarking) => 3 * |th.list| + 3
    case At(_, ExitSignalling) => 3 * |th.list| + 2
    case _ => 0
  }

  lemma RemovedHead(list: seq<nat>)
    requires list != []
    ensures Removed(list, list[0]) == list[1..]
  {
  }

  /** An exiting thread is never held up, and every step takes it nearer to its end; steps of other
      threads leave its list and its program point alone. */
  lemma ExitTerminates(s: State, kinds: seq<Kind>, n: nat, t: nat, a: Action)
    requires Reachable(s, kinds, n) && t < |s.threads| && Leaving(s.threads[t].pc) && !s.threads[t].pc.Dead?
    ensures Step(s, Go(t)).Some? && t < |Step(s, Go(t)).value.threads|
    ensures ExitRank(Step(s, Go(t)).value.threads[t]) == ExitRank(s.threads[t]) - 1
    ensures Step(s, a).Some? && a != Go(t) ==>
              t < |Step(s, a).value.threads| && Step(s, a).value.threads[t] == s.threads[t]
  {
    ExitMoves(s, kinds, n, t);
    if Step(s, a).Some? && a != Go(t) { OthersLeaveAlone(s, t, a); }
  }

  lemma ExitMoves(s: State, kinds: seq<Kind>, n: nat, t: nat)
    requires Reachable(s, kinds, n) && t < |s.threads| && Leaving(s.threads[t].pc) && !s.threads[t].pc.Dead?
    ensures Step(s, Go(t)).Some? && t < |Step(s, Go(t)).value.threads|
    ensures ExitRank(Step(s, Go(t)).value.threads[t]) == ExitRank(s.threads[t]) - 1
  {
    ReachableInv(s, kinds, n);
    assert ThreadOk(s, t);
    var th := s.threads[t];
    if th.pc.Exiting? && th.list != [] {
      HeadIsOnce(s, kinds, n, t);
      TakeOff(s, t);
    } else if th.pc.At? && th.pc.point.ExitMarking? {
      MarkDead(s, t, th.pc.m);
    } else if th.pc.At? {
      SignalDeath(s, t, th.pc.m);
    }
  }

  lemma OthersLeaveAlone(s: State, t: nat, a: Action)
    requires t < |s.threads| && Step(s, a).Some? && a != Go(t) && s.threads[t].pc != Idle
    ensures t < |Step(s, a).value.threads| && Step(s, a).value.threads[t] == s.threads[t]
  {
    hide PointStep;
  }

  /** How often thread `t` itself takes the step at point `p` of mutex `m` along a run. */
  function Passes(s: State, run: seq<Action>, t: nat, m: nat, p: Point): nat
    decreases |run|
  {
    if run == [] || Step(s, run[0]).None? then 0
    else (if run[0] == Go(t) && t < |s.threads| && s.threads[t].pc == At(m, p) then 1 else 0)
         + Passes(Step(s, run[0]).value, run[1..], t, m, p)
  }

  function Signalling(th: Thread, m: nat): nat { if th.pc == At(m, ExitSignalling) then 1 else 0 }

  ghost function SignalsOwed(th: Thread, m: nat): nat { Stake(th, m) + Signalling(th, m) }

  ghost predicate Balanced(th: Thread, th': Thread, m: nat)
  {
    && Leaving(th'.pc)
    && Stake(th, m) == Stake(th', m) + (if th.pc == At(m, ExitMarking) then 1 else 0)
    && SignalsOwed(th, m) == SignalsOwed(th', m) + Signalling(th, m)
  }

  lemma TakingOffBalances(th: Thread, m: nat)
    requires th.pc.Exiting? && th.list != [] && th.list[0] !in th.list[1..]
    ensures Balanced(th, Thread(At(th.list[0], ExitMarking), th.list[1..], th.last), m)
  {
    assert th.list == [th.list[0]] + th.list[1..];
    assert multiset(th.list)[m] == multiset(th.list[1..])[m] + if m == th.list[0] then 1 else 0;
  }

  /** What an exiting thread still owes to a mutex, before and after one of its steps. */
  lemma ExitStepBalance(s: State, kinds: seq<Kind>, n: nat, t: nat, m: nat)
    requires Reachable(s, kinds, n) && t < |s.threads| && Leaving(s.threads[t].pc) && Step(s, Go(t)).Some?
    ensures t < |Step(s, Go(t)).value.threads|
    ensures Balanced(s.threads[t], Step(s, Go(t)).value.threads[t], m)
  {
    var th := s.threads[t];
    if th.pc.Exiting? && th.list != [] {
      HeadIsOnce(s, kinds, n, t);
      TakeOff(s, t);
      TakingOffBalances(th, m);
      hide Step, Reachable, Balanced;
    } else {
      hide OnList;
      if th.pc.At? {
        ExitPointInRange(s, kinds, n, t);
        if th.pc.point.ExitMarking? {
          MarkDead(s, t, th.pc.m);
        } else {
          SignalDeath(s, t, th.pc.m);
        }
        hide Step, Reachable;
      }
    }
  }

  lemma ExitPointInRange(s: State, kinds: seq<Kind>, n: nat, t: nat)
    requires Reachable(s, kinds, n) && t < |s.threads| && s.threads[t].pc.At?
    ensures s.threads[t].pc.m < |s.mutexes|
  {
    ReachableInv(s, kinds, n);
    assert ThreadOk(s, t);
  }

  /** Whatever the other threads do meanwhile: by the time an exiting thread is dead it has itself marked
      every mutex it had, exactly once, and set its event, exactly once, and it has done neither to any
      other. */
  lemma {:induction false} ExitMarksEveryHeldMutex(s: State, kinds: seq<Kind>, n: nat, run: seq<Action>, t: nat, m: nat)
    requires Reachable(s, kinds, n) && t < |s.threads| && Leaving(s.threads[t].pc)
    requires var r := Exec(s, run, Step); r.Some? && t < |r.value.threads| && r.value.threads[t].pc.Dead?
    ensures Passes(s, run, t, m, ExitMarking) == Stake(s.threads[t], m)
    ensures Passes(s, run, t, m, ExitSignalling) == SignalsOwed(s.threads[t], m)
    decreases |run|
  {
    if run == [] {
      ReachableInv(s, kinds, n);
      assert ThreadOk(s, t);
    } else {
      StepReachable(s, kinds, n, run[0]);
      if run[0] == Go(t) {
        ExitStepBalance(s, kinds, n, t, m);
      } else {
        OthersLeaveAlone(s, t, run[0]);
      }
      hide Step, Reachable, Stake;
      ExitMarksEveryHeldMutex(Step(s, run[0]).value, kinds, n, run[1..], t, m);
    }
  }

  lemma DeathsGrow(s: State, a: Action, m: nat)
    requires Step(s, a).Some? && m < |s.mutexes|
    ensures m < |Step(s, a).value.mutexes| && a.t < |s.threads|
    ensures Step(s, a).value.mutexes[m].deaths
            == s.mutexes[m].deaths + if a.Go? && s.threads[a.t].pc == At(m, ExitMarking) then 1 else 0
  {
    hide Removed;
  }

  /** Each mark is a death more for the next owner to be told of. */
  lemma {:induction false} MarksAreDeaths(s: State, run: seq<Action>, t: nat, m: nat)
    requires Exec(s, run, Step).Some? && m < |s.mutexes|
    ensures m < |Exec(s, run, Step).value.mutexes|
    ensures Exec(s, run, Step).value.mutexes[m].deaths >= s.mutexes[m].deaths + Passes(s, run, t, m, ExitMarking)
    decreases |run|
  {
    if run != [] {
      DeathsGrow(s, run[0], m);
      hide Step;
      MarksAreDeaths(Step(s, run[0]).value, run[1..], t, m);
    }
  }

  /** No step of an exiting thread changes a mutex that it neither had nor has just marked. */
  lemma ExitStepsChangeOnlyHeld(s: State, kinds: seq<Kind>, n: nat, t: nat, m: nat)
    requires Reachable(s, kinds, n) && t < |s.threads| && Leaving(s.threads[t].pc) && Step(s, Go(t)).Some?
    requires m < |s.mutexes|
    ensures m < |Step(s, Go(t)).value.mutexes|
    ensures Step(s, Go(t)).value.mutexes[m] != s.mutexes[m] ==> SignalsOwed(s.threads[t], m) > 0
  {
    ReachableInv(s, kinds, n);
    assert ThreadOk(s, t);
    var th := s.threads[t];
    if th.pc.Exiting? && th.list != [] {
      HeadIsOnce(s, kinds, n, t);
      TakeOff(s, t);
      HasIsStake(th, th.list[0]);
    } else if th.pc.At? && th.pc.point.ExitMarking? {
      MarkDead(s, t, th.pc.m);
    } else if th.pc.At? {
      SignalDeath(s, t, th.pc.m);
    }
  }

  function Repeat(t: nat, k: nat): seq<Action> { seq(k, _ => Go(t)) }

  /** What an exiting thread leaves of a mutex on its list. */
  ghost predicate Marked(before: Mutex, after: Mutex)
  {
    after.state == OwnerDied && after.event && after.deaths == before.deaths + 1 && after.lockIdx == before.lockIdx
  }

  /** Left to itself, the loop takes three steps for each mutex, has then marked and signalled every one,
      and has changed no other. */
  lemma {:induction false} UndisturbedExit(s: State, kinds: seq<Kind>, n: nat, t: nat)
    requires Reachable(s, kinds, n) && t < |s.threads| && s.threads[t].pc.Exiting?
    ensures var list := s.threads[t].list;
            var r := Exec(s, Repeat(t, 3 * |list| + 1), Step);
            && r.Some? && |r.value.mutexes| == |s.mutexes| && t < |r.value.threads|
            && r.value.threads[t].pc.Dead? && r.value.threads[t].list == []
            && forall m :: 0 <= m < |s.mutexes| ==>
                 if m in list then Marked(s.mutexes[m], r.value.mutexes[m]) else r.value.mutexes[m] == s.mutexes[m]
    decreases |s.threads[t].list|
  {
    var list := s.threads[t].list;
    if list == [] {
      assert Repeat(t, 1) == [Go(t)];
      ExecTrace([s, Step(s, Go(t)).value], [Go(t)], Step);
    } else {
      hide Step, Reachable, Marked;
      OneMutexMarked(s, kinds, n, t);
      var s3 := Exec(s, Repeat(t, 3), Step).value;
      var rest := Repeat(t, 3 * (|list| - 1) + 1);
      UndisturbedExit(s3, kinds, n, t);
      assert Repeat(t, 3 * |list| + 1) == Repeat(t, 3) + rest;
      ExecSplits(s, Repeat(t, 3), rest, Step);
      var s' := Exec(s3, rest, Step).value;
      forall m | 0 <= m < |s.mutexes|
        ensures if m in list then Marked(s.mutexes[m], s'.mutexes[m]) else s'.mutexes[m] == s.mutexes[m]
      {
        assert m in list <==> m == list[0] || m in list[1..];
      }
    }
  }

  /** The three steps that an exiting thread takes for the first mutex on its list. */
  lemma TakeOff(s: State, t: nat)
    requires t < |s.threads| && s.threads[t].pc.Exiting? && s.threads[t].list != []
    requires s.threads[t].list[0] < |s.mutexes|
    ensures var th := s.threads[t]; var m := th.list[0];
            Step(s, Go(t)) == Some(Update(s, t, m, s.mutexes[m].(owner := Some(t)), Thread(At(m, ExitMarking), th.list[1..], th.last)))
  {
    RemovedHead(s.threads[t].list);
  }

  lemma MarkDead(s: State, t: nat, m: nat)
    requires t < |s.threads| && m < |s.mutexes| && s.threads[t].pc == At(m, ExitMarking)
    ensures Step(s, Go(t)) == Some(Update(s, t, m, s.mutexes[m].(state := OwnerDied, deaths := s.mutexes[m].deaths + 1),
                                          s.threads[t].(pc := At(m, ExitSignalling))))
  {
  }

  lemma SignalDeath(s: State, t: nat, m: nat)
    requires t < |s.threads| && m < |s.mutexes| && s.threads[t].pc == At(m, ExitSignalling)
    ensures Step(s, Go(t)) == Some(Update(s, t, m, s.mutexes[m].(event := true), s.threads[t].(pc := Exiting)))
  {
  }

  lemma OneMutexMarked(s: State, kinds: seq<Kind>, n: nat, t: nat)
    requires Reachable(s, kinds, n) && t < |s.threads| && s.threads[t].pc.Exiting? && s.threads[t].list != []
    ensures var list := s.threads[t].list;
            var r := Exec(s, Repeat(t, 3), Step);
            && r.Some? && Reachable(r.value, kinds, n)
            && |r.value.mutexes| == |s.mutexes| && |r.value.threads| == |s.threads|
            && r.value.threads[t].pc.Exiting? && r.value.threads[t].list == list[1..]
            && list[0] < |s.mutexes| && list[0] !in list[1..]
            && Marked(s.mutexes[list[0]], r.value.mutexes[list[0]])
            && forall m :: 0 <= m < |s.mutexes| && m != list[0] ==> r.value.mutexes[m] == s.mutexes[m]
  {
    var list := s.threads[t].list;
    HeadIsOnce(s, kinds, n, t);
    hide Step, Reachable;
    TakeOff(s, t);
    var s1 := Step(s, Go(t)).value;
    MarkDead(s1, t, list[0]);
    var s2 := Step(s1, Go(t)).value;
    SignalDeath(s2, t, list[0]);
    var s3 := Step(s2, Go(t)).value;
    StepReachable(s, kinds, n, Go(t));
    StepReachable(s1, kinds, n, Go(t));
    StepReachable(s2, kinds, n, Go(t));
    assert Repeat(t, 3) == [Go(t), Go(t), Go(t)];
    ExecTrace([s, s1, s2, s3], Repeat(t, 3), Step);
  }

  lemma HeadIsOnce(s: State, kinds: seq<Kind>, n: nat, t: nat)
    requires Reachable(s, kinds, n) && t < |s.threads| && s.threads[t].list != []
    ensures var list := s.threads[t].list; list[0] < |s.mutexes| && list[0] !in list[1..]
  {
    ReachableInv(s, kinds, n);
    assert ThreadOk(s, t);
    var list := s.threads[t].list;
    assert list[0] in list && list == [list[0]] + list[1..];
    InvLocal(s, t, list[0]);
    assert multiset(list[1..])[list[0]] == 0;
  }

  // ----- unrecoverable mutexes

  /** An inherited mutex stays inconsistent until somebody makes it consistent, the thread that has it
      unlocks it, which makes it unrecoverable, or that thread dies in its turn. */
  lemma InconsistentEndsOnlyBy(s: State, kinds: seq<Kind>, n: nat, a: Action, m: nat)
    requires Reachable(s, kinds, n) && Step(s, a).Some? && m < |s.mutexes| && s.mutexes[m].state == Inconsistent
    requires m < |Step(s, a).value.mutexes| && Step(s, a).value.mutexes[m].state != Inconsistent
    ensures a.Go? && a.t < |s.threads| && s.threads[a.t].pc.At? && s.threads[a.t].pc.m == m
    ensures var p := s.threads[a.t].pc.point; var r := Step(s, a).value.mutexes[m].state;
            || (p.Restoring? && r == Consistent)
            || (p.UnlockMarking? && r == NotRecoverable && m in s.threads[a.t].list)
            || (p.ExitMarking? && r == OwnerDied)
  {
    ReachableInv(s, kinds, n);
    if a.Go? {
      assert ThreadOk(s, a.t);
    }
  }

  /** A mutex becomes unrecoverable only if the thread that has it unlocks it while it is inconsistent. */
  lemma UnrecoverableOnlyIfGivenUp(s: State, kinds: seq<Kind>, n: nat, a: Action, m: nat)
    requires Reachable(s, kinds, n) && Step(s, a).Some? && m < |s.mutexes| && s.mutexes[m].state != NotRecoverable
    requires m < |Step(s, a).value.mutexes| && Step(s, a).value.mutexes[m].state == NotRecoverable
    ensures a.Go? && a.t < |s.threads| && s.threads[a.t].pc == At(m, UnlockMarking)
    ensures s.mutexes[m].state == Inconsistent && m in s.threads[a.t].list
  {
    ReachableInv(s, kinds, n);
    if a.Go? {
      assert ThreadOk(s, a.t);
    }
    hide Removed;
  }

  /** A thread about to try for the lock, with its look at the state behind it. */
  predicate PastLook(th: Thread, m: nat)
  {
    && th.pc.At? && th.pc.m == m
    && (th.pc.point.Swapping? || th.pc.point.Comparing? || th.pc.point.TryComparing? || th.pc.point.Waiting?)
  }

  /** The run can be made, and the mutex is unrecoverable all along it. */
  ghost predicate StaysUnrecoverable(s: State, run: seq<Action>, m: nat)
    decreases |run|
  {
    && m < |s.mutexes| && s.mutexes[m].state == NotRecoverable
    && (run != [] ==> Step(s, run[0]).Some? && StaysUnrecoverable(Step(s, run[0]).value, run[1..], m))
  }

  lemma StepStaysOut(s: State, kinds: seq<Kind>, n: nat, a: Action, t: nat, m: nat)
    requires Reachable(s, kinds, n) && Step(s, a).Some? && t < |s.threads|
    requires m < |s.mutexes| && s.mutexes[m].state == NotRecoverable
    requires !Has(s.threads[t], m) && !PastLook(s.threads[t], m)
    ensures |Step(s, a).value.threads| == |s.threads|
    ensures !Has(Step(s, a).value.threads[t], m) && !PastLook(Step(s, a).value.threads[t], m)
  {
    ReachableInv(s, kinds, n);
    assert ThreadOk(s, a.t);
    ListGrowsByAdding(s, a, m);
    if a.t == t && a.Go? && s.threads[t].pc.At? && s.threads[t].pc.m == m {
      OwnStepStaysOut(s.mutexes[m], s.threads[t], t, m);
    } else if a.t == t && a.Go? && s.threads[t].pc.At? {
      StepKeepsMutex(s, t, s.threads[t].pc.m);
    }
  }

  lemma StepKeepsMutex(s: State, t: nat, k: nat)
    requires t < |s.threads| && s.threads[t].pc.At? && s.threads[t].pc.m == k && StepGo(s, t).Some?
    ensures var pc' := StepGo(s, t).value.threads[t].pc; pc'.At? ==> pc'.m == k
  {
  }

  lemma OwnStepStaysOut(mx: Mutex, th: Thread, t: nat, m: nat)
    requires th.pc.At? && th.pc.m == m && mx.state == NotRecoverable && PointStep(mx, th, t).Some?
    requires Pending(th.pc, m) == 0 && !PastLook(th, m) && m !in th.list
    requires !th.pc.point.UnlockMarking? && !th.pc.point.UnlockCounting?
    ensures var th' := PointStep(mx, th, t).value.1; Pending(th'.pc, m) == 0 && !PastLook(th', m)
  {
  }

  /** Safety of giving up: while the mutex stays unrecoverable, a thread that does not have it and has
      not looked at its state before never comes to have it, however often it tries. */
  lemma {:induction false} UnrecoverableIsNeverLockedLate(s: State, kinds: seq<Kind>, n: nat, run: seq<Action>, t: nat, m: nat)
    requires Reachable(s, kinds, n) && StaysUnrecoverable(s, run, m) && t < |s.threads|
    requires !Has(s.threads[t], m) && !PastLook(s.threads[t], m)
    ensures var r := Exec(s, run, Step);
            && r.Some? && |r.value.threads| == |s.threads|
            && !Has(r.value.threads[t], m) && !PastLook(r.value.threads[t], m)
    decreases |run|
  {
    if run != [] {
      StepReachable(s, kinds, n, run[0]);
      StepStaysOut(s, kinds, n, run[0], t, m);
      hide Step, Reachable, Has, PastLook;
      UnrecoverableIsNeverLockedLate(Step(s, run[0]).value, kinds, n, run[1..], t, m);
    }
  }

  /** The exact condition: from a state in which the unrecoverable mutex is free there is a run, with the
      mutex unrecoverable throughout, at whose end the thread has it, if and only if the thread's look
      at the state is already behind it. */
  lemma UnrecoverableLockedIff(s: State, kinds: seq<Kind>, n: nat, t: nat, m: nat)
    requires Reachable(s, kinds, n) && t < |s.threads| && m < |s.mutexes|
    requires s.mutexes[m].state == NotRecoverable && s.mutexes[m].lockIdx == 0
    ensures (exists run :: CanLockAlong(s, run, t, m)) <==> PastLook(s.threads[t], m)
  {
    if PastLook(s.threads[t], m) {
      var s' := Step(s, Go(t)).value;
      assert s'.threads[t].pc == At(m, Adding(false)) && s'.mutexes[m].state == NotRecoverable;
      ExecTrace([s, s'], [Go(t)], Step);
      assert StaysUnrecoverable(s', [], m);
      assert [Go(t)][1..] == [];
      assert CanLockAlong(s, [Go(t)], t, m);
    } else {
      ReachableInv(s, kinds, n);
      InvLocal(s, t, m);
      HasIsStake(s.threads[t], m);
      forall run | StaysUnrecoverable(s, run, m) ensures !CanLockAlong(s, run, t, m) {
        UnrecoverableIsNeverLockedLate(s, kinds, n, run, t, m);
      }
    }
  }

  ghost predicate CanLockAlong(s: State, run: seq<Action>, t: nat, m: nat)
  {
    && StaysUnrecoverable(s, run, m)
    && var r := Exec(s, run, Step); r.Some? && t < |r.value.threads| && Has(r.value.threads[t], m)
  }

  /** A call of lock or trylock that has begun and not looked yet when the mutex is unrecoverable can
      only be told so: as long as it stays unrecoverable, the thread is where it was, or it is back with
      ENOTRECOVERABLE, its list as it was. */
  lemma {:induction false} CallBegunLateIsRefused(s: State, kinds: seq<Kind>, n: nat, run: seq<Action>, t: nat, m: nat)
    requires Reachable(s, kinds, n) && StaysUnrecoverable(s, run, m) && t < |s.threads|
    requires s.threads[t].pc == At(m, Checking) || s.threads[t].pc == At(m, TryChecking)
             || s.threads[t] == s.threads[t].Return(Unrecoverable)
    requires forall i :: 0 <= i < |run| && run[i].t == t ==> run[i].Go?
    ensures var r := Exec(s, run, Step);
            && r.Some? && |r.value.threads| == |s.threads|
            && (r.value.threads[t] == s.threads[t] || r.value.threads[t] == s.threads[t].Return(Unrecoverable))
    decreases |run|
  {
    if run != [] {
      var s1 := Step(s, run[0]).value;
      StepReachable(s, kinds, n, run[0]);
      ReachableInv(s, kinds, n);
      ListGrowsByAdding(s, run[0], m);
      if run[0].t != t {
        OthersOnly(s, t, run[0]);
      }
      assert s1.threads[t] == s.threads[t] || s1.threads[t] == s.threads[t].Return(Unrecoverable);
      hide Step, Reachable, Inv;
      forall i | 0 <= i < |run[1..]| && run[1..][i].t == t ensures run[1..][i].Go? {
        assert run[1..][i] == run[i + 1];
      }
      CallBegunLateIsRefused(s1, kinds, n, run[1..], t, m);
    }
  }

  lemma OthersOnly(s: State, t: nat, a: Action)
    requires t < |s.threads| && Step(s, a).Some? && a.t != t
    ensures t < |Step(s, a).value.threads| && Step(s, a).value.threads[t] == s.threads[t]
  {
    hide PointStep;
  }

  lemma StepEndsUnrecoverable(s: State, a: Action, m: nat)
    requires Step(s, a).Some? && m < |s.mutexes| && s.mutexes[m].state == NotRecoverable
    ensures m < |Step(s, a).value.mutexes| && a.t < |s.threads| && |Step(s, a).value.threads| == |s.threads|
    ensures Step(s, a).value.mutexes[m].state != NotRecoverable ==> a == Go(a.t) && s.threads[a.t].pc == At(m, ExitMarking)
  {
    hide Removed;
  }

  /** Over whole runs: the state is left only by the death of a thread that has the mutex all the same,
      which marks it; and that makes it a mutex to be inherited, and so to be made consistent, again. */
  lemma {:induction false} UnrecoverableEndsOnlyByDeath(s: State, run: seq<Action>, m: nat) returns (t: nat)
    requires m < |s.mutexes| && s.mutexes[m].state == NotRecoverable && Exec(s, run, Step).Some?
    requires m < |Exec(s, run, Step).value.mutexes| && Exec(s, run, Step).value.mutexes[m].state != NotRecoverable
    ensures t < |s.threads| && Passes(s, run, t, m, ExitMarking) > 0
    decreases |run|
  {
    var s' := Step(s, run[0]).value;
    StepEndsUnrecoverable(s, run[0], m);
    hide Step;
    if s'.mutexes[m].state != NotRecoverable {
      t := run[0].t;
    } else {
      t := UnrecoverableEndsOnlyByDeath(s', run[1..], m);
    }
  }

  // ----- a run in which it happens

  ghost predicate Leads(s0: State, s: State)
  {
    exists run: seq<Action> :: Exec(s0, run, Step) == Some(s)
  }

  lemma DoStep(s0: State, s: State, a: Action) returns (s': State)
    requires Leads(s0, s) && Step(s, a).Some?
    ensures s' == Step(s, a).value && Leads(s0, s')
  {
    s' := Step(s, a).value;
    var run: seq<Action> :| Exec(s0, run, Step) == Some(s);
    ExecSplits(s0, run, [a], Step);
    assert Exec(s0, run + [a], Step) == Some(s');
  }

  lemma LockFree(s0: State, s: State, t: nat, m: nat) returns (s': State)
    requires Leads(s0, s) && t < |s.threads| && m < |s.mutexes| && s.mutexes[m].kind == Normal
    requires s.threads[t].pc == Idle && s.mutexes[m].lockIdx == 0 && s.mutexes[m].state == Consistent
    ensures Leads(s0, s')
    ensures s'.mutexes == s.mutexes[m := s.mutexes[m].(lockIdx := 1, owner := Some(t))]
    ensures s'.threads == s.threads[t := Thread(Idle, [m] + s.threads[t].list, Success)]
  {
    hide Leads;
    s' := s;
    s' := DoStep(s0, s', Lock(t, m));
    s' := DoStep(s0, s', Go(t));
    s' := DoStep(s0, s', Go(t));
    s' := DoStep(s0, s', Go(t));
  }

  lemma DieHolding(s0: State, s: State, t: nat, m: nat) returns (s': State)
    requires Leads(s0, s) && t < |s.threads| && m < |s.mutexes| && s.mutexes[m].kind == Normal
    requires s.threads[t].pc == Idle && s.threads[t].list == [m] && s.mutexes[m].owner == Some(t)
    ensures Leads(s0, s')
    ensures s'.mutexes == s.mutexes[m := s.mutexes[m].(state := OwnerDied, deaths := s.mutexes[m].deaths + 1, event := true)]
    ensures s'.threads == s.threads[t := Thread(Dead, [], s.threads[t].last)]
  {
    hide Leads;
    s' := s;
    s' := DoStep(s0, s', Exit(t));
    s' := DoStep(s0, s', Go(t));
    s' := DoStep(s0, s', Go(t));
    s' := DoStep(s0, s', Go(t));
    s' := DoStep(s0, s', Go(t));
  }

  lemma Inherit(s0: State, s: State, t: nat, m: nat) returns (s': State)
    requires Leads(s0, s) && t < |s.threads| && m < |s.mutexes| && s.mutexes[m].kind == Normal
    requires s.threads[t].pc == Idle && s.mutexes[m].lockIdx == 1 && s.mutexes[m].state == OwnerDied
    ensures Leads(s0, s')
    ensures s'.mutexes == s.mutexes[m := s.mutexes[m].(state := Inconsistent, inherited := s.mutexes[m].inherited + 1, owner := Some(t))]
    ensures s'.threads == s.threads[t := Thread(Idle, [m] + s.threads[t].list, OwnerDead)]
  {
    hide Leads;
    s' := s;
    s' := DoStep(s0, s', Lock(t, m));
    s' := DoStep(s0, s', Go(t));
    s' := DoStep(s0, s', Go(t));
    s' := DoStep(s0, s', Go(t));
    s' := DoStep(s0, s', Go(t));
  }

  lemma Look(s0: State, s: State, t: nat, m: nat) returns (s': State)
    requires Leads(s0, s) && t < |s.threads| && m < |s.mutexes| && s.mutexes[m].kind == Normal
    requires s.threads[t].pc == Idle && s.mutexes[m].state == Inconsistent
    ensures Leads(s0, s')
    ensures s'.mutexes == s.mutexes[m := s.mutexes[m]]
    ensures s'.threads == s.threads[t := s.threads[t].(pc := At(m, Swapping))]
  {
    hide Leads;
    s' := s;
    s' := DoStep(s0, s', Lock(t, m));
    s' := DoStep(s0, s', Go(t));
  }

  lemma GiveUp(s0: State, s: State, t: nat, m: nat) returns (s': State)
    requires Leads(s0, s) && t < |s.threads| && m < |s.mutexes| && s.mutexes[m].kind == Normal
    requires s.threads[t].pc == Idle && s.threads[t].list == [m] && s.mutexes[m].owner == Some(t)
    requires s.mutexes[m].lockIdx == 1 && s.mutexes[m].state == Inconsistent
    ensures Leads(s0, s')
    ensures s'.mutexes == s.mutexes[m := s.mutexes[m].(state := NotRecoverable, owner := None, lockIdx := 0)]
    ensures s'.threads == s.threads[t := Thread(Idle, [], Success)]
  {
    hide Leads;
    s' := MarkUnrecoverable(s0, s, t, m);
    s' := DoStep(s0, s', Go(t));
    s' := DoStep(s0, s', Go(t));
  }

  lemma MarkUnrecoverable(s0: State, s: State, t: nat, m: nat) returns (s': State)
    requires Leads(s0, s) && t < |s.threads| && m < |s.mutexes|
    requires s.threads[t].pc == Idle && s.mutexes[m].owner == Some(t) && s.mutexes[m].state == Inconsistent
    ensures Leads(s0, s')
    ensures s'.mutexes == s.mutexes[m := s.mutexes[m].(state := NotRecoverable)]
    ensures s'.threads == s.threads[t := s.threads[t].(pc := At(m, UnlockCounting))]
  {
    hide Leads;
    s' := DoStep(s0, s, Unlock(t, m));
    s' := DoStep(s0, s', Go(t));
    s' := DoStep(s0, s', Go(t));
  }

  lemma LockLate(s0: State, s: State, t: nat, m: nat) returns (s': State)
    requires Leads(s0, s) && t < |s.threads| && m < |s.mutexes| && s.mutexes[m].kind == Normal
    requires s.threads[t].pc == At(m, Swapping) && s.mutexes[m].lockIdx == 0
    ensures Leads(s0, s')
    ensures s'.mutexes == s.mutexes[m := s.mutexes[m].(lockIdx := 1, owner := Some(t))]
    ensures s'.threads == s.threads[t := Thread(Idle, [m] + s.threads[t].list, Success)]
  {
    hide Leads;
    s' := s;
    s' := DoStep(s0, s', Go(t));
    s' := DoStep(s0, s', Go(t));
  }

  lemma Restore(s0: State, s: State, t: nat, m: nat) returns (s': State)
    requires Leads(s0, s) && t < |s.threads| && m < |s.mutexes|
    requires s.threads[t].pc == Idle && s.mutexes[m].state == Inconsistent
    ensures Leads(s0, s')
    ensures s'.mutexes == s.mutexes[m := s.mutexes[m].(state := Consistent)]
    ensures s'.threads == s.threads[t := s.threads[t].Return(Success)]
  {
    hide Leads;
    s' := DoStep(s0, s, MakeConsistent(t, m));
    s' := DoStep(s0, s', Go(t));
  }

  /** Thread 0 dies with the mutex, thread 1 inherits it and gives it up, and thread 2 has looked at it
      before that. */
  lemma GivenUp(n: nat) returns (s: State)
    requires n >= 3
    ensures Leads(InitState([Normal], n), s) && |s.threads| == n && |s.mutexes| == 1
    ensures s.mutexes[0] == Mutex(Normal, 0, NotRecoverable, None, 0, true, 1, 1)
    ensures s.threads[2] == Thread(At(0, Swapping), [], Success)
    ensures forall t :: 3 <= t < n ==> s.threads[t] == Thread(Idle, [], Success)
  {
    var s0 := InitState([Normal], n);
    s := s0;
    assert Exec(s0, [], Step) == Some(s);
    assert Leads(s0, s);
    hide Leads;
    s := LockFree(s0, s, 0, 0);
    s := DieHolding(s0, s, 0, 0);
    s := Inherit(s0, s, 1, 0);
    s := Look(s0, s, 2, 0);
    s := GiveUp(s0, s, 1, 0);
  }

  /** It happens: thread 2 looks while thread 1, which inherited the mutex from thread 0, still has it,
      and locks it after thread 1 has given it up for good. */
  lemma UnrecoverableCanBeLocked()
    ensures exists s :: Reachable(s, [Normal], 3) && |s.threads| == 3 && |s.mutexes| == 1
                        && s.mutexes[0].state == NotRecoverable
                        && s.threads[2] == Thread(Idle, [0], Success)
  {
    var s0 := InitState([Normal], 3);
    var s := GivenUp(3);
    s := LockLate(s0, s, 2, 0);
    assert Reachable(s, [Normal], 3);
  }

  /** And being given up is not the end: the thread that locked the mutex late dies in its turn, a
      fourth is told EOWNERDEAD, and makes it consistent. */
  lemma UnrecoverableCanBeRestored()
    ensures exists s, s' :: Reachable(s, [Normal], 4) && Leads(s, s') && |s.mutexes| == |s'.mutexes| == 1
                            && s.mutexes[0].state == NotRecoverable && s'.mutexes[0].state == Consistent
  {
    var s := GivenUp(4);
    assert Reachable(s, [Normal], 4);
    assert Exec(s, [], Step) == Some(s);
    assert Leads(s, s);
    hide Leads, Reachable;
    var s' := LockLate(s, s, 2, 0);
    s' := DieHolding(s, s', 2, 0);
    s' := Inherit(s, s', 3, 0);
    s' := Restore(s, s', 3, 0);
  }
}
