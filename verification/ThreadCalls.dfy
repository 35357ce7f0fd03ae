/** What a call of join or detach comes to between its start and its return, whatever the thread it names
    and other callers do meanwhile. */
module ThreadCalls {
  import opened Runs
  import opened ThreadLife

  /** The caller is in a call. */
  function InCall(c: nat): State -> bool
  {
    (s: State) => c < |s.calls| && !s.calls[c].NoCall?
  }

  predicate IsCall(a: Action) { a.Join? || a.Detach? }

  predicate IsOver(s: State, h: Handle) { Current(s, h) && Over(s.structs[h.p].life) }

  predicate HasEnded(s: State, h: Handle) { Current(s, h) && s.structs[h.p].life.Ended? }

  /** What an observer notes of the steps of caller `c` in a call for `h`: whether one met the handle released
      by somebody before, one met the thread over, and one met it ended; how many structs they pushed;
      whether they changed anything but the caller's own place; and whether the join was cancelled. */
  datatype Notes = Notes(refused: bool, over: bool, ended: bool, pushes: nat, changed: bool, cancelled: bool)

  const BLANK := Notes(false, false, false, 0, false, false)

  function Noted(c: nat, h: Handle, k: Notes, s: State, a: Action, s': State): Notes
  {
    if a != Go(c) && a != CancelJoin(c) then k
    else
      Notes(k.refused || h in s.released,
            k.over || IsOver(s, h),
            k.ended || HasEnded(s, h),
            k.pushes + (if |s'.pushed| > |s.pushed| then 1 else 0),
            k.changed || s'.(calls := s.calls) != s,
            k.cancelled || a.CancelJoin?)
  }

  function Noting(c: nat, h: Handle): (Notes, State, Action, State) -> Notes
  {
    (k: Notes, s: State, a: Action, s': State) => Noted(c, h, k, s, a, s')
  }

  /** What the call leaves behind. */
  predicate Outcome(s: State, call: Action, k: Notes)
    requires IsCall(call)
  {
    if k.refused then !k.changed && k.pushes == 0 && !k.cancelled
    else
      match call
      case Join(_, h) =>
        if k.cancelled then !k.changed && k.pushes == 0
        else h in s.pushed && h in s.released && k.pushes == 1 && k.ended
      case Detach(_, h) =>
        && !k.cancelled && h in s.released
        && if k.over then h in s.pushed && k.pushes == 1 && k.ended else k.pushes == 0 && k.changed
      case _ => false
  }

  predicate Midway(s: State, call: Action, p: Call, k: Notes)
    requires IsCall(call)
  {
    && !k.refused && !k.changed && !k.cancelled && k.pushes == 0
    && match call
       case Join(_, h) =>
         || p == JoinChecking(h)
         || (p == JoinWaiting(h) && h !in s.released)
         || ((p == DetachChecking(h) || p == DetachWaiting(h) || p == DetachPushing(h))
             && h !in s.released && k.over && k.ended && HasEnded(s, h))
       case Detach(_, h) =>
         || (p == DetachChecking(h) && !k.over && !k.ended)
         || (p == DetachWaiting(h) && h !in s.released && k.over && IsOver(s, h))
         || (p == DetachPushing(h) && h !in s.released && k.over && k.ended && HasEnded(s, h))
       case _ => false
  }

  predicate Follows(s: State, c: nat, call: Action, k: Notes)
    requires IsCall(call)
  {
    && c < |s.calls|
    && if s.calls[c].NoCall? then Outcome(s, call, k) else Midway(s, call, s.calls[c], k)
  }

  lemma ReleasedIff(s: State, h: Handle)
    requires Inv(s) && h in s.known
    ensures h in s.released <==> !Current(s, h) || s.structs[h.p].detached
    ensures h !in s.released && Over(s.structs[h.p].life) ==> !s.structs[h.p].life.SelfDestroying?
  {
    assert Issued(s, h);
    if h.p < |s.structs| && h.x < s.structs[h.p].x {
      assert Handle(h.p, h.x) in s.pushed;
    }
    assert StructOk(s.structs[h.p]);
  }

  lemma JoinLooks(s: State, call: Action, k: Notes)
    requires Inv(s) && IsCall(call) && Follows(s, call.c, call, k) && StepCall(s, call.c).Some?
    requires s.calls[call.c].JoinChecking? || s.calls[call.c].JoinWaiting?
    ensures Follows(StepCall(s, call.c).value, call.c, call,
                    Noted(call.c, call.h, k, s, Go(call.c), StepCall(s, call.c).value))
  {
    assert CallOk(s, s.calls[call.c]);
    ReleasedIff(s, call.h);
    hide Inv;
    var s' := StepCall(s, call.c).value;
    assert HasEnded(s, call.h) ==> IsOver(s, call.h);
    assert s.calls[call.c].JoinWaiting? ==> HasEnded(s, call.h);
    assert s'.calls[call.c].NoCall? && call.h in s.released ==> s'.(calls := s.calls) == s;
  }

  lemma DetachLooks(s: State, call: Action, k: Notes)
    requires Inv(s) && IsCall(call) && Follows(s, call.c, call, k) && StepCall(s, call.c).Some?
    requires s.calls[call.c].DetachChecking?
    ensures Follows(StepCall(s, call.c).value, call.c, call,
                    Noted(call.c, call.h, k, s, Go(call.c), StepCall(s, call.c).value))
  {
    assert CallOk(s, s.calls[call.c]);
    ReleasedIff(s, call.h);
    hide Inv;
    var s' := StepCall(s, call.c).value;
    assert HasEnded(s, call.h) ==> IsOver(s, call.h);
    assert call.Join? ==> HasEnded(s, call.h);
    if call.h in s.released {
      assert s'.(calls := s.calls) == s;
    } else if Over(s.structs[call.h.p].life) {
      assert IsOver(s, call.h) && s'.(calls := s.calls) == s;
    } else {
      assert !IsOver(s, call.h) && !HasEnded(s, call.h) && !s.structs[call.h.p].detached;
      assert s'.(calls := s.calls) != s;
    }
  }

  lemma DetachPushes(s: State, call: Action, k: Notes)
    requires Inv(s) && IsCall(call) && Follows(s, call.c, call, k) && StepCall(s, call.c).Some?
    requires s.calls[call.c].DetachWaiting? || s.calls[call.c].DetachPushing?
    ensures Follows(StepCall(s, call.c).value, call.c, call,
                    Noted(call.c, call.h, k, s, Go(call.c), StepCall(s, call.c).value))
  {
    assert CallOk(s, s.calls[call.c]);
    ReleasedIff(s, call.h);
    hide Inv;
    assert HasEnded(s, call.h) ==> IsOver(s, call.h);
    assert s.calls[call.c].DetachWaiting? ==> HasEnded(s, call.h);
  }

  lemma CancelFollows(s: State, call: Action, k: Notes)
    requires Inv(s) && IsCall(call) && Follows(s, call.c, call, k) && Step(s, CancelJoin(call.c)).Some?
    ensures var s' := Step(s, CancelJoin(call.c)).value;
            Follows(s', call.c, call, Noted(call.c, call.h, k, s, CancelJoin(call.c), s'))
  {
    hide Inv;
  }

  lemma OwnStepFollows(s: State, a: Action, call: Action, k: Notes)
    requires Inv(s) && IsCall(call) && Follows(s, call.c, call, k) && Step(s, a).Some?
    requires a == Go(call.c) || a == CancelJoin(call.c)
    ensures Follows(Step(s, a).value, call.c, call, Noted(call.c, call.h, k, s, a, Step(s, a).value))
  {
    if a.CancelJoin? {
      CancelFollows(s, call, k);
    } else {
      assert Step(s, a) == StepCall(s, call.c);
      hide Inv, Follows, Step;
      match s.calls[call.c] {
        case JoinChecking(_) | JoinWaiting(_) => JoinLooks(s, call, k);
        case DetachChecking(_) => DetachLooks(s, call, k);
        case DetachWaiting(_) | DetachPushing(_) => DetachPushes(s, call, k);
      }
    }
  }

  lemma OtherStepFollows(s: State, a: Action, call: Action, k: Notes)
    requires Inv(s) && IsCall(call) && Follows(s, call.c, call, k) && Step(s, a).Some? && !s.calls[call.c].NoCall?
    requires a != Go(call.c) && a != CancelJoin(call.c)
    ensures Follows(Step(s, a).value, call.c, call, k)
  {
    assert CallOk(s, s.calls[call.c]);
    match a {
      case New(_) => NewFollows(s, a, call, k);
      case Go(_) => OtherCallerFollows(s, a, call, k);
      case Join(_, _) => hide Inv;
      case Detach(_, _) => hide Inv;
      case CancelJoin(_) => hide Inv;
      case _ => ThreadFollows(s, a, call, k);
    }
  }

  lemma NewFollows(s: State, a: Action, call: Action, k: Notes)
    requires Inv(s) && IsCall(call) && Follows(s, call.c, call, k) && Step(s, a).Some? && !s.calls[call.c].NoCall? && a.New?
    ensures Follows(Step(s, a).value, call.c, call, k)
  {
    assert s.pool != [] ==> s.structs[s.pool[0]].life.Pooled?;
    hide HistoryOk, HandlesOk, CallsApart, PoolOk;
  }

  lemma ThreadFollows(s: State, a: Action, call: Action, k: Notes)
    requires Inv(s) && IsCall(call) && Follows(s, call.c, call, k) && Step(s, a).Some? && !s.calls[call.c].NoCall?
    requires a.Start? || a.Finish? || a.ReadDetach? || a.Terminate? || a.SelfPush?
    ensures Follows(Step(s, a).value, call.c, call, k)
  {
    assert CallOk(s, s.calls[call.c]);
    if a.SelfPush? { assert StructOk(s.structs[a.p]); }
    ReleasedIff(s, call.h);
    hide Inv, PoolOk, HistoryOk, HandlesOk;
  }

  /** A caller with another handle leaves the struct of a current one alone. */
  lemma OtherCallerKeeps(s: State, c: nat, h: Handle)
    requires c < |s.calls| && CallOk(s, s.calls[c]) && StepCall(s, c).Some? && s.calls[c].h != h && Current(s, h)
    ensures var s' := StepCall(s, c).value;
            && h.p < |s'.structs| && s'.structs[h.p] == s.structs[h.p] && (h in s'.released <==> h in s.released)
  {
  }

  lemma OthersCallKeeps(s: State, c: nat, h: Handle)
    requires c < |s.calls| && StepCall(s, c).Some? && s.calls[c].h != h
    ensures var s' := StepCall(s, c).value;
            |s'.calls| == |s.calls| && s'.calls == s.calls[c := s'.calls[c]] && (h in s'.released <==> h in s.released)
  {
  }

  lemma OtherCallerFollows(s: State, a: Action, call: Action, k: Notes)
    requires Inv(s) && IsCall(call) && Follows(s, call.c, call, k) && Step(s, a).Some? && !s.calls[call.c].NoCall?
    requires a.Go? && a.c != call.c
    ensures Follows(Step(s, a).value, call.c, call, k)
  {
    assert CallOk(s, s.calls[call.c]) && CallOk(s, s.calls[a.c]);
    assert s.calls[a.c].h != s.calls[call.c].h;
    OthersCallKeeps(s, a.c, call.h);
    if Current(s, call.h) { OtherCallerKeeps(s, a.c, call.h); }
    hide Inv, StepCall, CallOk;
  }

  /** Over any run from a call to its return. A handle that somebody has joined or detached before is
      refused, and the call changes nothing. Otherwise join returns only after the thread has ended, with
      its struct pushed by this call, once, unless it was cancelled, which changes nothing; and detach leaves
      the thread released: it has pushed the struct itself, once and after the thread ended, if it found the
      thread over, and has only marked it if not. */
  lemma CallOutcome(s: State, callers: nat, call: Action, run: seq<Action>)
    requires Reachable(s, callers) && IsCall(call) && Step(s, call).Some?
    requires While(Step(s, call).value, run, Step, InCall(call.c))
    ensures var c, s1 := call.c, Step(s, call).value;
            var r, k := Exec(s1, run, Step), Fold(s1, run, Step, Noting(c, call.h), BLANK);
            && r.Some? && c < |r.value.calls|
            && (r.value.calls[c].NoCall? ==> Outcome(r.value, call, k))
            && (!r.value.calls[c].NoCall? ==> Midway(r.value, call, r.value.calls[c], k))
  {
    ReachableInv(s, callers);
    var s1, c := Step(s, call).value, call.c;
    StepKeepsInv(s, call);
    var inv := (x: State, k: Notes) => Inv(x) && Follows(x, c, call, k);
    forall x, k, a | InCall(c)(x) && inv(x, k) && Step(x, a).Some?
      ensures inv(Step(x, a).value, Noted(c, call.h, k, x, a, Step(x, a).value))
    {
      StepKeepsInv(x, a);
      if a == Go(c) || a == CancelJoin(c) {
        OwnStepFollows(x, a, call, k);
      } else {
        OtherStepFollows(x, a, call, k);
      }
    }
    hide Inv;
    WhileKeeps(s1, run, Step, InCall(c), Noting(c, call.h), BLANK, inv);
  }

  /** A caller is held up only by the thread: it can go on, or waits for a thread that has not ended. A join
      that waits can be cancelled. */
  lemma HeldUpOnlyByTheThread(s: State, callers: nat, c: nat)
    requires Reachable(s, callers) && c < |s.calls| && !s.calls[c].NoCall?
    ensures Step(s, Go(c)).Some? || (Current(s, s.calls[c].h) && !HasEnded(s, s.calls[c].h))
    ensures s.calls[c].JoinWaiting? ==> Step(s, CancelJoin(c)).Some?
  {
    ReachableInv(s, callers);
    assert CallOk(s, s.calls[c]);
  }

  /** A caller outside any call can join or detach with any handle it knows, for which nobody else calls. */
  lemma CallsCanBegin(s: State, callers: nat, c: nat, h: Handle)
    requires Reachable(s, callers) && c < |s.calls| && s.calls[c].NoCall? && h in s.known
    requires forall d :: 0 <= d < |s.calls| && !s.calls[d].NoCall? ==> s.calls[d].h != h
    ensures Step(s, Join(c, h)).Some? && Step(s, Detach(c, h)).Some?
  {
  }

  // ----- the thread's own end

  /** The steps that a thread on its way out still takes. */
  function StepsLeft(life: Life): nat
  {
    match life
    case Running => 3
    case Last => 2
    case Ending | SelfDestroying => 1
    case _ => 0
  }

  predicate ThreadStep(a: Action, p: nat)
  {
    a == Finish(p) || a == ReadDetach(p) || a == Terminate(p) || a == SelfPush(p)
  }

  /** A started thread comes to its end, and is then either ended, for a join or detach to find, or has
      pushed its struct itself, exactly when it had been detached; no call holds it up. */
  lemma ThreadEnds(s: State, callers: nat, p: nat, a: Action)
    requires Reachable(s, callers) && p < |s.structs| && StepsLeft(s.structs[p].life) > 0
    ensures exists b :: ThreadStep(b, p) && Step(s, b).Some?
    ensures ThreadStep(a, p) && Step(s, a).Some? ==>
              var s', h := Step(s, a).value, Handle(p, s.structs[p].x);
              && p < |s'.structs| && StepsLeft(s'.structs[p].life) == StepsLeft(s.structs[p].life) - 1
              && (StepsLeft(s'.structs[p].life) == 0 ==>
                    if s.structs[p].detached then h in s'.pushed && !Current(s', h) else HasEnded(s', h))
  {
    ReachableInv(s, callers);
    assert StructOk(s.structs[p]);
    var b := match s.structs[p].life {
      case Running => Finish(p)
      case Last => ReadDetach(p)
      case Ending => Terminate(p)
      case _ => SelfPush(p)
    };
    assert ThreadStep(b, p) && Step(s, b).Some?;
  }

  // ----- the thread's beginning, and the structs

  /** The struct of handle `h` is handed out, and its thread has not started. */
  function Starting(h: Handle): State -> bool
  {
    (s: State) => Current(s, h) && s.structs[h.p].life.Creating?
  }

  function LastIssued(s: State): Handle
    requires s.issued != []
  {
    s.issued[|s.issued| - 1]
  }

  predicate AsAsked(s: State, h: Handle, detached: bool)
  {
    && Current(s, h)
    && if s.structs[h.p].life.Creating? then s.structs[h.p].life.detached == detached && h !in s.known && h !in s.released
       else s.structs[h.p].life.Running? && h in s.known && s.structs[h.p].detached == detached && (h in s.released <==> detached)
  }

  lemma StepAsAsked(s: State, a: Action, h: Handle, detached: bool)
    requires Inv(s) && Step(s, a).Some? && AsAsked(s, h, detached) && s.structs[h.p].life.Creating?
    ensures AsAsked(Step(s, a).value, h, detached)
  {
    match a {
      case New(_) => assert s.pool != [] ==> s.structs[s.pool[0]].life.Pooled?;
      case Go(c) => assert CallOk(s, s.calls[c]);
      case _ =>
    }
    hide PoolOk, HistoryOk, CallsApart;
  }

  lemma {:induction false} RunAsAsked(s: State, run: seq<Action>, h: Handle, detached: bool)
    requires Inv(s) && AsAsked(s, h, detached) && While(s, run, Step, Starting(h))
    ensures Exec(s, run, Step).Some? && AsAsked(Exec(s, run, Step).value, h, detached)
    decreases |run|
  {
    if run != [] {
      StepAsAsked(s, run[0], h, detached);
      StepKeepsInv(s, run[0]);
      hide Inv, Step, AsAsked;
      RunAsAsked(Step(s, run[0]).value, run[1..], h, detached);
    }
  }

  /** A thread starts as it was asked for: over any run from the making of a thread to its start, its handle
      is a new one, and it is released from the beginning if and only if the thread was to be detached. */
  lemma ThreadStartsAsAsked(s: State, callers: nat, detached: bool, run: seq<Action>)
    requires Reachable(s, callers) && Step(s, New(detached)).Some?
    requires var s1 := Step(s, New(detached)).value; s1.issued != [] && While(s1, run, Step, Starting(LastIssued(s1)))
    ensures var s1 := Step(s, New(detached)).value; var h, r := LastIssued(s1), Exec(s1, run, Step);
            && h !in s.issued && r.Some? && Current(r.value, h)
            && (if r.value.structs[h.p].life.Creating? then Step(r.value, Start(h.p)).Some?
                else
                  (r.value.structs[h.p].life.Running? && h in r.value.known && (h in r.value.released <==> detached)))
  {
    ReachableInv(s, callers);
    var s1 := Step(s, New(detached)).value;
    StepKeepsInv(s, New(detached));
    NewIsAsAsked(s, detached);
    RunAsAsked(s1, run, LastIssued(s1), detached);
  }

  lemma NewIsAsAsked(s: State, detached: bool)
    requires Inv(s) && Step(s, New(detached)).Some?
    ensures var s1 := Step(s, New(detached)).value;
            && s1.issued != [] && LastIssued(s1) !in s.issued && AsAsked(s1, LastIssued(s1), detached)
  {
    var h := LastIssued(Step(s, New(detached)).value);
    assert s.pool != [] ==> s.structs[s.pool[0]].life.Pooled?;
    assert h !in s.known by {
      assert h in s.known ==> Issued(s, h);
    }
  }

  /** What an observer of the pool notes: the structs handed out again, and those pushed, in order. */
  datatype Flow = Flow(out: seq<nat>, back: seq<nat>)

  function Watched(f: Flow, s: State, a: Action, s': State): Flow
  {
    Flow(if |s'.issued| > |s.issued| && LastIssued(s').p < |s.structs| then f.out + [LastIssued(s').p] else f.out,
         if |s'.pushed| > |s.pushed| then f.back + [s'.pushed[|s'.pushed| - 1].p] else f.back)
  }

  function Watching(): (Flow, State, Action, State) -> Flow
  {
    (f: Flow, s: State, a: Action, s': State) => Watched(f, s, a, s')
  }

  lemma StepWatched(s: State, a: Action, f: Flow, first: seq<nat>)
    requires Step(s, a).Some? && f.out + s.pool == first + f.back
    ensures var s' := Step(s, a).value; var f' := Watched(f, s, a, s'); f'.out + s'.pool == first + f'.back
  {
    var s' := Step(s, a).value;
    if a.New? && s.pool != [] {
      assert (f.out + [s.pool[0]]) + s.pool[1..] == f.out + s.pool;
    } else if |s'.pushed| > |s.pushed| {
      var p := s'.pool[|s'.pool| - 1];
      assert f.out + (s.pool + [p]) == (f.out + s.pool) + [p];
      assert first + (f.back + [p]) == (first + f.back) + [p];
    }
  }

  /** Structs are reused in the order in which they came back, by every route, over any run; and a new one is
      made only when the pool is empty. */
  lemma StructsAreReusedInOrder(s: State, callers: nat, run: seq<Action>, detached: bool)
    requires Reachable(s, callers) && Exec(s, run, Step).Some?
    ensures var s' := Exec(s, run, Step).value;
            var f := Fold(s, run, Step, Watching(), Flow([], []));
            && f.out + s'.pool == s.pool + f.back
            && Step(s', New(detached)).Some?
            && (|Step(s', New(detached)).value.structs| > |s'.structs| <==> s'.pool == [])
  {
    ReachableInv(s, callers);
    RunKeepsInv(s, run);
    ExecIsWhile(s, run, Step);
    var inv := (x: State, f: Flow) => f.out + x.pool == s.pool + f.back;
    forall x, f, a | inv(x, f) && Step(x, a).Some? ensures inv(Step(x, a).value, Watched(f, x, a, Step(x, a).value)) {
      StepWatched(x, a, f, s.pool);
    }
    assert inv(s, Flow([], []));
    WhileKeeps(s, run, Step, _ => true, Watching(), Flow([], []), inv);
  }
}
