/** The life of thread structs: handed out, run by a thread, detached or joined before, while or after
    that thread ends, and back into the pool. Any number of structs, and of threads calling join and
    detach. */
module ThreadLife {
  import opened Runs

  /** A copy of a handle: a struct and the value its reuse counter had. */
  datatype Handle = Handle(p: nat, x: nat)

  /** How far the thread of a struct has got. */
  datatype Life =
    | Pooled
    | Creating(detached: bool)   // handed out, not initialised yet
    | Running
    | Last                       // has set PThreadStateLast, about to read its detach state
    | Ending                     // read that it is joinable
    | Ended                      // the thread is over, its handle signalled
    | SelfDestroying             // read that it is detached, about to push its struct

  datatype Struct = Struct(x: nat, life: Life, detached: bool)

  /** Where a caller of join or detach is. */
  datatype Call =
    | NoCall
    | JoinChecking(h: Handle)
    | JoinWaiting(h: Handle)
    | DetachChecking(h: Handle)
    | DetachWaiting(h: Handle)   // is to destroy the struct, when the thread is over
    | DetachPushing(h: Handle)

  /** `known` are the handles that callers may use; the histories are of all handles ever issued, of all
      pushes, by the handle that was current, and of the handles whose join or detach has succeeded or
      that were created detached. */
  datatype State = State(structs: seq<Struct>, pool: seq<nat>, calls: seq<Call>, known: set<Handle>,
                         issued: seq<Handle>, pushed: seq<Handle>, released: set<Handle>)

  datatype Action =
    | New(detached: bool)
    | Start(p: nat)
    | Finish(p: nat)             // sets PThreadStateLast
    | ReadDetach(p: nat)
    | Terminate(p: nat)
    | SelfPush(p: nat)
    | Join(c: nat, h: Handle)
    | Detach(c: nat, h: Handle)
    | Go(c: nat)
    | CancelJoin(c: nat)

  function InitState(callers: nat): State
  {
    State([], [], seq(callers, _ => NoCall), {}, [], [], {})
  }

  function SetLife(s: State, p: nat, life: Life): State
    requires p < |s.structs|
  {
    s.(structs := s.structs[p := s.structs[p].(life := life)])
  }

  function SetCall(s: State, c: nat, call: Call): State
    requires c < |s.calls|
  {
    s.(calls := s.calls[c := call])
  }

  function NewStruct(s: State, detached: bool): State
  {
    s.(structs := s.structs + [Struct(0, Creating(detached), false)], issued := s.issued + [Handle(|s.structs|, 0)])
  }

  function OldStruct(s: State, p: nat, detached: bool): State
    requires s.pool != [] && p < |s.structs|
  {
    s.(structs := s.structs[p := s.structs[p].(life := Creating(detached))],
       pool := s.pool[1..],
       issued := s.issued + [Handle(p, s.structs[p].x)])
  }

  /** The oldest struct of the pool is handed out with its counter as it is, or else a new one with zero. */
  function StepNew(s: State, detached: bool): Option<State>
  {
    if s.pool == [] then Some(NewStruct(s, detached))
    else if s.pool[0] < |s.structs| then Some(OldStruct(s, s.pool[0], detached))
    else None
  }

  function StepStart(s: State, p: nat): State
    requires p < |s.structs| && s.structs[p].life.Creating?
  {
    var st, h := s.structs[p], Handle(p, s.structs[p].x);
    s.(structs := s.structs[p := st.(life := Running, detached := st.life.detached)],
       known := s.known + {h},
       released := if st.life.detached then s.released + {h} else s.released)
  }

  /** ptw32_threadReusePush, with the handle that the counter gives before it is stepped. */
  function Push(s: State, p: nat): State
    requires p < |s.structs|
  {
    s.(structs := s.structs[p := Struct(s.structs[p].x + 1, Pooled, false)],
       pool := s.pool + [p],
       pushed := s.pushed + [Handle(p, s.structs[p].x)])
  }

  /** No two calls of join or detach for one handle run at once. */
  predicate Free(s: State, h: Handle)
  {
    forall c :: 0 <= c < |s.calls| && !s.calls[c].NoCall? ==> s.calls[c].h != h
  }

  predicate Current(s: State, h: Handle)
  {
    h.p < |s.structs| && h.x == s.structs[h.p].x
  }

  predicate Over(life: Life) { life.Last? || life.Ending? || life.Ended? || life.SelfDestroying? }

  function StepCall(s: State, c: nat): Option<State>
    requires c < |s.calls|
  {
    match s.calls[c]
    case NoCall => None
    case JoinChecking(h) =>
      Some(SetCall(s, c, if Current(s, h) && !s.structs[h.p].detached then JoinWaiting(h) else NoCall))
    case JoinWaiting(h) =>
      if h.p < |s.structs| && s.structs[h.p].life.Ended? then Some(SetCall(s, c, DetachChecking(h))) else None
    case DetachChecking(h) =>
      if !Current(s, h) || s.structs[h.p].detached then Some(SetCall(s, c, NoCall))
      else if Over(s.structs[h.p].life) then Some(SetCall(s, c, DetachWaiting(h)))
      else Some(SetCall(s, c, NoCall).(structs := s.structs[h.p := s.structs[h.p].(detached := true)],
                                       released := s.released + {h}))
    case DetachWaiting(h) =>
      if h.p < |s.structs| && s.structs[h.p].life.Ended? then Some(SetCall(s, c, DetachPushing(h))) else None
    case DetachPushing(h) =>
      if h.p < |s.structs| then Some(Push(SetCall(s, c, NoCall), h.p).(released := s.released + {h})) else None
  }

  function StepThread(s: State, p: nat, a: Action): Option<State>
    requires p < |s.structs|
  {
    var st := s.structs[p];
    if a.Start? && st.life.Creating? then Some(StepStart(s, p))
    else if a.Finish? && st.life.Running? then Some(SetLife(s, p, Last))
    else if a.ReadDetach? && st.life.Last? then Some(SetLife(s, p, if st.detached then SelfDestroying else Ending))
    else if a.Terminate? && st.life.Ending? then Some(SetLife(s, p, Ended))
    else if a.SelfPush? && st.life.SelfDestroying? then Some(Push(s, p))
    else None
  }

  function Step(s: State, a: Action): Option<State>
  {
    match a
    case New(detached) => StepNew(s, detached)
    case Start(p) => if p < |s.structs| then StepThread(s, p, a) else None
    case Finish(p) => if p < |s.structs| then StepThread(s, p, a) else None
    case ReadDetach(p) => if p < |s.structs| then StepThread(s, p, a) else None
    case Terminate(p) => if p < |s.structs| then StepThread(s, p, a) else None
    case SelfPush(p) => if p < |s.structs| then StepThread(s, p, a) else None
    case Join(c, h) =>
      if c < |s.calls| && s.calls[c].NoCall? && h in s.known && Free(s, h) then Some(SetCall(s, c, JoinChecking(h))) else None
    case Detach(c, h) =>
      if c < |s.calls| && s.calls[c].NoCall? && h in s.known && Free(s, h) then Some(SetCall(s, c, DetachChecking(h)))
      else None
    case Go(c) => if c < |s.calls| then StepCall(s, c) else None
    case CancelJoin(c) =>
      if c < |s.calls| && s.calls[c].JoinWaiting? then Some(SetCall(s, c, NoCall)) else None
  }

  // ----- the invariant

  predicate StructOk(st: Struct)
  {
    && (st.life.Pooled? || st.life.Creating? || st.life.Ending? || st.life.Ended? ==> !st.detached)
    && (st.life.SelfDestroying? ==> st.detached)
  }

  /** A call that waits, or is about to push, is for a struct that has not gone back. */
  predicate CallOk(s: State, call: Call)
  {
    && (!call.NoCall? ==> call.h in s.known)
    && (call.JoinWaiting? || call.DetachWaiting? || call.DetachPushing? ==>
          Current(s, call.h) && !s.structs[call.h.p].detached && !s.structs[call.h.p].life.Pooled?)
    && (call.DetachWaiting? ==> Over(s.structs[call.h.p].life))
    && (call.DetachPushing? ==> s.structs[call.h.p].life.Ended?)
  }

  predicate PoolOk(s: State)
  {
    && (forall i :: 0 <= i < |s.pool| ==> s.pool[i] < |s.structs| && s.structs[s.pool[i]].life.Pooled?)
    && (forall i, j :: 0 <= i < j < |s.pool| ==> s.pool[i] != s.pool[j])
    && (forall p :: 0 <= p < |s.structs| && s.structs[p].life.Pooled? ==> p in s.pool)
  }

  predicate Issued(s: State, h: Handle)
  {
    h.p < |s.structs| && (h.x < s.structs[h.p].x || (h.x == s.structs[h.p].x && !s.structs[h.p].life.Pooled?))
  }

  predicate HistoryOk(s: State)
  {
    && (forall i :: 0 <= i < |s.issued| ==> Issued(s, s.issued[i]))
    && (forall i, j :: 0 <= i < j < |s.issued| ==> s.issued[i] != s.issued[j])
    && (forall i :: 0 <= i < |s.pushed| ==> s.pushed[i].p < |s.structs| && s.pushed[i].x < s.structs[s.pushed[i].p].x)
    && (forall i, j :: 0 <= i < j < |s.pushed| ==> s.pushed[i] != s.pushed[j])
    && (forall p, x :: 0 <= p < |s.structs| && 0 <= x < s.structs[p].x ==> Handle(p, x) in s.pushed)
  }

  /** A handle in use is current and started, or its struct has gone back; and a handle released is
      detached or has gone back. */
  predicate HandlesOk(s: State)
  {
    && (forall h :: h in s.known ==> Issued(s, h) && (Current(s, h) ==> !s.structs[h.p].life.Creating?))
    && (forall h :: h in s.released ==> h in s.known && (Current(s, h) ==> s.structs[h.p].detached))
    && (forall p :: 0 <= p < |s.structs| && s.structs[p].detached ==> Handle(p, s.structs[p].x) in s.released)
    && (forall i :: 0 <= i < |s.pushed| ==> s.pushed[i] in s.released)
  }

  predicate CallsApart(s: State)
  {
    forall c, d :: 0 <= c < d < |s.calls| && !s.calls[c].NoCall? && !s.calls[d].NoCall? ==> s.calls[c].h != s.calls[d].h
  }

  predicate Inv(s: State)
  {
    && (forall p :: 0 <= p < |s.structs| ==> StructOk(s.structs[p]))
    && (forall c :: 0 <= c < |s.calls| ==> CallOk(s, s.calls[c]))
    && CallsApart(s)
    && PoolOk(s)
    && HistoryOk(s)
    && HandlesOk(s)
  }

  lemma InitInv(callers: nat)
    ensures Inv(InitState(callers))
  {
  }

  lemma CallSetKeepsInv(s: State, c: nat, call: Call)
    requires Inv(s) && c < |s.calls| && CallOk(s, call)
    requires call.NoCall? || (s.calls[c].NoCall? && Free(s, call.h)) || (!s.calls[c].NoCall? && call.h == s.calls[c].h)
    ensures Inv(SetCall(s, c, call))
  {
  }

  lemma LifeSetKeepsInv(s: State, p: nat, life: Life)
    requires Inv(s) && p < |s.structs| && StructOk(s.structs[p].(life := life))
    requires !s.structs[p].life.Pooled? && !s.structs[p].life.Creating? && !life.Pooled? && !life.Creating?
    requires Over(s.structs[p].life) ==> Over(life)
    requires !s.structs[p].life.Ended?
    ensures Inv(SetLife(s, p, life))
  {
  }

  lemma StartKeepsInv(s: State, p: nat)
    requires Inv(s) && p < |s.structs| && s.structs[p].life.Creating?
    ensures Inv(StepStart(s, p))
  {
  }

  /** The struct of `p` goes back, and nobody waits for it. */
  predicate PushOk(s: State, p: nat)
  {
    && p < |s.structs| && (s.structs[p].life.SelfDestroying? || s.structs[p].life.Ended?)
    && Handle(p, s.structs[p].x) in s.known
    && forall c :: 0 <= c < |s.calls| && (s.calls[c].JoinWaiting? || s.calls[c].DetachWaiting? || s.calls[c].DetachPushing?) ==>
         s.calls[c].h.p != p
  }

  function AfterPush(s: State, p: nat): State
    requires p < |s.structs|
  {
    Push(s, p).(released := s.released + {Handle(p, s.structs[p].x)})
  }

  lemma PushKeepsHistory(s: State, p: nat)
    requires Inv(s) && PushOk(s, p)
    ensures PoolOk(AfterPush(s, p)) && HistoryOk(AfterPush(s, p))
  {
    hide HandlesOk, CallsApart, CallOk, StructOk;
  }

  lemma PushKeepsHandles(s: State, p: nat)
    requires Inv(s) && PushOk(s, p)
    ensures HandlesOk(AfterPush(s, p))
  {
    hide PoolOk, HistoryOk, CallsApart, CallOk;
  }

  lemma PushKeepsInv(s: State, p: nat)
    requires Inv(s) && PushOk(s, p)
    ensures Inv(AfterPush(s, p))
  {
    PushKeepsHistory(s, p);
    PushKeepsHandles(s, p);
    hide PoolOk, HistoryOk, HandlesOk;
  }

  lemma NewStructKeepsInv(s: State, detached: bool)
    requires Inv(s) && s.pool == []
    ensures Inv(NewStruct(s, detached))
  {
  }

  lemma OldStructKeepsInv(s: State, detached: bool)
    requires Inv(s) && s.pool != [] && s.pool[0] < |s.structs|
    ensures Inv(OldStruct(s, s.pool[0], detached))
  {
  }

  lemma MarkKeepsInv(s: State, h: Handle)
    requires Inv(s) && h in s.known && Current(s, h) && !s.structs[h.p].detached && s.structs[h.p].life.Running?
    requires forall c :: 0 <= c < |s.calls| && !s.calls[c].NoCall? ==> s.calls[c].h != h
    ensures Inv(s.(structs := s.structs[h.p := s.structs[h.p].(detached := true)], released := s.released + {h}))
  {
  }

  lemma CallKeepsInv(s: State, c: nat)
    requires Inv(s) && c < |s.calls| && StepCall(s, c).Some?
    ensures Inv(StepCall(s, c).value)
  {
    assert CallOk(s, s.calls[c]);
    match s.calls[c]
    case JoinChecking(h) => CallSetKeepsInv(s, c, StepCall(s, c).value.calls[c]);
    case JoinWaiting(h) => CallSetKeepsInv(s, c, DetachChecking(h));
    case DetachChecking(h) =>
      CallSetKeepsInv(s, c, StepCall(s, c).value.calls[c]);
      var s1 := SetCall(s, c, NoCall);
      if Current(s, h) && !s.structs[h.p].detached && !Over(s.structs[h.p].life) {
        MarkKeepsInv(s1, h);
      }
    case DetachWaiting(h) => CallSetKeepsInv(s, c, DetachPushing(h));
    case DetachPushing(h) =>
      CallSetKeepsInv(s, c, NoCall);
      PushKeepsInv(SetCall(s, c, NoCall), h.p);
  }

  lemma ThreadKeepsInv(s: State, p: nat, a: Action)
    requires Inv(s) && p < |s.structs| && StepThread(s, p, a).Some?
    ensures Inv(StepThread(s, p, a).value)
  {
    assert StructOk(s.structs[p]);
    if a.Start? {
      StartKeepsInv(s, p);
    } else if a.SelfPush? {
      var h := Handle(p, s.structs[p].x);
      PushKeepsInv(s, p);
      assert s.released + {h} == s.released;
    } else {
      LifeSetKeepsInv(s, p, StepThread(s, p, a).value.structs[p].life);
    }
  }

  lemma StepKeepsInv(s: State, a: Action)
    requires Inv(s) && Step(s, a).Some?
    ensures Inv(Step(s, a).value)
  {
    match a {
      case New(d) => if s.pool == [] { NewStructKeepsInv(s, d); } else { OldStructKeepsInv(s, d); }
      case Join(c, h) => CallSetKeepsInv(s, c, JoinChecking(h));
      case Detach(c, h) => CallSetKeepsInv(s, c, DetachChecking(h));
      case Go(c) => CallKeepsInv(s, c);
      case CancelJoin(c) => CallSetKeepsInv(s, c, NoCall);
      case _ => ThreadKeepsInv(s, a.p, a);
    }
  }

  lemma {:induction false} RunKeepsInv(s: State, run: seq<Action>)
    requires Inv(s) && Exec(s, run, Step).Some?
    ensures Inv(Exec(s, run, Step).value)
    decreases |run|
  {
    if run != [] {
      StepKeepsInv(s, run[0]);
      RunKeepsInv(Step(s, run[0]).value, run[1..]);
    }
  }

  ghost predicate Reachable(s: State, callers: nat)
  {
    exists run: seq<Action> :: Exec(InitState(callers), run, Step) == Some(s)
  }

  lemma ReachableInv(s: State, callers: nat)
    requires Reachable(s, callers)
    ensures Inv(s)
  {
    var run: seq<Action> :| Exec(InitState(callers), run, Step) == Some(s);
    InitInv(callers);
    RunKeepsInv(InitState(callers), run);
  }

  // ----- what every reachable state satisfies

  /** No handle is ever issued twice, however often its struct is reused. */
  lemma NoHandleIssuedTwice(s: State, callers: nat, i: nat, j: nat)
    requires Reachable(s, callers) && i < |s.issued| && j < |s.issued| && s.issued[i] == s.issued[j]
    ensures i == j
  {
    ReachableInv(s, callers);
  }

  /** A struct goes back to the pool at most once for each handle, and exactly for the handles its counter
      has moved past. */
  lemma PushedExactlyOnce(s: State, callers: nat, h: Handle)
    requires Reachable(s, callers)
    ensures h in s.pushed <==> h.p < |s.structs| && h.x < s.structs[h.p].x
    ensures forall i, j :: 0 <= i < j < |s.pushed| ==> s.pushed[i] != s.pushed[j]
  {
    ReachableInv(s, callers);
  }

  /** A struct goes back only after its thread was detached or joined; and once that is so and its thread
      is over, it has gone back, but for the push that the thread itself is about to make. */
  lemma PushedIffReleasedAndOver(s: State, callers: nat, h: Handle)
    requires Reachable(s, callers)
    ensures h in s.pushed ==> h in s.released
    ensures h in s.released ==>
              h in s.pushed || (Current(s, h) && s.structs[h.p].detached
                                && (s.structs[h.p].life.Running? || s.structs[h.p].life.Last? || s.structs[h.p].life.SelfDestroying?))
    ensures Current(s, h) && s.structs[h.p].life.SelfDestroying? ==>
              Step(s, SelfPush(h.p)).Some? && h in Step(s, SelfPush(h.p)).value.pushed
  {
    ReachableInv(s, callers);
    if h in s.released {
      assert Issued(s, h);
      if Current(s, h) { assert StructOk(s.structs[h.p]); }
    }
  }

  /** The pool holds each struct that is out of use once, and no other. */
  lemma PoolHoldsUnused(s: State, callers: nat, p: nat)
    requires Reachable(s, callers) && p < |s.structs|
    ensures p in s.pool <==> s.structs[p].life.Pooled?
    ensures forall i, j :: 0 <= i < |s.pool| && 0 <= j < |s.pool| && s.pool[i] == s.pool[j] == p ==> i == j
  {
    ReachableInv(s, callers);
  }

  /** A call that waits for a thread waits for the one it named: the struct has not been reused, and the
      thread is on its way to the end the call waits for. */
  lemma WaiterIsNotOvertaken(s: State, callers: nat, c: nat)
    requires Reachable(s, callers) && c < |s.calls|
    requires s.calls[c].JoinWaiting? || s.calls[c].DetachWaiting? || s.calls[c].DetachPushing?
    ensures Current(s, s.calls[c].h) && s.calls[c].h !in s.pushed
    ensures var life := s.structs[s.calls[c].h.p].life;
            && (life.Running? || life.Last? || life.Ending? || life.Ended?)
            && (s.calls[c].DetachWaiting? ==> !life.Running?)
            && (s.calls[c].DetachPushing? ==> life.Ended?)
  {
    ReachableInv(s, callers);
    assert CallOk(s, s.calls[c]);
    assert StructOk(s.structs[s.calls[c].h.p]);
  }

  /** A call that finds the counter moved on, or the thread detached, changes nothing. */
  lemma StaleHandleIsRefused(s: State, callers: nat, c: nat)
    requires Reachable(s, callers) && c < |s.calls| && (s.calls[c].DetachChecking? || s.calls[c].JoinChecking?)
    ensures s.calls[c].h in s.released ==> Step(s, Go(c)) == Some(SetCall(s, c, NoCall))
  {
    ReachableInv(s, callers);
  }
}
