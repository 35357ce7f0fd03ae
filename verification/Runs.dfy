/** Runs of a system whose atomic steps are given by a partial function: `step(s, a)` is
    `None` exactly when action `a` is not enabled in `s`. */
module Runs {

  datatype Option<+T> = None | Some(value: T)

  ghost function Exec<S, A>(s: S, run: seq<A>, step: (S, A) -> Option<S>): Option<S>
  {
    if run == [] then Some(s)
    else match step(s, run[0])
      case None => None
      case Some(s') => Exec(s', run[1..], step)
  }

  ghost predicate Inductive<S(!new), A(!new)>(inv: S -> bool, step: (S, A) -> Option<S>)
  {
    forall s, a :: inv(s) && step(s, a).Some? ==> inv(step(s, a).value)
  }

  /** An inductive predicate that holds at the start of a run holds at its end. */
  lemma {:induction false} ExecKeeps<S(!new), A(!new)>(s: S, run: seq<A>, step: (S, A) -> Option<S>, inv: S -> bool)
    requires inv(s) && Inductive(inv, step)
    ensures Exec(s, run, step).Some? ==> inv(Exec(s, run, step).value)
  {
    if run != [] && step(s, run[0]).Some? {
      ExecKeeps(step(s, run[0]).value, run[1..], step, inv);
    }
  }

  lemma {:induction false} ExecSplits<S, A>(s: S, r1: seq<A>, r2: seq<A>, step: (S, A) -> Option<S>)
    ensures Exec(s, r1 + r2, step) ==
            if Exec(s, r1, step).None? then None else Exec(Exec(s, r1, step).value, r2, step)
  {
    if r1 == [] {
      assert r1 + r2 == r2;
    } else {
      assert (r1 + r2)[1..] == r1[1..] + r2;
      if step(s, r1[0]).Some? {
        ExecSplits(step(s, r1[0]).value, r1[1..], r2, step);
      }
    }
  }

  /** A run can be given by its states. */
  lemma {:induction false} ExecTrace<S, A>(states: seq<S>, run: seq<A>, step: (S, A) -> Option<S>)
    requires |states| == |run| + 1
    requires forall i :: 0 <= i < |run| ==> step(states[i], run[i]) == Some(states[i + 1])
    ensures Exec(states[0], run, step) == Some(states[|run|])
  {
    if run != [] {
      assert step(states[0], run[0]) == Some(states[1]);
      forall i | 0 <= i < |run[1..]| ensures step(states[1..][i], run[1..][i]) == Some(states[1..][i + 1]) {
        assert step(states[i + 1], run[i + 1]) == Some(states[i + 2]);
      }
      ExecTrace(states[1..], run[1..], step);
    }
  }

  // ----- what happens between two points of a run

  /** The run can be made, and `inside` holds in each of its states but the last: with `inside` saying that
      a thread is in a call, a run that begins with the call and goes no further than its return. */
  ghost predicate While<S, A>(s: S, run: seq<A>, step: (S, A) -> Option<S>, inside: S -> bool)
    decreases |run|
  {
    run != [] ==> inside(s) && step(s, run[0]).Some? && While(step(s, run[0]).value, run[1..], step, inside)
  }

  lemma {:induction false} ExecIsWhile<S, A>(s: S, run: seq<A>, step: (S, A) -> Option<S>)
    requires Exec(s, run, step).Some?
    ensures While(s, run, step, _ => true)
    decreases |run|
  {
    if run != [] {
      ExecIsWhile(step(s, run[0]).value, run[1..], step);
    }
  }

  /** What an observer has noted at the end of a run, who looks at every step. */
  ghost function Fold<S, A, H>(s: S, run: seq<A>, step: (S, A) -> Option<S>, note: (H, S, A, S) -> H, h: H): H
    decreases |run|
  {
    if run == [] || step(s, run[0]).None? then h
    else
      var s' := step(s, run[0]).value;
      Fold(s', run[1..], step, note, note(h, s, run[0], s'))
  }

  ghost predicate Kept<S(!new), A(!new), H(!new)>(step: (S, A) -> Option<S>, inside: S -> bool,
                                                  note: (H, S, A, S) -> H, inv: (S, H) -> bool)
  {
    forall s, h, a :: inside(s) && inv(s, h) && step(s, a).Some? ==>
      inv(step(s, a).value, note(h, s, a, step(s, a).value))
  }

  /** What every step keeps, between the state and the notes, holds at the end. */
  lemma {:induction false} WhileKeeps<S(!new), A(!new), H(!new)>(s: S, run: seq<A>, step: (S, A) -> Option<S>,
      inside: S -> bool, note: (H, S, A, S) -> H, h: H, inv: (S, H) -> bool)
    requires While(s, run, step, inside) && inv(s, h) && Kept(step, inside, note, inv)
    ensures Exec(s, run, step).Some?
    ensures inv(Exec(s, run, step).value, Fold(s, run, step, note, h))
    decreases |run|
  {
    if run != [] {
      var s' := step(s, run[0]).value;
      WhileKeeps(s', run[1..], step, inside, note, note(h, s, run[0], s'), inv);
    }
  }
}
