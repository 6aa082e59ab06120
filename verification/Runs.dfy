/**
 Runs of a machine that takes one atomic step at a time. `next` is total: a step that is
 not enabled leaves the state as it is, so every sequence of steps is a run.
 */
module Runs {

  ghost predicate Took<S, T>(next: (S, T) -> S, states: seq<S>, steps: seq<T>, i: nat) {
    i < |steps| < |states| && states[i + 1] == next(states[i], steps[i])
  }

  ghost predicate IsRun<S, T>(start: S -> bool, next: (S, T) -> S, states: seq<S>, steps: seq<T>) {
    && |states| == |steps| + 1
    && start(states[0])
    && forall i: nat :: i < |steps| ==> Took(next, states, steps, i)
  }

  /** What the start has and every step keeps holds in every state of every run. */
  lemma {:induction false} Invariant<S(!new), T(!new)>(
    start: S -> bool, next: (S, T) -> S, inv: S -> bool, states: seq<S>, steps: seq<T>, i: nat)
    requires IsRun(start, next, states, steps) && i < |states|
    requires forall s :: start(s) ==> inv(s)
    requires forall s, t :: inv(s) ==> inv(next(s, t))
    ensures inv(states[i])
  {
    if i > 0 {
      Invariant(start, next, inv, states, steps, i - 1);
      assert Took(next, states, steps, i - 1);
    }
  }

  /** What relates a state to itself and survives one more step relates it to all later states. */
  lemma {:induction false} Onward<S(!new), T(!new)>(
    start: S -> bool, next: (S, T) -> S, inv: S -> bool, onward: (S, S) -> bool,
    states: seq<S>, steps: seq<T>, i: nat, j: nat)
    requires IsRun(start, next, states, steps) && i <= j < |states|
    requires forall s :: start(s) ==> inv(s)
    requires forall s, t :: inv(s) ==> inv(next(s, t))
    requires onward(states[i], states[i])
    requires forall s, t :: inv(s) && onward(states[i], s) ==> onward(states[i], next(s, t))
    ensures onward(states[i], states[j])
    decreases j
  {
    if i < j {
      Onward(start, next, inv, onward, states, steps, i, j - 1);
      Invariant(start, next, inv, states, steps, j - 1);
      assert Took(next, states, steps, j - 1);
    }
  }

  /** A state that some run ends in. */
  ghost predicate Reachable<S(!new), T(!new)>(start: S -> bool, next: (S, T) -> S, s: S) {
    exists states: seq<S>, steps: seq<T> :: IsRun(start, next, states, steps) && states[|steps|] == s
  }

  lemma ReachStart<S(!new), T(!new)>(start: S -> bool, next: (S, T) -> S, s: S)
    requires start(s)
    ensures Reachable(start, next, s)
  {
    var states, steps: seq<T> := [s], [];
    assert IsRun(start, next, states, steps) && states[|steps|] == s;
  }

  lemma ReachStep<S(!new), T(!new)>(start: S -> bool, next: (S, T) -> S, s: S, t: T)
    requires Reachable(start, next, s)
    ensures Reachable(start, next, next(s, t))
  {
    var states: seq<S>, steps: seq<T> :| IsRun(start, next, states, steps) && states[|steps|] == s;
    var states', steps' := states + [next(s, t)], steps + [t];
    forall i: nat | i < |steps'|
      ensures Took(next, states', steps', i)
    {
      if i < |steps| {
        assert Took(next, states, steps, i);
      }
    }
    assert IsRun(start, next, states', steps') && states'[|steps'|] == next(s, t);
  }
}
