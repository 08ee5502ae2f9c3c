/** Runs of a finite state machine, given only by its step relation. */
module Paths {

  /** A non-empty sequence of states in which each state steps to the next. */
  ghost predicate IsPath<S(!new)>(step: (S, S) -> bool, path: seq<S>) {
    && |path| > 0
    && forall k :: 0 < k < |path| ==> step(path[k - 1], path[k])
  }

  /** `gate` is the only state through which `region` can be entered. */
  ghost predicate IsGate<S(!new)>(step: (S, S) -> bool, region: set<S>, gate: S) {
    forall s, t :: s !in region && t in region && step(s, t) ==> t == gate
  }

  /** `region` cannot be left. */
  ghost predicate IsTrap<S(!new)>(step: (S, S) -> bool, region: set<S>) {
    forall s, t :: s in region && step(s, t) ==> t in region
  }

  /** A path that starts outside a gated region and ends inside it visits the gate first. */
  lemma {:induction false} FirstEntry<S(!new)>(step: (S, S) -> bool, path: seq<S>, region: set<S>, gate: S)
    returns (k: nat)
    requires IsPath(step, path) && IsGate(step, region, gate)
    requires path[0] !in region && path[|path| - 1] in region
    ensures 0 < k < |path| && path[k] == gate
    ensures forall m :: 0 <= m < k ==> path[m] !in region
  {
    k := 1;
    while path[k] !in region
      invariant 0 < k < |path|
      invariant forall m :: 0 <= m < k ==> path[m] !in region
      decreases |path| - k
    {
      k := k + 1;
    }
    assert step(path[k - 1], path[k]);
  }

  /** Once inside a trap, a path stays inside. */
  lemma {:induction false} StaysTrapped<S(!new)>(step: (S, S) -> bool, path: seq<S>, region: set<S>, i: nat, j: nat)
    requires IsPath(step, path) && IsTrap(step, region)
    requires i <= j < |path| && path[i] in region
    ensures path[j] in region
    decreases j
  {
    if i < j {
      StaysTrapped(step, path, region, i, j - 1);
      assert step(path[j - 1], path[j]);
    }
  }
}
