/** Runs of a transition system, and the one induction every run theorem in this project uses. */
module Runs {

  /** A finite run: it starts in an initial state and every two neighbours are related by a step. */
  ghost predicate IsRun<S(!new)>(init: S -> bool, next: (S, S) -> bool, run: seq<S>)
  {
    && |run| > 0
    && init(run[0])
    && forall i :: 0 < i < |run| ==> next(run[i - 1], run[i])
  }

  ghost predicate Inductive<S(!new)>(init: S -> bool, next: (S, S) -> bool, inv: S -> bool)
  {
    && (forall s :: init(s) ==> inv(s))
    && (forall s, t :: inv(s) && next(s, t) ==> inv(t))
  }

  lemma {:induction false} InvariantOnRun<S(!new)>(
    init: S -> bool, next: (S, S) -> bool, inv: S -> bool, run: seq<S>, k: nat)
    requires IsRun(init, next, run) && Inductive(init, next, inv) && k < |run|
    ensures inv(run[k])
  {
    if k > 0 {
      InvariantOnRun(init, next, inv, run, k - 1);
      assert next(run[k - 1], run[k]);
    }
  }

  /** A run extended by one more step. */
  lemma Extend<S(!new)>(init: S -> bool, next: (S, S) -> bool, run: seq<S>, s: S)
    requires IsRun(init, next, run) && next(run[|run| - 1], s)
    ensures IsRun(init, next, run + [s])
  {
    var longer := run + [s];
    forall i | 0 < i < |longer| ensures next(longer[i - 1], longer[i]) {
      assert i < |run| ==> longer[i] == run[i] && next(run[i - 1], run[i]);
    }
  }
}
