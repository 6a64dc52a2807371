/** Runs of a step function: the state after a sequence of steps. */
module Runs {

  function Run<S, T>(next: (S, T) -> S, s: S, steps: seq<T>): S {
    if steps == [] then s else next(Run(next, s, steps[..|steps| - 1]), steps[|steps| - 1])
  }

  /** A run can also be read from its first step. */
  lemma {:induction false} RunAfter<S, T>(next: (S, T) -> S, s: S, step: T, steps: seq<T>)
    ensures Run(next, s, [step] + steps) == Run(next, next(s, step), steps)
  {
    if steps == [] {
      assert ([step] + steps)[..0] == [];
    } else {
      var front := steps[..|steps| - 1];
      RunAfter(next, s, step, front);
      assert ([step] + steps)[..|steps|] == [step] + front;
    }
  }
}
