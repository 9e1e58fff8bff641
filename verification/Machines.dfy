/** Runs of a machine that takes one action at a time. */
module Machines {

  function Run<S, A>(step: (S, A) -> S, s: S, actions: seq<A>): (r: S)
  {
    if actions == [] then s else step(Run(step, s, actions[..|actions| - 1]), actions[|actions| - 1])
  }

  lemma RunSnoc<S, A>(step: (S, A) -> S, s: S, actions: seq<A>, a: A)
    ensures Run(step, s, actions + [a]) == step(Run(step, s, actions), a)
  {
    assert (actions + [a])[..|actions|] == actions;
  }

  lemma {:induction false} RunConcat<S, A>(step: (S, A) -> S, s: S, xs: seq<A>, ys: seq<A>)
    ensures Run(step, s, xs + ys) == Run(step, Run(step, s, xs), ys)
  {
    if ys == [] {
      assert xs + ys == xs;
    } else {
      assert (xs + ys)[..|xs + ys| - 1] == xs + ys[..|ys| - 1];
      RunConcat(step, s, xs, ys[..|ys| - 1]);
    }
  }

  /** What every action keeps, every run keeps. */
  lemma {:induction false} RunKeeps<S(!new), A(!new)>(step: (S, A) -> S, s: S, actions: seq<A>, holds: S -> bool)
    requires holds(s) && forall x, a :: holds(x) ==> holds(step(x, a))
    ensures holds(Run(step, s, actions))
  {
    if actions != [] {
      RunKeeps(step, s, actions[..|actions| - 1], holds);
    }
  }
}
