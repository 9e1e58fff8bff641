/** Programs that are cut and started over, on any state. */
module Folding {

  function Fold<S>(f: (nat, S) -> S, s: S, n: nat): (r: S)
  {
    if n == 0 then s else f(n - 1, Fold(f, s, n - 1))
  }

  lemma {:induction false} SameFromThere<S>(f: (nat, S) -> S, a: S, b: S, m: nat, n: nat)
    requires m <= n && Fold(f, a, m) == Fold(f, b, m)
    ensures Fold(f, a, n) == Fold(f, b, n)
  {
    if m < n {
      SameFromThere(f, a, b, m, n - 1);
    }
  }

  lemma {:induction false} SkipsNoops<S>(f: (nat, S) -> S, s: S, n: nat)
    requires forall j :: 0 <= j < n ==> f(j, s) == s
    ensures Fold(f, s, n) == s
  {
    if n > 0 {
      SkipsNoops(f, s, n - 1);
    }
  }

  /** What every step keeps, the steps keep. */
  lemma {:induction false} StaysTrue<S>(f: (nat, S) -> S, s: S, m: nat, n: nat, holds: S -> bool)
    requires m <= n && holds(Fold(f, s, m))
    requires forall j, x :: m <= j < n && holds(x) ==> holds(f(j, x))
    ensures holds(Fold(f, s, n))
  {
    if m < n {
      StaysTrue(f, s, m, n - 1, holds);
    }
  }

  /** What becomes true becomes so at one step. */
  lemma {:induction false} BecomesTrue<S>(f: (nat, S) -> S, s: S, n: nat, holds: S -> bool) returns (j: nat)
    requires !holds(s) && holds(Fold(f, s, n))
    ensures j < n && !holds(Fold(f, s, j)) && holds(f(j, Fold(f, s, j)))
  {
    if holds(Fold(f, s, n - 1)) {
      j := BecomesTrue(f, s, n - 1, holds);
    } else {
      j := n - 1;
    }
  }

  /** What every step keeps between two states, the steps keep. */
  lemma {:induction false} StaysRelated<S>(f: (nat, S) -> S, a: S, b: S, m: nat, n: nat, related: (S, S) -> bool)
    requires m <= n && related(Fold(f, a, m), Fold(f, b, m))
    requires forall j, x, y :: m <= j < n && related(x, y) ==> related(f(j, x), f(j, y))
    ensures related(Fold(f, a, n), Fold(f, b, n))
  {
    if m < n {
      StaysRelated(f, a, b, m, n - 1, related);
    }
  }

  /** The states listed one by one are those of any function with the same start and steps. */
  lemma {:induction false} OneSequence<S>(f: (nat, S) -> S, states: seq<S>, at: nat -> S, n: nat)
    requires n < |states| && states[0] == at(0)
    requires forall j: nat :: j + 1 < |states| ==> states[j + 1] == f(j, states[j]) && at(j + 1) == f(j, at(j))
    ensures states[n] == at(n)
  {
    if n > 0 {
      OneSequence(f, states, at, n - 1);
      assert (n - 1) + 1 == n;
    }
  }

  /** If the steps taken have nothing left to do, starting over continues. */
  lemma StartsOver<S>(f: (nat, S) -> S, s: S, m: nat, n: nat)
    requires forall j :: 0 <= j < m ==> f(j, Fold(f, s, m)) == Fold(f, s, m)
    ensures Fold(f, Fold(f, s, m), n) == Fold(f, s, if n < m then m else n)
  {
    if n < m {
      SkipsNoops(f, Fold(f, s, m), n);
    } else {
      SkipsNoops(f, Fold(f, s, m), m);
      SameFromThere(f, Fold(f, s, m), s, m, n);
    }
  }
}
