/** Runs of a step relation, on any state. */
module Traces {
  import opened Common

  ghost predicate Follows<S(!new)>(next: (S, S) -> bool, t: seq<S>, j: nat)
    requires j + 1 < |t|
  {
    next(t[j], t[j + 1])
  }

  ghost predicate Trace<S(!new)>(next: (S, S) -> bool, t: seq<S>)
  {
    t != [] && forall j :: 0 <= j < |t| - 1 ==> Follows(next, t, j)
  }

  /** Some number of steps leads from one state to the other. */
  ghost predicate Reaches<S(!new)>(next: (S, S) -> bool, s: S, s': S)
  {
    exists t :: Trace(next, t) && t[0] == s && t[|t| - 1] == s'
  }

  lemma ReachesItself<S(!new)>(next: (S, S) -> bool, s: S)
    ensures Reaches(next, s, s)
  {
    assert Trace(next, [s]);
  }

  lemma ReachesOne<S(!new)>(next: (S, S) -> bool, s: S, s': S)
    requires next(s, s')
    ensures Reaches(next, s, s')
  {
    assert Trace(next, [s, s']);
  }

  lemma ReachesOn<S(!new)>(next: (S, S) -> bool, a: S, b: S, c: S)
    requires Reaches(next, a, b) && Reaches(next, b, c)
    ensures Reaches(next, a, c)
  {
    var t :| Trace(next, t) && t[0] == a && t[|t| - 1] == b;
    var u :| Trace(next, u) && u[0] == b && u[|u| - 1] == c;
    var v := t + u[1..];
    assert Trace(next, v) by {
      forall j | 0 <= j < |v| - 1
        ensures Follows(next, v, j)
      {
        if j < |t| - 1 {
          assert Follows(next, t, j);
        } else {
          assert Follows(next, u, j - (|t| - 1));
        }
      }
    }
    assert v[|v| - 1] == c;
  }

  lemma ReachesNext<S(!new)>(next: (S, S) -> bool, a: S, b: S, c: S)
    requires Reaches(next, a, b) && next(b, c)
    ensures Reaches(next, a, c)
  {
    ReachesOne(next, b, c);
    ReachesOn(next, a, b, c);
  }

  lemma {:induction false} TrueAlong<S(!new)>(next: (S, S) -> bool, t: seq<S>, n: nat, holds: S -> bool)
    requires Trace(next, t) && n < |t| && holds(t[0])
    requires forall x, y :: holds(x) && next(x, y) ==> holds(y)
    ensures holds(t[n])
  {
    if n > 0 {
      TrueAlong(next, t, n - 1, holds);
      assert Follows(next, t, n - 1);
    }
  }

  /** What every step keeps holds of everything reached. */
  lemma StaysTrue<S(!new)>(next: (S, S) -> bool, s: S, s': S, holds: S -> bool)
    requires Reaches(next, s, s') && holds(s)
    requires forall x, y :: holds(x) && next(x, y) ==> holds(y)
    ensures holds(s')
  {
    var t :| Trace(next, t) && t[0] == s && t[|t| - 1] == s';
    TrueAlong(next, t, |t| - 1, holds);
  }

  ghost predicate Deterministic<S(!new)>(next: (S, S) -> bool)
  {
    forall x, y, z :: next(x, y) && next(x, z) ==> y == z
  }

  lemma {:induction false} SameAlong<S(!new)>(next: (S, S) -> bool, t: seq<S>, u: seq<S>, n: nat)
    requires Deterministic(next) && Trace(next, t) && Trace(next, u) && t[0] == u[0] && n < |t| && n < |u|
    ensures t[n] == u[n]
  {
    if n > 0 {
      SameAlong(next, t, u, n - 1);
      assert Follows(next, t, n - 1) && Follows(next, u, n - 1);
    }
  }

  lemma {:induction false} EndedAlong<S(!new)>(next: (S, S) -> bool, t: seq<S>, m: nat, n: nat, ended: S -> bool)
    requires Trace(next, t) && m <= n < |t| && ended(t[m])
    requires forall x, y :: ended(x) && next(x, y) ==> y == x
    ensures t[n] == t[m]
  {
    if m < n {
      EndedAlong(next, t, m, n - 1, ended);
      assert Follows(next, t, n - 1);
    }
  }

  /** A deterministic run that ends, ends in one state only. */
  lemma OneEnd<S(!new)>(next: (S, S) -> bool, s: S, a: S, b: S, ended: S -> bool)
    requires Deterministic(next) && Reaches(next, s, a) && Reaches(next, s, b) && ended(a) && ended(b)
    requires forall x, y :: ended(x) && next(x, y) ==> y == x
    ensures a == b
  {
    var t :| Trace(next, t) && t[0] == s && t[|t| - 1] == a;
    var u :| Trace(next, u) && u[0] == s && u[|u| - 1] == b;
    var n := Min(|t|, |u|) - 1;
    SameAlong(next, t, u, n);
    if |t| <= |u| {
      EndedAlong(next, u, n, |u| - 1, ended);
    } else {
      EndedAlong(next, t, n, |t| - 1, ended);
    }
  }
}
