/** Shared value types. */
module Common {

  datatype Option<+T> = None | Some(value: T)

  datatype Result<+T, +E> = Ok(value: T) | Err(error: E)

  /** How a transaction ends for its caller: it may commit and lose the acknowledgement. */
  datatype WriteResult = Acknowledged | CommittedThenFailed | NotCommitted

  function Max(a: int, b: int): (r: int)
  {
    if a < b then b else a
  }

  function Min(a: int, b: int): (r: int)
  {
    if a < b then a else b
  }

  function ToSet<T>(s: seq<T>): (r: set<T>)
  {
    set x | x in s
  }

  lemma SetOfConcat<T>(a: seq<T>, b: seq<T>)
    ensures ToSet(a + b) == ToSet(a) + ToSet(b)
  {
  }

  /** The sum of `f` over a set. */
  ghost function SumOver<T(!new)>(f: T -> int, xs: set<T>): (r: int)
  {
    if xs == {} then 0
    else
      var x :| x in xs;
      f(x) + SumOver(f, xs - {x})
  }

  /** Any element may be counted first. */
  lemma {:induction false} SumWithout<T(!new)>(f: T -> int, xs: set<T>, y: T)
    requires y in xs
    ensures SumOver(f, xs) == f(y) + SumOver(f, xs - {y})
    decreases |xs|
  {
    var x :| x in xs && SumOver(f, xs) == f(x) + SumOver(f, xs - {x});
    if x != y {
      SumWithout(f, xs - {x}, y);
      SumWithout(f, xs - {y}, x);
      assert xs - {x} - {y} == xs - {y} - {x};
    }
  }

  lemma {:induction false} SumOfZeros<T(!new)>(f: T -> int, xs: set<T>)
    requires forall x :: x in xs ==> f(x) == 0
    ensures SumOver(f, xs) == 0
    decreases |xs|
  {
    if xs != {} {
      var x :| x in xs && SumOver(f, xs) == f(x) + SumOver(f, xs - {x});
      SumOfZeros(f, xs - {x});
    }
  }
}
