/** What every module uses: the optional value, for a nil pointer or an absent result, and a few facts. */
module Basics {

  datatype Option<+T> = None | Some(value: T)

  /** Counts an event. */
  function One(b: bool): nat {
    if b then 1 else 0
  }

  lemma Associative<T>(a: seq<T>, b: seq<T>, c: seq<T>)
    ensures a + b + c == a + (b + c)
  {
  }

  lemma {:induction false} SubsetSize<T>(a: set<T>, b: set<T>)
    requires a <= b
    ensures |a| <= |b|
  {
    if a != {} {
      var x :| x in a;
      SubsetSize(a - {x}, b - {x});
    }
  }
}
