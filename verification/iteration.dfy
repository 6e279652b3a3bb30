/** Walking a Java `HashSet`: its iteration order is unspecified, so the model
    picks elements in an arbitrary order and promises only what any order gives. */
module Iteration {

  /** The elements a sequence holds. */
  function Elements<T>(s: seq<T>): set<T> {
    set x | x in s
  }

  /** No element occurs twice. */
  predicate Distinct<T(==)>(s: seq<T>) {
    forall i, j | 0 <= i < j < |s| :: s[i] != s[j]
  }

  /** Appending an element not yet held keeps a sequence free of repeats and adds
      exactly that element. */
  lemma AppendFresh<T>(r: seq<T>, x: T)
    requires Distinct(r) && x !in Elements(r)
    ensures Distinct(r + [x]) && Elements(r + [x]) == Elements(r) + {x}
  {
  }

  /** Lists the elements of `s` in some order: the order in which a for-each loop
      over a `HashSet` visits them, or the contents of `new ArrayList<>(set)`. */
  method Enumerate<T(==)>(s: set<T>) returns (r: seq<T>)
    ensures Elements(r) == s
    ensures Distinct(r) && |r| == |s|
  {
    r := [];
    var rest := s;
    while rest != {}
      invariant rest <= s
      invariant Elements(r) == s - rest
      invariant Distinct(r) && |r| == |s - rest|
      decreases rest
    {
      var x :| x in rest;
      assert x !in Elements(r);
      AppendFresh(r, x);
      assert s - (rest - {x}) == (s - rest) + {x};
      r := r + [x];
      rest := rest - {x};
    }
  }
}
