/** Cardinality facts used throughout. */
module Sets {

  predicate NoDuplicates<T(==)>(s: seq<T>) { forall i, j :: 0 <= i < j < |s| ==> s[i] != s[j] }

  function Members<T>(s: seq<T>): set<T> { set x | x in s }

  lemma {:induction false} DistinctCount<T>(s: seq<T>)
    requires NoDuplicates(s)
    ensures |Members(s)| == |s|
  {
    if s == [] {
      assert Members(s) == {};
    } else {
      var init, last := s[..|s| - 1], s[|s| - 1];
      DistinctCount(init);
      assert s == init + [last];
      assert Members(s) == Members(init) + {last};
      assert last !in init;
    }
  }

  lemma SmallerSet<T>(small: set<T>, large: set<T>)
    requires small <= large
    ensures |small| <= |large|
  {
    assert large == small + (large - small);
  }

  lemma NothingAdded<T>(a: set<T>, b: set<T>)
    ensures a + b == a <==> b <= a
  {
    if a + b == a {
      assert b <= a + b;
    }
  }
}
