/** What an ORDER BY that settles every tie returns. */
module Sorting {
  import opened Sets

  /** No element comes before itself, any two different elements are ordered, and the order is transitive. */
  ghost predicate Settles<T(!new)>(s: set<T>, before: (T, T) -> bool) {
    && (forall x :: x in s ==> !before(x, x))
    && (forall x, y :: x in s && y in s && x != y ==> before(x, y) || before(y, x))
    && (forall x, y, z :: x in s && y in s && z in s && before(x, y) && before(y, z) ==> before(x, z))
  }

  ghost predicate ComesFirst<T(!new)>(s: set<T>, before: (T, T) -> bool, x: T) {
    x in s && forall y :: y in s && y != x ==> before(x, y)
  }

  lemma {:induction false} SomethingComesFirst<T(!new)>(s: set<T>, before: (T, T) -> bool)
    requires s != {} && Settles(s, before)
    ensures exists x :: ComesFirst(s, before, x)
    decreases |s|
  {
    var x :| x in s;
    if y :| y in s && y != x {
      SomethingComesFirst(s - {x}, before);
      var z :| ComesFirst(s - {x}, before, z);
      assert ComesFirst(s, before, if before(x, z) then x else z);
    } else {
      assert ComesFirst(s, before, x);
    }
  }

  ghost predicate Ordered<T(!new)>(list: seq<T>, before: (T, T) -> bool) {
    forall i, j :: 0 <= i < j < |list| ==> before(list[i], list[j])
  }

  lemma Prepended<T(!new)>(s: set<T>, before: (T, T) -> bool, first: T, rest: seq<T>)
    requires ComesFirst(s, before, first) && Ordered(rest, before) && NoDuplicates(rest)
    requires forall x :: x in rest <==> x in s - {first}
    ensures Ordered([first] + rest, before) && NoDuplicates([first] + rest)
    ensures forall x :: x in [first] + rest <==> x in s
  {
    forall i | 0 <= i < |rest|
      ensures before(first, rest[i]) && rest[i] != first
    {
      assert rest[i] in rest;
    }
  }

  /** The elements of the set, in order. */
  ghost function Sort<T(!new)>(s: set<T>, before: (T, T) -> bool): (list: seq<T>)
    requires Settles(s, before)
    ensures |list| == |s| && NoDuplicates(list) && Ordered(list, before)
    ensures forall x :: x in list <==> x in s
    decreases |s|
  {
    if s == {} then []
    else
      SomethingComesFirst(s, before);
      var first :| ComesFirst(s, before, first);
      var rest := Sort(s - {first}, before);
      Prepended(s, before, first, rest);
      [first] + rest
  }

  /** A listing the database may return: each element once, and nothing after something it comes before. */
  ghost predicate MayBeReturned<T(!new)>(s: set<T>, before: (T, T) -> bool, list: seq<T>) {
    && NoDuplicates(list) && (forall x :: x in list <==> x in s)
    && forall i, j :: 0 <= i < j < |list| ==> !before(list[j], list[i])
  }

  lemma HeadComesFirst<T(!new)>(s: set<T>, before: (T, T) -> bool, list: seq<T>)
    requires s != {} && Settles(s, before) && MayBeReturned(s, before, list)
    ensures list != [] && ComesFirst(s, before, list[0]) && MayBeReturned(s - {list[0]}, before, list[1..])
  {
    var some :| some in s;
    assert some in list;
    assert list == [list[0]] + list[1..];
    assert list[0] in list;
    forall x | x in list[1..]
      ensures x in s && before(list[0], x)
    {
      var i :| 0 <= i < |list[1..]| && list[1..][i] == x;
      assert x == list[i + 1];
      assert x in list;
    }
    forall x
      ensures x in list[1..] <==> x in s - {list[0]}
    {
      assert x in list <==> x == list[0] || x in list[1..];
    }
  }

  lemma NothingListed<T>(s: set<T>, list: seq<T>)
    ensures (forall x :: x in list <==> x in s) && s == {} ==> list == []
  {
    if list != [] {
      assert list[0] in list;
    }
  }

  lemma {:induction false} OneListing<T(!new)>(s: set<T>, before: (T, T) -> bool, a: seq<T>, b: seq<T>)
    requires Settles(s, before) && MayBeReturned(s, before, a) && MayBeReturned(s, before, b)
    ensures a == b
    decreases |s|
  {
    if s == {} {
      NothingListed(s, a);
      NothingListed(s, b);
    } else {
      HeadComesFirst(s, before, a);
      HeadComesFirst(s, before, b);
      assert a[0] == b[0];
      OneListing(s - {a[0]}, before, a[1..], b[1..]);
      assert a == [a[0]] + a[1..] && b == [b[0]] + b[1..];
    }
  }

  /** When the order settles every tie there is one such listing. */
  lemma TheOrderIsSettled<T(!new)>(s: set<T>, before: (T, T) -> bool, list: seq<T>)
    requires Settles(s, before)
    ensures MayBeReturned(s, before, list) <==> list == Sort(s, before)
  {
    var sorted := Sort(s, before);
    forall i, j | 0 <= i < j < |sorted|
      ensures !before(sorted[j], sorted[i])
    {
      assert sorted[i] in sorted && sorted[j] in sorted;
      assert before(sorted[i], sorted[j]);
    }
    if MayBeReturned(s, before, list) {
      OneListing(s, before, list, sorted);
    }
  }
}
