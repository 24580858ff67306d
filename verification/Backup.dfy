/** The database dumps: named by the second they were taken, scheduled from those names, pruned by them. */
module Backup {
  import opened Domain
  import opened Sets
  import opened Text
  import opened Calendar

  // ---------------------------------------------------------------------------
  // The name of a dump
  // ---------------------------------------------------------------------------

  const FOLDER: string := "backup/pg/"
  const SUFFIX: string := ".dump"

  function DateText(s: Stamp): (text: string)
    ensures |text| == 8
  {
    Padded(s.year, 4) + Padded(s.month, 2) + Padded(s.day, 2)
  }

  function ClockText(s: Stamp): (text: string)
    ensures |text| == 6
  {
    Padded(s.hour, 2) + Padded(s.minute, 2) + Padded(s.second, 2)
  }

  function StampText(s: Stamp): (text: string)
    ensures |text| == 16
  {
    DateText(s) + ("T" + (ClockText(s) + "Z"))
  }

  function DumpKey(s: Stamp): string { FOLDER + StampText(s) + SUFFIX }

  /** What follows the last slash. */
  function LastSegment(key: string): string {
    if key == [] || key[|key| - 1] == '/' then []
    else LastSegment(key[..|key| - 1]) + [key[|key| - 1]]
  }

  function StripSuffix(text: string): Option<string> {
    if |text| >= |SUFFIX| && text[|text| - |SUFFIX|..] == SUFFIX then Some(text[..|text| - |SUFFIX|]) else None
  }

  predicate IsField(text: string, lo: nat, hi: nat) { lo <= hi <= |text| && AllDigits(text[lo..hi]) }

  /** Eight digits of date, a T, six digits of time, a Z: every field at its full width. */
  predicate HasStampShape(text: string) {
    && |text| == 16 && text[8] == 'T' && text[15] == 'Z'
    && IsField(text, 0, 4) && IsField(text, 4, 6) && IsField(text, 6, 8)
    && IsField(text, 9, 11) && IsField(text, 11, 13) && IsField(text, 13, 15)
  }

  function ReadStamp(text: string): Option<Stamp> {
    if HasStampShape(text) then
      var s := Stamp(DecimalValue(text[0..4]), DecimalValue(text[4..6]), DecimalValue(text[6..8]),
                     DecimalValue(text[9..11]), DecimalValue(text[11..13]), DecimalValue(text[13..15]));
      if Valid(s) then Some(s) else None
    else None
  }

  /** The moment a dump's name states, in seconds. */
  function TakenAt(key: string): Option<int> {
    match StripSuffix(LastSegment(key))
    case None => None
    case Some(text) => match ReadStamp(text) case None => None case Some(s) => Some(SecondsOf(s))
  }

  /** A moment the key has room for. */
  predicate FourDigitYear(s: Stamp) { Valid(s) && s.year < 10_000 }

  lemma TwoDigitFields(s: Stamp)
    requires FourDigitYear(s)
    ensures s.year < Pow10(4) && s.month < Pow10(2) && s.day < Pow10(2)
    ensures s.hour < Pow10(2) && s.minute < Pow10(2) && s.second < Pow10(2)
  {
    assert Pow10(2) == 100 && Pow10(4) == 10_000;
  }

  lemma FieldsOf(s: Stamp)
    ensures var t := StampText(s);
            && t[8] == 'T' && t[15] == 'Z'
            && t[0..4] == Padded(s.year, 4) && t[4..6] == Padded(s.month, 2) && t[6..8] == Padded(s.day, 2)
            && t[9..11] == Padded(s.hour, 2) && t[11..13] == Padded(s.minute, 2) && t[13..15] == Padded(s.second, 2)
  {
  }

  lemma ReadsBack(s: Stamp)
    requires FourDigitYear(s)
    ensures ReadStamp(StampText(s)) == Some(s)
  {
    TwoDigitFields(s);
    FieldsOf(s);
    PaddedRoundTrip(s.year, 4);
    PaddedRoundTrip(s.month, 2);
    PaddedRoundTrip(s.day, 2);
    PaddedRoundTrip(s.hour, 2);
    PaddedRoundTrip(s.minute, 2);
    PaddedRoundTrip(s.second, 2);
  }

  lemma {:induction false} LastSegmentIs(head: string, tail: string)
    requires forall i :: 0 <= i < |tail| ==> tail[i] != '/'
    ensures LastSegment(head + "/" + tail) == tail
  {
    var key := head + "/" + tail;
    if tail != [] {
      var init := tail[..|tail| - 1];
      LastSegmentIs(head, init);
      assert key[..|key| - 1] == head + "/" + init;
      assert tail == init + [tail[|tail| - 1]];
    }
  }

  /** A dump's name states the second it was taken. */
  lemma TakenAtRoundTrip(s: Stamp)
    requires FourDigitYear(s)
    ensures TakenAt(DumpKey(s)) == Some(SecondsOf(s))
  {
    var name := StampText(s) + SUFFIX;
    assert forall i :: 0 <= i < |name| ==> name[i] != '/';
    assert DumpKey(s) == "backup/pg" + "/" + name;
    LastSegmentIs("backup/pg", name);
    assert name[..|name| - |SUFFIX|] == StampText(s) && name[|name| - |SUFFIX|..] == SUFFIX;
    ReadsBack(s);
  }

  // ---------------------------------------------------------------------------
  // Names sort by time
  // ---------------------------------------------------------------------------

  lemma FieldOrder(n: nat, m: nat, width: nat)
    requires n < Pow10(width) && m < Pow10(width)
    ensures TextLess(Padded(n, width), Padded(m, width)) <==> n < m
    ensures Padded(n, width) == Padded(m, width) <==> n == m
  {
    PaddedOrder(n, m, width);
    PaddedIsInjective(n, m, width);
  }

  predicate Lexicographic(a: nat, b: nat, c: nat, x: nat, y: nat, z: nat) {
    a < x || (a == x && (b < y || (b == y && c < z)))
  }

  lemma DateTextOrder(a: Stamp, b: Stamp)
    requires FourDigitYear(a) && FourDigitYear(b)
    ensures var x, y := DateText(a), DateText(b);
            && (TextLess(x, y) <==> Lexicographic(a.year, a.month, a.day, b.year, b.month, b.day))
            && (x == y <==> a.year == b.year && a.month == b.month && a.day == b.day)
  {
    TwoDigitFields(a);
    TwoDigitFields(b);
    FieldOrder(a.year, b.year, 4);
    FieldOrder(a.month, b.month, 2);
    FieldOrder(a.day, b.day, 2);
    ThreePartsDecide(Padded(a.year, 4), Padded(a.month, 2), Padded(a.day, 2),
                     Padded(b.year, 4), Padded(b.month, 2), Padded(b.day, 2));
  }

  lemma ClockTextOrder(a: Stamp, b: Stamp)
    requires FourDigitYear(a) && FourDigitYear(b)
    ensures var x, y := ClockText(a), ClockText(b);
            && (TextLess(x, y) <==> Lexicographic(a.hour, a.minute, a.second, b.hour, b.minute, b.second))
            && (x == y <==> a.hour == b.hour && a.minute == b.minute && a.second == b.second)
  {
    TwoDigitFields(a);
    TwoDigitFields(b);
    FieldOrder(a.hour, b.hour, 2);
    FieldOrder(a.minute, b.minute, 2);
    FieldOrder(a.second, b.second, 2);
    ThreePartsDecide(Padded(a.hour, 2), Padded(a.minute, 2), Padded(a.second, 2),
                     Padded(b.hour, 2), Padded(b.minute, 2), Padded(b.second, 2));
  }

  lemma StampTextOrder(a: Stamp, b: Stamp)
    requires FourDigitYear(a) && FourDigitYear(b)
    ensures TextLess(StampText(a), StampText(b)) <==> Before(a, b)
  {
    DateTextOrder(a, b);
    ClockTextOrder(a, b);
    HeadsDecide(DateText(a), "T" + (ClockText(a) + "Z"), DateText(b), "T" + (ClockText(b) + "Z"));
    EqualHeads("T", ClockText(a) + "Z", ClockText(b) + "Z");
    EqualTails(ClockText(a), ClockText(b), "Z");
  }

  /** Sorting dump names as texts sorts the dumps by time. */
  lemma KeysSortByTime(a: Stamp, b: Stamp)
    requires FourDigitYear(a) && FourDigitYear(b)
    ensures TextLess(DumpKey(a), DumpKey(b)) <==> SecondsOf(a) < SecondsOf(b)
  {
    StampTextOrder(a, b);
    OrderOfStampsIsOrderOfTime(a, b);
    EqualTails(FOLDER + StampText(a), FOLDER + StampText(b), SUFFIX);
    EqualHeads(FOLDER, StampText(a), StampText(b));
  }

  // ---------------------------------------------------------------------------
  // Sorting the listing
  // ---------------------------------------------------------------------------

  predicate Ascending(list: seq<string>) { forall i, j :: 0 <= i < j < |list| ==> !TextLess(list[j], list[i]) }

  function InsertText(list: seq<string>, x: string): (longer: seq<string>)
    ensures multiset(longer) == multiset(list) + multiset{x}
  {
    if list == [] || !TextLess(x, list[|list| - 1]) then list + [x]
    else
      var init := list[..|list| - 1];
      assert list == init + [list[|list| - 1]];
      InsertText(init, x) + [list[|list| - 1]]
  }

  lemma {:induction false} InsertKeepsAscending(list: seq<string>, x: string)
    requires Ascending(list)
    ensures Ascending(InsertText(list, x))
  {
    if list == [] || !TextLess(x, list[|list| - 1]) {
      AppendIsAscending(list, x);
    } else {
      var init, last := list[..|list| - 1], list[|list| - 1];
      InsertKeepsAscending(init, x);
      var longer := InsertText(init, x);
      forall y | y in longer
        ensures !TextLess(last, y)
      {
        assert y in multiset(longer);
        TextOrderIsTotal(x, last);
      }
      forall i | 0 <= i < |longer|
        ensures !TextLess(last, longer[i])
      {
        assert longer[i] in longer;
      }
    }
  }

  /** A text not before the last of an ascending list is before none of it. */
  lemma AppendIsAscending(list: seq<string>, x: string)
    requires Ascending(list) && (list == [] || !TextLess(x, list[|list| - 1]))
    ensures Ascending(list + [x])
  {
    forall i | 0 <= i < |list|
      ensures !TextLess(x, list[i])
    {
      var last := list[|list| - 1];
      TextOrderIsTotal(x, last);
      TextOrderIsTotal(last, list[i]);
      if TextLess(x, list[i]) && TextLess(list[i], last) {
        TextOrderIsTransitive(x, list[i], last);
      }
    }
  }

  method SortKeys(keys: seq<string>) returns (sorted: seq<string>)
    ensures Ascending(sorted) && multiset(sorted) == multiset(keys)
  {
    sorted := [];
    for i := 0 to |keys|
      invariant Ascending(sorted) && multiset(sorted) == multiset(keys[..i])
    {
      InsertKeepsAscending(sorted, keys[i]);
      assert keys[..i + 1] == keys[..i] + [keys[i]];
      sorted := InsertText(sorted, keys[i]);
    }
    assert keys[..|keys|] == keys;
  }

  // ---------------------------------------------------------------------------
  // What to drop
  // ---------------------------------------------------------------------------

  function AtLeastOne(keep: nat): nat { if keep < 1 then 1 else keep }

  function LaterKeys(bucket: set<string>, key: string): set<string> { set k | k in bucket && TextLess(key, k) }

  /** The dumps that have at least `keep` later ones, and never the newest. */
  function Stale(bucket: set<string>, keep: nat): set<string> {
    set k | k in bucket && |LaterKeys(bucket, k)| >= AtLeastOne(keep)
  }

  /** Sorts a listing, in which no key occurs twice, and cuts off the newest: what is left is to be deleted. */
  method StaleKeys(keys: seq<string>, keep: nat) returns (stale: seq<string>)
    requires NoDuplicates(keys)
    ensures Members(stale) == Stale(Members(keys), keep)
    ensures Ascending(stale) && NoDuplicates(stale)
    ensures |stale| == if |keys| <= AtLeastOne(keep) then 0 else |keys| - AtLeastOne(keep)
    ensures keep >= 1 ==> |keys| - |stale| == if |keys| < keep then |keys| else keep
    ensures keep == 0 ==> |keys| - |stale| == if |keys| == 0 then 0 else 1
    ensures forall k :: k in stale <==>
              k in keys && |LaterKeys(Members(keys), k)| >= keep && LaterKeys(Members(keys), k) != {}
  {
    var spared := AtLeastOne(keep);
    var sorted := SortKeys(keys);
    SameMembers(keys, sorted);
    if |keys| <= spared {
      stale := [];
      CutIsStale(sorted, keep, 0);
    } else {
      stale := sorted[..|sorted| - spared];
      CutIsStale(sorted, keep, |sorted| - spared);
    }
    forall k
      ensures k in stale <==> k in keys && |LaterKeys(Members(keys), k)| >= keep && LaterKeys(Members(keys), k) != {}
    {
      assert k in stale <==> k in Members(stale);
      assert LaterKeys(Members(keys), k) == {} <==> |LaterKeys(Members(keys), k)| == 0;
    }
  }

  lemma SameMembers(keys: seq<string>, sorted: seq<string>)
    requires NoDuplicates(keys) && multiset(sorted) == multiset(keys)
    ensures Members(sorted) == Members(keys) && NoDuplicates(sorted) && |sorted| == |keys|
  {
    assert |multiset(sorted)| == |sorted| && |multiset(keys)| == |keys|;
    forall x
      ensures x in sorted <==> x in keys
    {
      assert x in multiset(sorted) <==> x in multiset(keys);
    }
    forall i, j | 0 <= i < j < |sorted|
      ensures sorted[i] != sorted[j]
    {
      OnceEach(keys, sorted[i]);
      SplitAt(sorted, i, j);
    }
  }

  lemma {:induction false} OnceEach(keys: seq<string>, x: string)
    requires NoDuplicates(keys)
    ensures multiset(keys)[x] <= 1
  {
    if keys != [] {
      var init, last := keys[..|keys| - 1], keys[|keys| - 1];
      OnceEach(init, x);
      assert keys == init + [last];
      assert last !in init;
      assert last !in multiset(init);
    }
  }

  lemma SplitAt(list: seq<string>, i: nat, j: nat)
    requires i < j < |list|
    ensures list[i] == list[j] ==> multiset(list)[list[i]] >= 2
  {
    assert list == list[..i] + [list[i]] + list[i + 1..j] + [list[j]] + list[j + 1..];
  }

  /** In a sorted listing the keys after a place are the later ones. */
  lemma LaterAre(sorted: seq<string>, i: nat)
    requires Ascending(sorted) && NoDuplicates(sorted) && i < |sorted|
    ensures |LaterKeys(Members(sorted), sorted[i])| == |sorted| - 1 - i
  {
    var later := sorted[i + 1..];
    DistinctCount(later);
    forall x
      ensures x in LaterKeys(Members(sorted), sorted[i]) <==> x in Members(later)
    {
      if x in LaterKeys(Members(sorted), sorted[i]) {
        var j :| 0 <= j < |sorted| && sorted[j] == x;
        TextOrderIsTotal(sorted[i], x);
        assert x == later[j - i - 1];
      }
      if x in later {
        var j :| 0 <= j < |later| && later[j] == x;
        assert x == sorted[i + 1 + j];
        TextOrderIsTotal(sorted[i], x);
      }
    }
    assert LaterKeys(Members(sorted), sorted[i]) == Members(later);
  }

  lemma CutIsStale(sorted: seq<string>, keep: nat, n: nat)
    requires Ascending(sorted) && NoDuplicates(sorted)
    requires n == if |sorted| <= AtLeastOne(keep) then 0 else |sorted| - AtLeastOne(keep)
    ensures Members(sorted[..n]) == Stale(Members(sorted), keep)
  {
    forall x
      ensures x in sorted[..n] <==> x in Stale(Members(sorted), keep)
    {
      if x in sorted[..n] {
        var i :| 0 <= i < n && sorted[i] == x;
        LaterAre(sorted, i);
      }
      if x in Stale(Members(sorted), keep) {
        var i :| 0 <= i < |sorted| && sorted[i] == x;
        LaterAre(sorted, i);
        assert x == sorted[..n][i];
      }
    }
  }

  /** Nothing sorts after the last key. */
  predicate IsLast(bucket: set<string>, key: string) { key in bucket && forall k :: k in bucket ==> !TextLess(key, k) }

  /** The moment stated by the greatest name of a listing, or none when the listing is empty or the name says none. */
  method NewestTakenAt(keys: seq<string>) returns (newest: Option<int>)
    ensures keys == [] ==> newest == None
    ensures keys != [] ==> exists key :: IsLast(Members(keys), key) && newest == TakenAt(key)
  {
    var sorted := SortKeys(keys);
    assert |multiset(sorted)| == |sorted| && |multiset(keys)| == |keys|;
    if sorted == [] {
      return None;
    }
    var last := sorted[|sorted| - 1];
    newest := TakenAt(last);
    forall k | k in keys
      ensures !TextLess(last, k)
    {
      assert k in multiset(sorted);
      var i :| 0 <= i < |sorted| && sorted[i] == k;
      TextOrderIsTotal(last, last);
    }
    assert last in multiset(keys);
    assert IsLast(Members(keys), last);
  }

  /**
   * The pause before the next dump: none when there is no dump, one whole interval when
   * the newest claims to be from the future, and otherwise until an interval has passed.
   */
  function WaitFor(newest: Option<Instant>, now: Instant, interval: nat): (wait: nat)
    ensures newest.None? ==> wait == 0
    ensures newest.Some? && newest.value <= now ==> (wait == 0 <==> newest.value + interval <= now)
    ensures newest.Some? && newest.value <= now ==>
              newest.value + interval <= now + wait && (wait > 0 ==> now + wait == newest.value + interval)
    ensures newest.Some? && newest.value > now ==> wait == interval
  {
    if newest.None? then 0
    else if now < newest.value then interval
    else if now - newest.value < interval then interval - (now - newest.value)
    else 0
  }
}
