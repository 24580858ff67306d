/** Incremental discovery over any number of interrupted walks. */
module Resumption {
  import opened Domain
  import opened Text
  import opened Sets
  import opened Ledger
  import opened Catalogue
  import M = Machine

  /** A walk asks for pages after one identifier, which stays fixed while it lasts. */
  datatype Walk =
    | NoWalk
    | After(watermark: nat, pages: nat, more: bool)   // pages read so far, and whether the last one named another

  /**
   * The provider's numeric identifiers, those we hold, the walk under way and the part
   * of the page in hand that is not recorded yet.
   */
  datatype Progress = Progress(provided: set<nat>, held: set<nat>, walk: Walk, page: seq<nat>)

  datatype Event =
    | Publish(id: nat)          // the provider adds an identifier
    | Begin(watermark: nat)     // a walk starts after the highest identifier held
    | Fetch(all: seq<nat>)      // the walk's next page, out of everything the provider then lists after the watermark
    | Record                    // the next listing of the page is recorded
    | Stop                      // the walk dies with whatever it had recorded, or is over

  predicate Ascends(page: seq<nat>) { forall i, j :: 0 <= i < j < |page| ==> page[i] < page[j] }

  /** What the provider lists after an identifier: all of it, in ascending order. */
  ghost predicate ListedAfter(provided: set<nat>, watermark: nat, all: seq<nat>) {
    Ascends(all) && forall x :: x in all <==> x in provided && watermark < x
  }

  /** Page n + 1 of a listing, counted in pages of a fixed size. */
  function PageOf(all: seq<nat>, n: nat, size: nat): seq<nat> {
    var lo := n * size;
    if lo >= |all| then [] else if lo + size < |all| then all[lo..lo + size] else all[lo..]
  }

  /** Above everything held and everything in hand: what a provider that numbers its records upwards guarantees. */
  predicate IsAbove(p: Progress, id: nat) {
    (forall y :: y in p.held ==> y < id) && forall y :: y in p.page ==> y < id
  }

  ghost predicate CanHappen(p: Progress, e: Event) {
    match e
    case Publish(_) => true
    case Begin(watermark) => p.walk.NoWalk? && p.page == [] && IsMaximum(p.held, watermark)
    case Fetch(all) =>
      && p.walk.After? && p.page == [] && (p.walk.pages == 0 || p.walk.more)
      && ListedAfter(p.provided, p.walk.watermark, all)
    case Record => p.page != []
    case Stop => true
  }

  function Happened(p: Progress, e: Event, size: nat): Progress
    requires (e.Record? ==> p.page != []) && (e.Fetch? ==> p.walk.After?)
  {
    match e
    case Publish(id) => p.(provided := p.provided + {id})
    case Begin(watermark) => p.(walk := After(watermark, 0, false))
    case Fetch(all) =>
      var n := p.walk.pages;
      p.(page := PageOf(all, n, size), walk := p.walk.(pages := n + 1, more := (n + 1) * size < |all|))
    case Record => p.(held := p.held + {p.page[0]}, page := p.page[1..])
    case Stop => p.(walk := NoWalk, page := [])
  }

  /** No provider identifier is missing below the highest one held. */
  ghost predicate NoGap(p: Progress) {
    forall x, y :: x in p.provided && y in p.held && x <= y ==> x in p.held
  }

  /** The page in hand starts above everything held and leaves nothing out between. */
  ghost predicate PageInStep(p: Progress) {
    && Ascends(p.page) && (forall x :: x in p.page ==> x in p.provided)
    && (forall x, y :: x in p.page && y in p.held ==> y < x)
    && (forall x, y :: x in p.provided && y in p.page && x <= y ==> x in p.held || x in p.page)
  }

  /** What a walk has read: everything held or in hand beyond its watermark. */
  function ReadSince(p: Progress, watermark: nat): set<nat> {
    set x | x in p.held + Members(p.page) && x in p.provided && watermark < x
  }

  /** The walk counts its pages right: every page before the next one was full. */
  ghost predicate WalkInStep(p: Progress, size: nat) {
    p.walk.After? ==>
      && p.walk.watermark in p.held
      && (p.walk.pages == 0 || p.walk.more ==> |ReadSince(p, p.walk.watermark)| == p.walk.pages * size)
  }

  ghost predicate InStep(p: Progress, size: nat) { NoGap(p) && PageInStep(p) && WalkInStep(p, size) }

  // ---------------------------------------------------------------------------
  // Pages counted by position leave nothing out
  // ---------------------------------------------------------------------------

  lemma AscendsOnce(all: seq<nat>)
    requires Ascends(all)
    ensures NoDuplicates(all)
  {
  }

  /** A set that has all that is listed below each of its members is the start of the listing. */
  lemma StartOfTheListing(all: seq<nat>, s: set<nat>, i: nat)
    requires Ascends(all) && i < |all| && s <= Members(all)
    requires forall x, y :: x in all && y in s && x <= y ==> x in s
    ensures all[i] in s <==> i < |s|
  {
    AscendsOnce(all[..i]);
    DistinctCount(all[..i]);
    if all[i] in s {
      assert Members(all[..i]) <= s - {all[i]};
      SmallerSet(Members(all[..i]), s - {all[i]});
    } else {
      forall x | x in s
        ensures x in all[..i]
      {
        var j :| 0 <= j < |all| && all[j] == x;
        assert j < i;
        assert all[..i][j] == x;
      }
      SmallerSet(s, Members(all[..i]));
    }
  }

  /** Everything a walk has read so far, as the start of what the provider lists now. */
  lemma ReadSoFar(p: Progress, size: nat, all: seq<nat>, i: nat)
    requires InStep(p, size) && CanHappen(p, Fetch(all)) && i < |all|
    ensures all[i] in p.held <==> i < p.walk.pages * size
  {
    var s := ReadSince(p, p.walk.watermark);
    forall x | x in s
      ensures x in all
    {
    }
    StartOfTheListing(all, s, i);
    assert all[i] in all;
  }

  lemma InPage(all: seq<nat>, n: nat, size: nat, x: nat)
    ensures x in PageOf(all, n, size) <==> exists i :: n * size <= i < n * size + size && i < |all| && all[i] == x
    ensures Ascends(all) ==> Ascends(PageOf(all, n, size))
  {
    var lo, page := n * size, PageOf(all, n, size);
    assert forall j :: 0 <= j < |page| ==> page[j] == all[lo + j];
    if i :| lo <= i < lo + size && i < |all| && all[i] == x {
      assert page[i - lo] == x;
    }
  }

  /** A page names another exactly when, once it is recorded, the provider lists something not read yet. */
  lemma MoreIff(p: Progress, all: seq<nat>, size: nat)
    requires InStep(p, size) && CanHappen(p, Fetch(all))
    ensures var p' := Happened(p, Fetch(all), size);
            p'.walk.more <==> exists x :: x in all && x !in p.held && x !in p'.page
  {
    hide InStep, PageOf, Ascends;
    var n, p' := p.walk.pages, Happened(p, Fetch(all), size);
    assert (n + 1) * size == n * size + size;
    if (n + 1) * size < |all| {
      UnreadIff(p, all, size, (n + 1) * size);
    }
    if x :| x in all && x !in p.held && x !in p'.page {
      var i :| 0 <= i < |all| && all[i] == x;
      UnreadIff(p, all, size, i);
    }
  }

  /** Of a listing, what is on pages not asked for yet is what is neither held nor in hand. */
  lemma UnreadIff(p: Progress, all: seq<nat>, size: nat, i: nat)
    requires InStep(p, size) && CanHappen(p, Fetch(all)) && i < |all|
    ensures all[i] in p.held || all[i] in PageOf(all, p.walk.pages, size) <==> i < p.walk.pages * size + size
  {
    hide InStep, PageOf;
    ReadSoFar(p, size, all, i);
    InPage(all, p.walk.pages, size, all[i]);
  }

  /** The provider answers above everything held and leaves nothing out below what it answers. */
  ghost predicate Answers(p: Progress, page: seq<nat>) {
    && Ascends(page)
    && (forall x :: x in page ==> x in p.provided && forall y :: y in p.held ==> y < x)
    && (forall x, y :: x in p.provided && y in page && x <= y ==> x in page || x in p.held)
  }

  /**
   * A fixed watermark and a page number are enough: while the provider numbers upwards,
   * each page of a walk, the first or a later one, starts above everything held by then.
   */
  lemma EveryPageAnswers(p: Progress, size: nat, all: seq<nat>)
    requires InStep(p, size) && CanHappen(p, Fetch(all))
    ensures Answers(p, PageOf(all, p.walk.pages, size))
  {
    var n, w := p.walk.pages, p.walk.watermark;
    var page := PageOf(all, n, size);
    forall x | x in page
      ensures x in p.provided && forall y :: y in p.held ==> y < x
    {
      InPage(all, n, size, x);
      var i :| n * size <= i < n * size + size && i < |all| && all[i] == x;
      ReadSoFar(p, size, all, i);
      assert x in all;
    }
    forall x, y | x in p.provided && y in page && x <= y
      ensures x in page || x in p.held
    {
      InPage(all, n, size, y);
      InPage(all, n, size, x);
      if x > w {
        assert x in all;
        var i :| 0 <= i < |all| && all[i] == x;
        ReadSoFar(p, size, all, i);
      }
    }
    InPage(all, n, size, 0);
  }

  lemma OneEventKeepsStep(p: Progress, e: Event, size: nat)
    requires InStep(p, size) && CanHappen(p, e) && (e.Publish? ==> IsAbove(p, e.id) || e.id in p.provided)
    ensures InStep(Happened(p, e, size), size)
  {
    match e
    case Publish(id) =>
      if p.walk.After? {
        assert ReadSince(Happened(p, e, size), p.walk.watermark) == ReadSince(p, p.walk.watermark);
      }
    case Begin(watermark) =>
      assert ReadSince(p, watermark) == {};
      assert ReadSince(Happened(p, e, size), watermark) == {};
    case Fetch(all) =>
      EveryPageAnswers(p, size, all);
      FetchKeepsCount(p, size, all);
    case Record =>
      RecordKeepsStep(p, size);
    case Stop =>
  }

  lemma PageIsCounted(p: Progress, p': Progress, w: nat)
    requires p.page == [] && p'.held == p.held && p'.provided == p.provided && Answers(p, p'.page) && w in p.held
    ensures |ReadSince(p', w)| == |ReadSince(p, w)| + |p'.page|
  {
    AscendsOnce(p'.page);
    DistinctCount(p'.page);
    var before, after := ReadSince(p, w), ReadSince(p', w);
    assert after == before + Members(p'.page) && before !! Members(p'.page);
  }

  lemma FetchKeepsCount(p: Progress, size: nat, all: seq<nat>)
    requires InStep(p, size) && CanHappen(p, Fetch(all)) && Answers(p, PageOf(all, p.walk.pages, size))
    ensures WalkInStep(Happened(p, Fetch(all), size), size)
  {
    hide Answers, NoGap, PageInStep, ListedAfter, ReadSince;
    var n := p.walk.pages;
    PageIsCounted(p, Happened(p, Fetch(all), size), p.walk.watermark);
    assert (n + 1) * size == n * size + size;
  }

  lemma RecordKeepsStep(p: Progress, size: nat)
    requires InStep(p, size) && p.page != []
    ensures InStep(Happened(p, Record, size), size)
  {
    hide NoGap, PageInStep;
    var p' := Happened(p, Record, size);
    RecordKeepsPage(p, p');
    if p.walk.After? {
      assert Members(p.page) == {p.page[0]} + Members(p'.page);
      assert ReadSince(p', p.walk.watermark) == ReadSince(p, p.walk.watermark);
    }
  }

  lemma RecordKeepsPage(p: Progress, p': Progress)
    requires NoGap(p) && PageInStep(p) && p.page != []
    requires p' == p.(held := p.held + {p.page[0]}, page := p.page[1..])
    ensures NoGap(p') && PageInStep(p') && forall x :: x in p.page <==> x == p.page[0] || x in p'.page
  {
    hide Ascends;
    FirstOfAPage(p.page);
  }

  lemma FirstOfAPage(page: seq<nat>)
    requires Ascends(page) && page != []
    ensures Ascends(page[1..]) && page[0] in page
    ensures forall x :: x in page <==> x == page[0] || x in page[1..]
    ensures forall x :: x in page[1..] ==> page[0] < x
  {
    var first, rest := page[0], page[1..];
    assert page == [first] + rest;
    forall x | x in rest
      ensures first < x
    {
      var j :| 0 <= j < |rest| && rest[j] == x;
      assert x == page[j + 1];
    }
  }

  /** Whatever happened, in order. */
  ghost predicate Unfolds(ps: seq<Progress>, es: seq<Event>, size: nat) {
    |ps| == |es| + 1
    && forall i :: 0 <= i < |es| ==> CanHappen(ps[i], es[i]) && ps[i + 1] == Happened(ps[i], es[i], size)
  }

  ghost predicate NumbersUpwards(ps: seq<Progress>, es: seq<Event>)
    requires |ps| == |es| + 1
  {
    forall i :: 0 <= i < |es| && es[i].Publish? ==> IsAbove(ps[i], es[i].id) || es[i].id in ps[i].provided
  }

  /**
   * Gap-free resumption: from a catalogue without a gap, walks that are cut off at
   * any listing and begun anew from the highest identifier held never leave a
   * provider identifier missing below it, as long as the provider numbers upwards.
   */
  lemma {:induction false} NeverAGap(ps: seq<Progress>, es: seq<Event>, size: nat)
    requires Unfolds(ps, es, size) && NumbersUpwards(ps, es) && InStep(ps[0], size)
    ensures InStep(ps[|es|], size) && NoGap(ps[|es|])
  {
    if es != [] {
      var n := |es| - 1;
      assert Unfolds(ps[..|ps| - 1], es[..n], size) && NumbersUpwards(ps[..|ps| - 1], es[..n]);
      NeverAGap(ps[..|ps| - 1], es[..n], size);
      OneEventKeepsStep(ps[n], es[n], size);
    }
  }

  /** An identifier below one that is held and below the watermark of a walk under way, neither held nor in hand. */
  ghost predicate IsMissed(p: Progress, id: nat) {
    && id !in p.held && id !in p.page && (exists y :: y in p.held && id < y)
    && (p.walk.After? ==> id <= p.walk.watermark)
  }

  /**
   * The blind spot is permanent. An identifier the provider inserts below the
   * highest one held is never found by any number of incremental walks begun since,
   * whole or interrupted: only the walk of the whole list sees it.
   */
  lemma {:induction false} MissedForEver(ps: seq<Progress>, es: seq<Event>, size: nat, id: nat)
    requires Unfolds(ps, es, size) && IsMissed(ps[0], id)
    ensures IsMissed(ps[|es|], id)
  {
    if es != [] {
      var n := |es| - 1;
      assert Unfolds(ps[..|ps| - 1], es[..n], size);
      MissedForEver(ps[..|ps| - 1], es[..n], size, id);
      MissedByOneEvent(ps[n], es[n], size, id);
    }
  }

  lemma MissedByOneEvent(p: Progress, e: Event, size: nat, id: nat)
    requires CanHappen(p, e) && IsMissed(p, id)
    ensures IsMissed(Happened(p, e, size), id)
  {
    var y :| y in p.held && id < y;
    assert y in Happened(p, e, size).held;
    if e.Record? {
      assert p.page == [p.page[0]] + p.page[1..];
      assert p.page[0] in p.page;
    } else if e.Fetch? {
      InPage(e.all, p.walk.pages, size, id);
      assert id !in e.all;
    }
  }

  /**
   * A walk under way counts its pages by position. Three identifiers inserted behind it
   * push the list back, and its second page of two holds one of them, below the highest held.
   */
  lemma AWalkUnderWayMayFindIt() returns (p: Progress, p': Progress, all: seq<nat>)
    ensures InStep(p, 2) && 4 !in p.provided
    ensures p' == Happened(Happened(Happened(p, Publish(2), 2), Publish(3), 2), Publish(4), 2)
    ensures CanHappen(p', Fetch(all)) && 4 in Happened(p', Fetch(all), 2).page && 8 in p'.held
  {
    p := Progress({1, 7, 8, 9}, {1, 7, 8}, After(1, 1, true), []);
    assert ReadSince(p, 1) == {7, 8};
    p' := Happened(Happened(Happened(p, Publish(2), 2), Publish(3), 2), Publish(4), 2);
    all := [2, 3, 4, 7, 8, 9];
    assert forall x :: x in all <==> x == 2 || x == 3 || x == 4 || x == 7 || x == 8 || x == 9;
    assert PageOf(all, 1, 2) == [4, 7];
  }

  /** Publishing an identifier keeps the catalogue without a gap exactly when it is held already or above all that is held. */
  lemma PublishingKeepsNoGapIff(p: Progress, id: nat)
    requires NoGap(p)
    ensures NoGap(Happened(p, Publish(id), 0)) <==> id in p.held || forall y :: y in p.held ==> y < id
  {
    var after := Happened(p, Publish(id), 0);
    if id !in p.held && exists y :: y in p.held && y >= id {
      var y :| y in p.held && y >= id;
      assert id in after.provided && y in after.held && id <= y;
    }
  }

  // ---------------------------------------------------------------------------
  // What is held, in the tables
  // ---------------------------------------------------------------------------

  /** Recording a numeric identifier adds its number to those held, and any other adds nothing. */
  lemma DiscoveryAddsTheNumber(c: Setting, t: Tables, asset: AssetId, externalId: string, name: string)
    ensures NumbersHeld(c, M.Discovered(c, t, asset, externalId, name))
         == NumbersHeld(c, t) + (if IsNumeric(externalId) then {DecimalValue(externalId)} else {})
  {
    var t' := M.Discovered(c, t, asset, externalId, name);
    forall x
      ensures x in NumbersHeld(c, t')
          <==> x in NumbersHeld(c, t) || (IsNumeric(externalId) && x == DecimalValue(externalId))
    {
      assert KeyFor(c, externalId) in t'.sourceIds;
      if x in NumbersHeld(c, t) {
        var k :| k in t.sourceIds && k.game == c.game && k.source == c.source && IsNumeric(k.externalId)
                 && DecimalValue(k.externalId) == x;
        assert k in t'.sourceIds;
      }
    }
  }

  /**
   * The numbers the tables hold move as the model says: a walk begins after the
   * watermark the query prints, and recording the next listing of a page is what
   * discovery does with it.
   */
  lemma WalksAreOverTheTables(c: Setting, t: Tables, p: Progress, size: nat, watermark: string, asset: AssetId,
                              externalId: string, name: string)
    requires p.held == NumbersHeld(c, t)
    ensures IsWatermark(c, t, Ok(Some(watermark))) && p.walk.NoWalk? && p.page == [] ==>
              CanHappen(p, Begin(DecimalValue(watermark)))
    ensures p.page != [] && IsNumeric(externalId) && DecimalValue(externalId) == p.page[0] ==>
              Happened(p, Record, size).held == NumbersHeld(c, M.Discovered(c, t, asset, externalId, name))
  {
    if IsWatermark(c, t, Ok(Some(watermark))) {
      WatermarkIsTheMaximum(c, t, watermark);
    }
    DiscoveryAddsTheNumber(c, t, asset, externalId, name);
  }

  /** The order of the texts is not the order of the numbers: as texts, 9 outranks 56022. */
  lemma TextMaximumIsNoWatermark()
    ensures TextLess("56022", "9") && DecimalValue("9") < DecimalValue("56022")
  {
    var text := "56022";
    assert text[..4] == "5602" && "5602"[..3] == "560" && "560"[..2] == "56" && "56"[..1] == "5";
    assert DecimalValue("5") == 5 && DecimalValue("56") == 56 && DecimalValue("560") == 560;
    assert DecimalValue("5602") == 5602;
    assert "9"[..0] == "";
  }
}
