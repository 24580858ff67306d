/** The walk over the provider's pages, and the refresh of what is known of each card. */
module Discovery {
  import opened Domain
  import opened Ledger
  import opened Catalogue
  import opened Ingest
  import D = Database

  const MAX_ASSET_LIST_PAGES: nat := 2_000

  // ---------------------------------------------------------------------------
  // What the provider answers
  // ---------------------------------------------------------------------------

  /** One request of a walk: refused, not fetched or not archived; or archived, and what it parses to. */
  datatype Answer =
    | NotReady
    | Ready(listings: Option<seq<Listing>>, cards: Option<seq<Card>>, next: Option<U32>, now: Instant)

  /** The page the i-th request of a walk asks for: the first, and then whatever the answer before it named. */
  function PageAt(world: nat -> Answer, i: nat): nat {
    if i == 0 then 1
    else if world(i - 1).Ready? && world(i - 1).next.Some? then world(i - 1).next.value
    else 0
  }

  /** The i-th answer was archived and its list parsed, so its identifiers were recorded. */
  predicate Listed(world: nat -> Answer, i: nat) { world(i).Ready? && world(i).listings.Some? }

  predicate Clean(world: nat -> Answer, i: nat) { Listed(world, i) && world(i).cards.Some? }

  /** The i-th answer names a later page. */
  predicate LeadsOn(world: nat -> Answer, i: nat) {
    world(i).Ready? && world(i).next.Some? && world(i).next.value > PageAt(world, i)
  }

  /** n answers take the walk from the first page to the provider's last, each archived and parsed in full. */
  ghost predicate WalksThrough(world: nat -> Answer, n: nat) {
    && n > 0 && (forall i :: 0 <= i < n ==> Clean(world, i)) && (forall i :: 0 <= i < n - 1 ==> LeadsOn(world, i))
    && Clean(world, n - 1) && world(n - 1).next.None?
  }

  ghost predicate HoldsAll(c: Setting, t: Tables, listings: seq<Listing>) {
    forall listing :: listing in listings ==> Holds(c, t, listing)
  }

  lemma HeldStaysHeld(c: Setting, t: Tables, t': Tables, listings: seq<Listing>)
    requires HoldsAll(c, t, listings) && Grew(c, t, t')
    ensures HoldsAll(c, t', listings)
  {
  }

  // ---------------------------------------------------------------------------
  // The walk
  // ---------------------------------------------------------------------------

  /** Records the identifiers of one page not seen before, and their names. */
  method InsertListed(c: Setting, db: D.Database, known: set<string>, listings: seq<Listing>) returns (more: set<string>)
    requires forall id :: id in known <==> KeyFor(c, id) in db.sourceIds
    modifies db`assets, db`sourceIds
    ensures forall id :: id in more <==> KeyFor(c, id) in db.sourceIds
    ensures Grew(c, old(db.View()), db.View()) && HoldsAll(c, db.View(), listings)
    ensures forall id :: id in more ==> id in known || exists i :: 0 <= i < |listings| && listings[i].externalId == id
  {
    more := known;
    for i := 0 to |listings|
      invariant forall id :: id in more <==> KeyFor(c, id) in db.sourceIds
      invariant Grew(c, old(db.View()), db.View()) && HoldsAll(c, db.View(), listings[..i])
      invariant forall id :: id in more ==> id in known || exists j :: 0 <= j < i && listings[j].externalId == id
    {
      assert listings[..i + 1] == listings[..i] + [listings[i]];
      var id := listings[i].externalId;
      if id !in more {
        ghost var before := db.View();
        var asset := db.InsertDiscoveredAsset(c, id, listings[i].name);
        DiscoveryGrows(c, before, asset, id, listings[i].name);
        GrewOn(c, old(db.View()), before, db.View());
        HeldStaysHeld(c, before, db.View(), listings[..i]);
        more := more + {id};
      }
    }
    assert listings[..|listings|] == listings;
  }

  /** A walk that has made i requests and may make another. */
  ghost predicate Underway(world: nat -> Answer, i: nat, page: nat, complete: bool) {
    && page == PageAt(world, i)
    && (forall j :: 0 <= j < i ==> Listed(world, j) && LeadsOn(world, j))
    && (complete <==> forall j :: 0 <= j < i ==> Clean(world, j))
  }

  /** A walk stopped after i answers that all led on walks through only if the next one ends it. */
  lemma StoppedShort(world: nat -> Answer, i: nat, n: nat)
    requires (forall j :: 0 <= j < i ==> LeadsOn(world, j)) && WalksThrough(world, n)
    ensures n > i && Clean(world, i) && (n == i + 1 <==> world(i).next.None?) && (n > i + 1 ==> LeadsOn(world, i))
  {
    assert n - 1 < i ==> LeadsOn(world, n - 1);
    assert n - 1 > i ==> LeadsOn(world, i);
  }

  /** What one archived answer leaves behind: its identifiers, and the attributes it carries for free. */
  method ReadAnswer(c: Setting, db: D.Database, tally: Tally, known: set<string>, listings: seq<Listing>,
                    cards: Option<seq<Card>>, page: nat, now: Instant) returns (more: set<string>, repointed: nat)
    requires forall id :: id in known <==> KeyFor(c, id) in db.sourceIds
    modifies db`assets, db`sourceIds, db`schedule, tally`degraded
    ensures forall id :: id in more <==> KeyFor(c, id) in db.sourceIds
    ensures Grew(c, old(db.View()), db.View()) && HoldsAll(c, db.View(), listings)
    ensures forall id :: id in more ==> id in known || exists i :: 0 <= i < |listings| && listings[i].externalId == id
    ensures tally.degraded == old(tally.degraded) + if cards.None? then [NotParsed(page)] else []
  {
    more := InsertListed(c, db, known, listings);
    repointed := 0;
    match cards
    case None => tally.Degrade(NotParsed(page));
    case Some(parsed) =>
      ghost var before := db.View();
      var updated;
      updated, repointed := db.ApplyAttributes(c, parsed, now);
      HarvestKeepsIdentity(c, before, parsed, now);
      GrewOn(c, old(db.View()), before, db.View());
      HeldStaysHeld(c, before, db.View(), listings);
  }

  /** Every identifier of the walk's first n answers is on record. */
  ghost predicate HoldsListed(c: Setting, t: Tables, world: nat -> Answer, n: nat) {
    forall i :: 0 <= i < n && Listed(world, i) ==> HoldsAll(c, t, world(i).listings.value)
  }

  lemma HoldsOn(c: Setting, t: Tables, t': Tables, world: nat -> Answer, n: nat)
    requires HoldsListed(c, t, world, n) && Grew(c, t, t')
    ensures HoldsListed(c, t', world, n)
  {
    forall i | 0 <= i < n && Listed(world, i)
      ensures HoldsAll(c, t', world(i).listings.value)
    {
      HeldStaysHeld(c, t, t', world(i).listings.value);
    }
  }

  ghost predicate ReachesTheEnd(world: nat -> Answer, budget: nat) {
    exists n: nat :: n <= MAX_ASSET_LIST_PAGES && n <= budget && WalksThrough(world, n)
  }

  lemma NoEnd(world: nat -> Answer, i: nat, budget: nat)
    requires forall j :: 0 <= j < i ==> LeadsOn(world, j)
    requires i >= MAX_ASSET_LIST_PAGES || i >= budget || !Clean(world, i) || (world(i).next.Some? && !LeadsOn(world, i))
    ensures !ReachesTheEnd(world, budget)
  {
    forall n: nat | WalksThrough(world, n)
      ensures n > MAX_ASSET_LIST_PAGES || n > budget
    {
      StoppedShort(world, i, n);
    }
  }

  lemma UncleanNeverEnds(world: nat -> Answer, i: nat, budget: nat, j: nat)
    requires (forall m :: 0 <= m < i ==> LeadsOn(world, m)) && j <= i && !Clean(world, j)
    ensures !ReachesTheEnd(world, budget)
  {
    NoEnd(world, j, budget);
  }

  /** One more listed answer: the walk goes on, or it has reached the end and knows whether every page was clean. */
  lemma OneMoreAnswer(world: nat -> Answer, i: nat, page: nat, complete: bool, budget: nat)
    requires Underway(world, i, page, complete) && Listed(world, i) && i < MAX_ASSET_LIST_PAGES && i < budget
    ensures LeadsOn(world, i) ==> Underway(world, i + 1, world(i).next.value, complete && world(i).cards.Some?)
    ensures world(i).next.None? ==> (complete && world(i).cards.Some? <==> ReachesTheEnd(world, budget))
    ensures world(i).next.None? && complete && world(i).cards.Some? ==> WalksThrough(world, i + 1)
  {
    assert Clean(world, i) <==> world(i).cards.Some?;
    assert (forall j :: 0 <= j < i + 1 ==> Clean(world, j)) <==> complete && Clean(world, i);
    if !(complete && Clean(world, i)) {
      var j: nat :| j <= i && !Clean(world, j);
      UncleanNeverEnds(world, i, budget, j);
    } else if world(i).next.None? {
      assert WalksThrough(world, i + 1);
    }
  }

  lemma HoldsOneMore(c: Setting, t: Tables, world: nat -> Answer, i: nat)
    requires HoldsListed(c, t, world, i) && !Listed(world, i)
    ensures HoldsListed(c, t, world, i + 1)
  {
  }

  /** After i requests a walk has lost and changed no identity, and holds every identifier listed to it. */
  ghost predicate Walked(c: Setting, t: Tables, t': Tables, world: nat -> Answer, i: nat) {
    Grew(c, t, t'.(runs := t.runs)) && HoldsListed(c, t', world, i)
  }

  method ReadPage(c: Setting, db: D.Database, tally: Tally, known: set<string>, world: nat -> Answer, i: nat, page: nat,
                  ghost start: Tables) returns (more: set<string>, repointed: nat)
    requires forall id :: id in known <==> KeyFor(c, id) in db.sourceIds
    requires Walked(c, start, db.View(), world, i) && Listed(world, i)
    modifies db`assets, db`sourceIds, db`schedule, tally`degraded
    ensures forall id :: id in more <==> KeyFor(c, id) in db.sourceIds
    ensures Walked(c, start, db.View(), world, i + 1)
    ensures |tally.degraded| == |old(tally.degraded)| + if world(i).cards.None? then 1 else 0
  {
    more, repointed := ReadAnswer(c, db, tally, known, world(i).listings.value, world(i).cards, page, world(i).now);
    HoldsOn(c, old(db.View()), db.View(), world, i);
  }

  /** Where a walk stands: how many requests it made, which page is next, and whether every page so far was clean. */
  datatype Position = Position(requests: nat, page: nat, complete: bool, known: set<string>, repointed: nat)

  ghost predicate Standing(c: Setting, start: Tables, t: Tables, world: nat -> Answer, at: Position) {
    && Underway(world, at.requests, at.page, at.complete) && at.requests <= MAX_ASSET_LIST_PAGES
    && Walked(c, start, t, world, at.requests)
    && (forall id :: id in at.known <==> KeyFor(c, id) in t.sourceIds)
  }

  /** The walk is over: complete exactly when its requests led to the provider's last page. */
  ghost predicate Ended(c: Setting, start: Tables, t: Tables, world: nat -> Answer, at: Position, spendable: nat) {
    && (at.complete <==> ReachesTheEnd(world, spendable)) && (at.complete ==> WalksThrough(world, at.requests))
    && at.requests <= MAX_ASSET_LIST_PAGES && Walked(c, start, t, world, at.requests)
  }

  /** One answer read: the walk goes on from a later page, or ends. */
  method Turn(c: Setting, db: D.Database, tally: Tally, world: nat -> Answer, at: Position,
              ghost start: Tables, ghost spendable: nat)
    returns (more: bool, after: Position)
    requires Standing(c, start, db.View(), world, at) && at.requests < MAX_ASSET_LIST_PAGES && at.requests < spendable
    modifies db`assets, db`sourceIds, db`schedule, tally`degraded
    ensures after.requests == at.requests + 1
    ensures if more then Standing(c, start, db.View(), world, after)
            else Ended(c, start, db.View(), world, after, spendable)
    ensures |tally.degraded| >= |old(tally.degraded)|
    ensures at.complete && !after.complete ==> |tally.degraded| > |old(tally.degraded)|
    ensures !at.complete ==> !after.complete
  {
    var answer := world(at.requests);
    after := at.(requests := at.requests + 1);
    if answer.NotReady? || answer.listings.None? {
      NoEnd(world, at.requests, spendable);
      HoldsOneMore(c, db.View(), world, at.requests);
      tally.Degrade(if answer.NotReady? then NotFetched(at.page) else NotParsed(at.page));
      return false, after.(complete := false);
    }
    OneMoreAnswer(world, at.requests, at.page, at.complete, spendable);
    var known, repointed := ReadPage(c, db, tally, at.known, world, at.requests, at.page, start);
    after := after.(complete := at.complete && answer.cards.Some?, known := known, repointed := at.repointed + repointed);
    if answer.next.None? {
      return false, after;
    }
    if answer.next.value <= at.page {
      NoEnd(world, at.requests, spendable);
      tally.Degrade(WalkStopped(at.page));
      return false, after.(complete := false);
    }
    return true, after.(page := answer.next.value);
  }

  /**
   * Walks the asset list from page 1. It asks for at most as many pages as the cap
   * and the budget allow, records every identifier of every page it archived and
   * parsed, and never loses one. It reports itself complete, after which no walk is
   * due for some time, exactly when its requests led from page 1 to the provider's
   * last page with every page archived and parsed; otherwise it degrades the run.
   */
  method Walk(c: Setting, db: D.Database, budget: Budget, tally: Tally, run: RunId, world: nat -> Answer)
    returns (complete: bool, requests: nat)
    requires run in db.runs
    modifies db, budget, tally
    ensures complete <==> ReachesTheEnd(world, old(budget.remaining))
    ensures !complete ==> tally.degraded != old(tally.degraded)
    ensures requests <= MAX_ASSET_LIST_PAGES && budget.remaining == old(budget.remaining) - requests
    ensures complete ==> requests > 0 && WalksThrough(world, requests)
    ensures Walked(c, old(db.View()), db.View(), world, requests)
  {
    ghost var start, reasons, spendable := db.View(), |tally.degraded|, budget.remaining;
    var known := db.KnownExternalIds(c);
    var at := Position(0, 1, true, known, 0);
    var more := true;
    while more
      invariant run in db.runs && budget.remaining == spendable - at.requests
      invariant if more then Standing(c, start, db.View(), world, at) else Ended(c, start, db.View(), world, at, spendable)
      invariant |tally.degraded| >= reasons && (!at.complete ==> |tally.degraded| > reasons)
      decreases MAX_ASSET_LIST_PAGES - at.requests, more
    {
      var taken := false;
      if at.requests < MAX_ASSET_LIST_PAGES {
        taken := budget.Take();
      }
      if !taken {
        NoEnd(world, at.requests, spendable);
        tally.Degrade(WalkStopped(at.page));
        at, more := at.(complete := false), false;
      } else {
        db.RecordRequest(run);
        more, at := Turn(c, db, tally, world, at, start, spendable);
      }
    }
    complete, requests := at.complete, at.requests;
    if at.repointed > 0 {
      tally.Degrade(IdentifiersRepointed(at.repointed));
    }
  }

  // ---------------------------------------------------------------------------
  // The metadata step
  // ---------------------------------------------------------------------------

  /** One metadata request: skipped or stopped by its fetch, or archived and what it parses to. */
  datatype MetadataAnswer = Skipped | Halted | Fetched(cards: Option<seq<Card>>, now: Instant)

  function Affordable(remaining: nat, size: nat): nat {
    if remaining * size < LARGEST_BIGINT then remaining * size else LARGEST_BIGINT
  }

  /** A list no longer than the budget affords has a paid request for every chunk. */
  lemma ChunkIsPaidFor(listed: nat, remaining: nat, size: nat, batch: nat)
    requires listed <= remaining * size
    ensures batch * size < listed ==> batch < remaining
  {
    if batch >= remaining {
      assert batch * size == remaining * size + (batch - remaining) * size;
    }
  }

  predicate InFull(world: nat -> MetadataAnswer, n: nat) {
    forall b :: 0 <= b < n ==> world(b).Fetched? && world(b).cards.Some?
  }

  predicate NoneHalts(world: nat -> MetadataAnswer, n: nat) { forall b :: 0 <= b < n ==> !world(b).Halted? }

  /** Asking for all that was listed spends the budget, or asks for all that was outstanding or a 64-bit limit can list. */
  lemma AskedForAll(requests: nat, remaining: nat, size: nat, listed: nat, outstanding: nat)
    requires size >= 1 && requests * size >= listed && requests <= remaining
    requires listed == if Affordable(remaining, size) < outstanding then Affordable(remaining, size) else outstanding
    ensures requests == remaining || requests * size >= outstanding || requests * size >= 0x7fff_ffff_ffff_ffff
  {
    if requests < remaining {
      assert remaining * size == requests * size + (remaining - requests) * size;
      assert (remaining - requests) * size >= 1;
    }
  }

  /** With any budget at all, an empty answer means no card needs attributes; and no more is listed than it pays for. */
  lemma NothingToFetch(remaining: nat, size: nat)
    requires size >= 1
    ensures Affordable(remaining, size) == 0 <==> remaining == 0
    ensures Affordable(remaining, size) <= remaining * size
  {
    assert remaining >= 1 ==> remaining * size >= 1;
  }

  lemma HowManyAreListed(c: Setting, t: Tables, all: set<string>, limit: nat, ids: seq<string>)
    requires IsStaleSelection(c, t, all, limit, ids)
    ensures |ids| == if limit < |all| then limit else |all|
    ensures limit > 0 ==> (ids == [] <==> all == {})
  {
  }

  /** One metadata answer: an unparsed or missing one leaves the step incomplete. */
  method ReadMetadata(c: Setting, db: D.Database, tally: Tally, complete: bool, answer: MetadataAnswer, batch: nat)
    returns (still: bool, repointed: nat)
    modifies db`assets, db`schedule, tally`degraded
    ensures still <==> complete && answer.Fetched? && answer.cards.Some?
    ensures db.View() == if answer.Fetched? && answer.cards.Some?
                         then Harvested(c, old(db.View()), answer.cards.value, answer.now) else old(db.View())
  {
    still, repointed := complete, 0;
    if answer.Fetched? && answer.cards.Some? {
      var updated;
      updated, repointed := db.ApplyAttributes(c, answer.cards.value, answer.now);
    } else {
      tally.Degrade(if answer.Fetched? then NotParsed(batch) else NotFetched(batch));
      still := false;
    }
  }

  /**
   * Fetches attributes for the cards that need them. Once the step is flagged as done
   * no refresh is due for some time. It is flagged while some card still needs
   * attributes exactly when the run entered with no budget at all and some card needed
   * them: a query limited to no rows finds none, as if there were nothing to do. Unless
   * the provider stops it, the step sends as many requests as the outstanding cards take
   * or the budget has left, and none without a card to ask for.
   */
  method RefreshMetadata(c: Setting, db: D.Database, budget: Budget, tally: Tally, run: RunId, configured: nat,
                         cadenceSeconds: int, now: Instant, later: Instant, world: nat -> MetadataAnswer)
    returns (flagged: bool, requests: nat, checkedAt: Instant)
    requires run in db.runs
    modifies db, budget, tally
    ensures flagged && Needing(c, db.View(), cadenceSeconds, checkedAt) != {} <==>
              old(budget.remaining) == 0 && Needing(c, old(db.View()), cadenceSeconds, now) != {}
    ensures budget.remaining == old(budget.remaining) - requests
    ensures flagged ==> InFull(world, requests)
    ensures var size := if configured < 1 then 1 else configured;
            var outstanding := |Needing(c, old(db.View()), cadenceSeconds, now)|;
            && (requests > 0 ==> (requests - 1) * size < outstanding)
            && (NoneHalts(world, requests) ==>
                  requests == old(budget.remaining) || requests * size >= outstanding || requests * size >= 0x7fff_ffff_ffff_ffff)
    ensures flagged && requests == 0 ==> db.View() == old(db.View()) && checkedAt == now
  {
    hide Needing, Harvested, IsStaleSelection, Affordable, KeyFor;
    var size := if configured < 1 then 1 else configured;
    var stale := db.AssetsNeedingMetadata(c, cadenceSeconds, now, Affordable(budget.remaining, size));
    HowManyAreListed(c, db.View(), Needing(c, db.View(), cadenceSeconds, now), Affordable(budget.remaining, size), stale);
    requests, checkedAt := 0, now;
    NothingToFetch(budget.remaining, size);
    if stale == [] {
      AskedForAll(0, budget.remaining, size, 0, |Needing(c, db.View(), cadenceSeconds, now)|);
      return true, 0, now;
    }
    ghost var spendable, outstandingAtFirst := budget.remaining, |Needing(c, db.View(), cadenceSeconds, now)|;
    var complete, repointed := true, 0;
    while requests * size < |stale|
      invariant run in db.runs && budget.remaining == spendable - requests && |stale| <= spendable * size
      invariant complete ==> InFull(world, requests)
      invariant NoneHalts(world, requests) && (requests > 0 ==> (requests - 1) * size < |stale|)
      decreases |stale| - requests * size
    {
      ChunkIsPaidFor(|stale|, spendable, size, requests);
      var paid := budget.Take();
      assert paid;
      db.RecordRequest(run);
      var answer := world(requests);
      requests := requests + 1;
      var more;
      complete, more := ReadMetadata(c, db, tally, complete, answer, requests - 1);
      repointed := repointed + more;
      if answer.Halted? {
        break;
      }
    }
    if NoneHalts(world, requests) {
      AskedForAll(requests, spendable, size, |stale|, outstandingAtFirst);
    }
    checkedAt := later;
    var outstanding := db.AssetsNeedingMetadata(c, cadenceSeconds, later, 1);
    HowManyAreListed(c, db.View(), Needing(c, db.View(), cadenceSeconds, later), 1, outstanding);
    if repointed > 0 {
      tally.Degrade(IdentifiersRepointed(repointed));
    }
    flagged := complete && outstanding == [];
  }

  /** One card never described, and no budget: the step is flagged as done and the card still needs its attributes. */
  method FlaggedWithNothingDone(c: Setting, run: RunId, now: Instant, world: nat -> MetadataAnswer)
    returns (flagged: bool, db: D.Database)
    ensures flagged && Needing(c, db.View(), 0, now) == {"1"}
  {
    var card := Asset(c.game, "", None, Rare, BASE_VERSION, None);
    db := new D.Database(Tables(map[0 := card], map[KeyFor(c, "1") := 0], map[], map[], map[], map[],
                                map[run := Run(now, 0, [])]));
    var budget := new Budget(0);
    var tally := new Tally();
    assert KeyFor(c, "1").externalId == "1";
    assert Needing(c, db.View(), 0, now) == {"1"};
    var requests, checkedAt;
    flagged, requests, checkedAt := RefreshMetadata(c, db, budget, tally, run, 1, 0, now, now, world);
  }
}
