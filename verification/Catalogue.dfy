/** Identifiers and attributes: what is known of the cards, and the queries that say what is not. */
module Catalogue {
  import opened Domain
  import opened Text
  import opened Sets
  import opened ObjectKeys
  import opened Ledger
  import opened Bookkeeping
  import M = Machine

  /** One entry of a provider's asset list. */
  datatype Listing = Listing(externalId: string, name: string)

  /** What a provider says of one card. */
  datatype Card = Card(externalId: string, attributes: M.Attributes)

  function KeyFor(c: Setting, externalId: string): SourceKey { SourceKey(c.game, c.source, externalId) }

  // ---------------------------------------------------------------------------
  // Attributes
  // ---------------------------------------------------------------------------

  predicate IsKnown(c: Setting, t: Tables, externalId: string) {
    KeyFor(c, externalId) in t.sourceIds && t.sourceIds[KeyFor(c, externalId)] in t.assets
  }

  /** One card: written when its name is consistent with the one held, otherwise left alone. */
  function TryDescribe(c: Setting, t: Tables, card: Card, now: Instant): Tables {
    if M.CanDescribe(c, t, card.externalId, card.attributes)
    then M.Described(t, t.sourceIds[KeyFor(c, card.externalId)], card.attributes, now) else t
  }

  /** A page of cards, each on what the ones before it left. */
  function Harvested(c: Setting, t: Tables, cards: seq<Card>, now: Instant): Tables {
    if cards == [] then t
    else TryDescribe(c, Harvested(c, t, cards[..|cards| - 1], now), cards[|cards| - 1], now)
  }

  /** How many cards were refused for a name that does not fold to the one held. */
  function Repointed(c: Setting, t: Tables, cards: seq<Card>, now: Instant): nat {
    if cards == [] then 0
    else
      var init, last := cards[..|cards| - 1], cards[|cards| - 1];
      var before := Harvested(c, t, init, now);
      Repointed(c, t, init, now)
      + if IsKnown(c, before, last.externalId) && !M.CanDescribe(c, before, last.externalId, last.attributes) then 1 else 0
  }

  /** Attributes never touch an identity, a price, a poll or a run, and never rename a card to one that folds otherwise. */
  lemma {:induction false} HarvestKeepsIdentity(c: Setting, t: Tables, cards: seq<Card>, now: Instant)
    ensures var t' := Harvested(c, t, cards, now);
            && t'.sourceIds == t.sourceIds && t'.assets.Keys == t.assets.Keys && t'.markets == t.markets
            && t'.observations == t.observations && t'.polls == t.polls && t'.runs == t.runs
            && (forall a :: a in t.assets ==>
                  t'.assets[a].game == t.assets[a].game
                  && (c.fold(t.assets[a].name) != "" ==> c.fold(t'.assets[a].name) == c.fold(t.assets[a].name)))
            && (OneToOne(c, t) ==> OneToOne(c, t'))
  {
    if cards != [] {
      HarvestKeepsIdentity(c, t, cards[..|cards| - 1], now);
    }
  }

  // ---------------------------------------------------------------------------
  // Discovered identifiers
  // ---------------------------------------------------------------------------

  predicate Holds(c: Setting, t: Tables, listing: Listing) { KeyFor(c, listing.externalId) in t.sourceIds }

  /** Identities only grow, and stay one to one. */
  ghost predicate Grew(c: Setting, t: Tables, t': Tables) {
    && (forall k :: k in t.sourceIds ==> k in t'.sourceIds && t'.sourceIds[k] == t.sourceIds[k])
    && t.assets.Keys <= t'.assets.Keys && t'.runs == t.runs
    && (OneToOne(c, t) ==> OneToOne(c, t'))
  }

  lemma DiscoveryGrows(c: Setting, t: Tables, asset: AssetId, externalId: string, name: string)
    requires asset !in t.assets && KeyFor(c, externalId) !in t.sourceIds
    ensures Grew(c, t, M.Discovered(c, t, asset, externalId, name))
  {
  }

  lemma GrewOn(c: Setting, a: Tables, b: Tables, d: Tables)
    requires Grew(c, a, b) && Grew(c, b, d)
    ensures Grew(c, a, d)
  {
  }

  // ---------------------------------------------------------------------------
  // Cards that need attributes
  // ---------------------------------------------------------------------------

  predicate NeedsAttributes(c: Setting, t: Tables, cadenceSeconds: int, now: Instant, k: SourceKey) {
    && k in t.sourceIds && k.game == c.game && k.source == c.source
    && t.sourceIds[k] in t.assets && t.assets[t.sourceIds[k]].game == c.game
    && var seen := t.assets[t.sourceIds[k]].lastSeen; seen.Some? ==> seen.value < now - cadenceSeconds * SECOND
  }

  function Needing(c: Setting, t: Tables, cadenceSeconds: int, now: Instant): set<string> {
    set k | k in t.sourceIds && NeedsAttributes(c, t, cadenceSeconds, now, k) :: k.externalId
  }

  lemma NeedingIs(c: Setting, t: Tables, cadenceSeconds: int, now: Instant, id: string)
    ensures id in Needing(c, t, cadenceSeconds, now) <==> NeedsAttributes(c, t, cadenceSeconds, now, KeyFor(c, id))
  {
    if k :| k in t.sourceIds && NeedsAttributes(c, t, cadenceSeconds, now, k) && k.externalId == id {
      assert k == KeyFor(c, id);
    }
  }

  /** A card just discovered needs attributes at once, whatever the cadence. */
  lemma DiscoveredNeedsAttributes(c: Setting, t: Tables, asset: AssetId, externalId: string, name: string,
                                  cadenceSeconds: int, now: Instant)
    requires asset !in t.assets && KeyFor(c, externalId) !in t.sourceIds
    ensures externalId in Needing(c, M.Discovered(c, t, asset, externalId, name), cadenceSeconds, now)
  {
    NeedingIs(c, M.Discovered(c, t, asset, externalId, name), cadenceSeconds, now, externalId);
  }

  /**
   * A card whose attributes were written at one instant needs them again exactly when more
   * than the cadence has passed since, and another card exactly when it did before.
   */
  lemma DescribedNeedsAgainIff(c: Setting, t: Tables, externalId: string, attributes: M.Attributes, at: Instant,
                               cadenceSeconds: int, now: Instant, other: string)
    requires M.CanDescribe(c, t, externalId, attributes) && OneToOne(c, t)
    ensures var t' := M.Described(t, t.sourceIds[KeyFor(c, externalId)], attributes, at);
            && (externalId in Needing(c, t', cadenceSeconds, now) <==> now - at > cadenceSeconds * 1_000_000)
            && (other != externalId ==>
                  (other in Needing(c, t', cadenceSeconds, now) <==> other in Needing(c, t, cadenceSeconds, now)))
  {
    var t' := M.Described(t, t.sourceIds[KeyFor(c, externalId)], attributes, at);
    NeedingIs(c, t', cadenceSeconds, now, externalId);
    NeedingIs(c, t', cadenceSeconds, now, other);
    NeedingIs(c, t, cadenceSeconds, now, other);
  }

  function LastSeen(c: Setting, t: Tables, externalId: string): Option<Instant> {
    if IsKnown(c, t, externalId) then t.assets[t.sourceIds[KeyFor(c, externalId)]].lastSeen else None
  }

  /** A list the query may return: cards that need attributes, longest unseen first, as many as the limit allows. */
  ghost predicate IsStaleSelection(c: Setting, t: Tables, all: set<string>, limit: nat, ids: seq<string>) {
    && NoDuplicates(ids) && (forall id :: id in ids ==> id in all)
    && |ids| == (if limit < |all| then limit else |all|)
    && (forall i, j :: 0 <= i < j < |ids| ==> !Earlier(LastSeen(c, t, ids[j]), LastSeen(c, t, ids[i])))
    && (forall x, y :: x in ids && y in all && y !in ids ==> !Earlier(LastSeen(c, t, y), LastSeen(c, t, x)))
  }

  /** The last time a card was seen is no later than another's, on the columns; one never seen comes first. */
  predicate SeenNoLater(t: Tables, x: SourceKey, y: SourceKey) {
    && x in t.sourceIds && t.sourceIds[x] in t.assets && y in t.sourceIds && t.sourceIds[y] in t.assets
    && var first, second := t.assets[t.sourceIds[x]].lastSeen, t.assets[t.sourceIds[y]].lastSeen;
    first.None? || (second.Some? && first.value <= second.value)
  }

  /** The cards asked about come longest unseen first, and no card left out has gone unseen longer than one asked about. */
  lemma LongestUnseenFirst(c: Setting, t: Tables, cadenceSeconds: int, now: Instant, limit: nat, ids: seq<string>)
    requires IsStaleSelection(c, t, Needing(c, t, cadenceSeconds, now), limit, ids)
    ensures forall i, j :: 0 <= i < j < |ids| ==> SeenNoLater(t, KeyFor(c, ids[i]), KeyFor(c, ids[j]))
    ensures forall x, y :: x in ids && y in Needing(c, t, cadenceSeconds, now) && y !in ids ==>
              SeenNoLater(t, KeyFor(c, x), KeyFor(c, y))
  {
    forall id | id in Needing(c, t, cadenceSeconds, now)
      ensures KeyFor(c, id) in t.sourceIds && t.sourceIds[KeyFor(c, id)] in t.assets
    {
      NeedingIs(c, t, cadenceSeconds, now, id);
    }
    forall i, j | 0 <= i < j < |ids|
      ensures SeenNoLater(t, KeyFor(c, ids[i]), KeyFor(c, ids[j]))
    {
      assert ids[i] in ids && ids[j] in ids;
      assert !Earlier(LastSeen(c, t, ids[j]), LastSeen(c, t, ids[i]));
    }
  }

  /** `ids` was taken from `all` longest unseen first, and `left` is the rest. */
  ghost predicate Taken(c: Setting, t: Tables, all: set<string>, left: set<string>, ids: seq<string>) {
    && left <= all && NoDuplicates(ids) && |ids| + |left| == |all| && (forall id :: id in ids <==> id in all && id !in left)
    && (forall i, j :: 0 <= i < j < |ids| ==> !Earlier(LastSeen(c, t, ids[j]), LastSeen(c, t, ids[i])))
    && (forall x, y :: x in ids && y in left ==> !Earlier(LastSeen(c, t, y), LastSeen(c, t, x)))
  }

  lemma TakeNext(c: Setting, t: Tables, all: set<string>, left: set<string>, ids: seq<string>, next: string)
    requires Taken(c, t, all, left, ids) && next in left
    requires forall y :: y in left ==> !Earlier(LastSeen(c, t, y), LastSeen(c, t, next))
    ensures Taken(c, t, all, left - {next}, ids + [next])
  {
    var longer := ids + [next];
    forall i, j | 0 <= i < j < |longer|
      ensures !Earlier(LastSeen(c, t, longer[j]), LastSeen(c, t, longer[i])) && longer[i] != longer[j]
    {
      assert longer[i] in ids;
    }
  }

  // ---------------------------------------------------------------------------
  // The watermark
  // ---------------------------------------------------------------------------

  /** The pattern ^[0-9]+$. */
  predicate IsNumeric(externalId: string) { externalId != "" && AllDigits(externalId) }

  const LARGEST_BIGINT: nat := 0x7fff_ffff_ffff_ffff

  function NumbersHeld(c: Setting, t: Tables): set<nat> {
    set k | k in t.sourceIds && k.game == c.game && k.source == c.source && IsNumeric(k.externalId) :: DecimalValue(k.externalId)
  }

  ghost predicate IsMaximum(s: set<nat>, x: nat) { x in s && forall y :: y in s ==> y <= x }

  /**
   * The watermark: the numeric maximum, printed without leading zeros. The query
   * fails when a number does not fit the integer it is cast to.
   */
  ghost predicate IsWatermark(c: Setting, t: Tables, r: Result<Option<string>, ()>) {
    var held := NumbersHeld(c, t);
    if exists x :: x in held && x > LARGEST_BIGINT then r.Err?
    else if held == {} then r == Ok(None)
    else exists x :: IsMaximum(held, x) && r == Ok(Some(Decimal(x)))
  }

  /** Read back as a number, a watermark is at least every number held. */
  lemma WatermarkIsTheMaximum(c: Setting, t: Tables, watermark: string)
    requires IsWatermark(c, t, Ok(Some(watermark)))
    ensures IsNumeric(watermark) && IsMaximum(NumbersHeld(c, t), DecimalValue(watermark))
    ensures forall id :: SourceKey(c.game, c.source, id) in t.sourceIds && id != "" && AllDigits(id) ==>
              DecimalValue(id) <= DecimalValue(watermark)
    ensures exists id :: SourceKey(c.game, c.source, id) in t.sourceIds && id != "" && AllDigits(id)
                         && DecimalValue(id) == DecimalValue(watermark)
  {
    var x :| IsMaximum(NumbersHeld(c, t), x) && watermark == Decimal(x);
    DecimalRoundTrip(x);
    forall id | SourceKey(c.game, c.source, id) in t.sourceIds && id != "" && AllDigits(id)
      ensures DecimalValue(id) in NumbersHeld(c, t)
    {
      assert IsNumeric(SourceKey(c.game, c.source, id).externalId);
    }
    var k :| k in t.sourceIds && k.game == c.game && k.source == c.source && IsNumeric(k.externalId)
             && DecimalValue(k.externalId) == x;
    assert SourceKey(c.game, c.source, k.externalId) == k;
  }

  /** One identifier too large for 64 bits, and the query has no answer for the whole catalogue. */
  lemma OneLargeIdentifierFailsTheWatermark(c: Setting, t: Tables, asset: AssetId)
    requires t.sourceIds == map[KeyFor(c, Decimal(LARGEST_BIGINT + 1)) := asset]
    ensures IsWatermark(c, t, Err(())) && !exists watermark :: IsWatermark(c, t, Ok(watermark))
  {
    var externalId := Decimal(LARGEST_BIGINT + 1);
    DecimalRoundTrip(LARGEST_BIGINT + 1);
    assert KeyFor(c, externalId) in t.sourceIds;
    assert LARGEST_BIGINT + 1 in NumbersHeld(c, t);
  }
}
