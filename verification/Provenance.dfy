/** Every stored price can be traced to an archived payload, at every instant a process may die. */
module Provenance {
  import opened Domain
  import opened Quotes
  import opened ObjectKeys
  import opened Ledger
  import opened Reading
  import opened Machine
  import opened Bookkeeping

  /** The run whose payloads a run's rows were read from: itself, or the one it was opened to replace. */
  function Behind(s: State, r: RunId): RunId { if r in s.replacing then s.replacing[r] else r }

  /** The current form of the target a row was read for. */
  function TargetOf(t: Tables, k: ObsKey, externalId: string): PollTarget
    requires k.asset in t.assets && k.market in t.markets
  {
    PollTarget(k.asset, k.market, externalId, t.markets[k.market].platform, t.assets[k.asset].name)
  }

  /** The archived payload was asked for the row's identifier and reads exactly this row for it. */
  predicate Vouches(c: Setting, t: Tables, archive: map<ObjectKey, Envelope>, key: ObjectKey, startedAt: Instant,
                    o: Observation) {
    && QuotesAt(c, archive, key).Some?
    && o.detail.sourceRef in IdsAt(archive, key)
    && Maps(c, t, o.detail.sourceRef, o.key.asset)
    && o.key.market in t.markets && t.markets[o.key.market].game == c.game
    && ReadsAs(c, TargetOf(t, o.key, o.detail.sourceRef), QuotesAt(c, archive, key).value, startedAt, o)
  }

  /** A row's run is on record, and one of the keys recorded for it vouches for the row. */
  ghost predicate Traced(c: Setting, s: State, k: ObsKey, row: ObsRow) {
    && row.run in s.t.runs
    && var r := Behind(s, row.run);
    && r in s.t.runs
    && exists key :: key in s.t.runs[r].priceKeys && key.kind.Prices?
                     && Vouches(c, s.t, s.archive, key, s.t.runs[r].startedAt, Observation(k, row.detail))
  }

  /** As Traced, and the name the payload gave the card, if any, was consistent with the one then held. */
  ghost predicate TracedByName(c: Setting, s: State, k: ObsKey, row: ObsRow) {
    && row.run in s.t.runs
    && var r := Behind(s, row.run);
    && r in s.t.runs
    && exists key :: key in s.t.runs[r].priceKeys && key.kind.Prices?
                     && Vouches(c, s.t, s.archive, key, s.t.runs[r].startedAt, Observation(k, row.detail))
                     && NameHolds(c, TargetOf(s.t, k, row.detail.sourceRef), QuotesAt(c, s.archive, key).value)
  }

  ghost predicate AllTraced(c: Setting, s: State) {
    forall k :: k in s.t.observations ==> Traced(c, s, k, s.t.observations[k])
  }

  // ---------------------------------------------------------------------------
  // What one payload vouches for
  // ---------------------------------------------------------------------------

  lemma TargetVouches(c: Setting, t: Tables, archive: map<ObjectKey, Envelope>, key: ObjectKey, startedAt: Instant,
                      target: PollTarget, o: Observation)
    requires QuotesAt(c, archive, key).Some? && IsResolved(c, t, IdsAt(archive, key), target)
    requires ReadsAs(c, target, QuotesAt(c, archive, key).value, startedAt, o)
    ensures Vouches(c, t, archive, key, startedAt, o)
    ensures target == TargetOf(t, o.key, o.detail.sourceRef)
  {
    var q := LastQuote(QuotesAt(c, archive, key).value, TargetKey(target));
    assert KeyOf(q.value) == TargetKey(target);
  }

  /** What a payload vouches for under current names is what its targets read from it now. */
  lemma VouchedIsRead(c: Setting, t: Tables, archive: map<ObjectKey, Envelope>, key: ObjectKey, startedAt: Instant,
                      listing: seq<PollTarget>)
    requires QuotesAt(c, archive, key).Some? && ListsResolved(c, t, IdsAt(archive, key), listing)
    ensures forall o :: o in Readings(c, listing, QuotesAt(c, archive, key).value, startedAt) <==>
              Vouches(c, t, archive, key, startedAt, o)
              && NameHolds(c, TargetOf(t, o.key, o.detail.sourceRef), QuotesAt(c, archive, key).value)
  {
    var quotes := QuotesAt(c, archive, key).value;
    ReadingsAre(c, listing, quotes, startedAt);
    forall o | o in Readings(c, listing, quotes, startedAt)
      ensures Vouches(c, t, archive, key, startedAt, o) && NameHolds(c, TargetOf(t, o.key, o.detail.sourceRef), quotes)
    {
      var target :| target in listing && ReadsAs(c, target, quotes, startedAt, o) && NameHolds(c, target, quotes);
      TargetVouches(c, t, archive, key, startedAt, target, o);
    }
    forall o | Vouches(c, t, archive, key, startedAt, o) && NameHolds(c, TargetOf(t, o.key, o.detail.sourceRef), quotes)
      ensures o in Readings(c, listing, quotes, startedAt)
    {
      var target := TargetOf(t, o.key, o.detail.sourceRef);
      assert IsResolved(c, t, IdsAt(archive, key), target);
      assert target in listing;
    }
  }

  // ---------------------------------------------------------------------------
  // Old rows stay traced
  // ---------------------------------------------------------------------------

  /** Identities only accumulate. */
  predicate IdentitiesGrow(t: Tables, t': Tables) {
    && t'.markets == t.markets
    && (forall k :: k in t.sourceIds ==> k in t'.sourceIds && t'.sourceIds[k] == t.sourceIds[k])
    && t.assets.Keys <= t'.assets.Keys
  }

  lemma IdentitiesGrowAlways(c: Setting, s: State, a: Action)
    requires Enabled(c, s, a)
    ensures IdentitiesGrow(s.t, Next(c, s, a).t)
  {
    if a.Store? {
      StorePollsFrame(s.t, BatchPolls(c, s, s.process.stage.key, a.targets), a.at, a.now, s.process.run);
    }
  }

  lemma VouchingPersists(c: Setting, t: Tables, t': Tables, archive: map<ObjectKey, Envelope>,
                         archive': map<ObjectKey, Envelope>, key: ObjectKey, startedAt: Instant, o: Observation)
    requires IdentitiesGrow(t, t') && (key in archive ==> key in archive' && archive'[key] == archive[key])
    requires Vouches(c, t, archive, key, startedAt, o)
    ensures Vouches(c, t', archive', key, startedAt, o)
  {
  }

  /** What a run was opened to replace is settled as it opens. */
  predicate ReplacingGrows(s: State, s': State) {
    forall r :: r in s.t.runs ==> Behind(s', r) == Behind(s, r)
  }

  lemma ReplacingGrowsAlways(c: Setting, s: State, a: Action)
    requires Enabled(c, s, a)
    ensures ReplacingGrows(s, Next(c, s, a))
  {
  }

  lemma TracingPersists(c: Setting, s: State, a: Action, k: ObsKey, row: ObsRow)
    requires ProcessKnown(s) && ReplacementsKnown(s) && BatchesInOrder(s) && Enabled(c, s, a)
    requires Traced(c, s, k, row)
    ensures Traced(c, Next(c, s, a), k, row)
  {
    var s' := Next(c, s, a);
    RunsGrowAlways(c, s, a);
    ReplacingGrowsAlways(c, s, a);
    IdentitiesGrowAlways(c, s, a);
    PayloadsArePermanent(c, s, a);
    var r := Behind(s, row.run);
    var key :| key in s.t.runs[r].priceKeys && key.kind.Prices?
               && Vouches(c, s.t, s.archive, key, s.t.runs[r].startedAt, Observation(k, row.detail));
    VouchingPersists(c, s.t, s'.t, s.archive, s'.archive, key, s.t.runs[r].startedAt, Observation(k, row.detail));
  }

  // ---------------------------------------------------------------------------
  // New rows are traced
  // ---------------------------------------------------------------------------

  lemma StoredRowsAreTraced(c: Setting, s: State, targets: seq<PollTarget>, at: Instant, now: Instant, k: ObsKey)
    requires Sound(c, s) && CanStore(c, s, targets, at, now)
    requires k in KeysOf(PricedOf(BatchPolls(c, s, s.process.stage.key, targets)))
    ensures var os := PricedOf(BatchPolls(c, s, s.process.stage.key, targets));
            TracedByName(c, s, k, ObsRow(FirstDetail(os, k), s.process.run, now))
  {
    var key, run := s.process.stage.key, s.t.runs[s.process.run];
    var quotes := QuotesAt(c, s.archive, key).value;
    var os := PricedOf(BatchPolls(c, s, key, targets));
    var o := Observation(k, FirstDetail(os, k));
    ReadingsAre(c, targets, quotes, run.startedAt);
    assert o in Readings(c, targets, quotes, run.startedAt);
    var target :| target in targets && ReadsAs(c, target, quotes, run.startedAt, o) && NameHolds(c, target, quotes);
    assert IsPollTarget(c, s.t, IdsAt(s.archive, key), target);
    assert IsResolved(c, s.t, IdsAt(s.archive, key), target);
    TargetVouches(c, s.t, s.archive, key, run.startedAt, target, o);
    assert key in run.priceKeys;
  }

  predicate ReadFrom(c: Setting, archive: map<ObjectKey, Envelope>, key: ObjectKey, listing: seq<PollTarget>,
                     startedAt: Instant, o: Observation) {
    QuotesAt(c, archive, key).Some? && o in Readings(c, listing, QuotesAt(c, archive, key).value, startedAt)
  }

  /** What a replay writes is what its payloads read, one after another. */
  lemma {:induction false} ReplayReadingsAre(c: Setting, archive: map<ObjectKey, Envelope>, keys: seq<ObjectKey>,
                                             listings: seq<seq<PollTarget>>, startedAt: Instant, o: Observation)
    requires |listings| == |keys|
    ensures o in ReplayReadings(c, archive, keys, listings, startedAt) <==>
              exists i :: 0 <= i < |keys| && ReadFrom(c, archive, keys[i], listings[i], startedAt, o)
  {
    if keys != [] {
      var last := |keys| - 1;
      ReplayReadingsAre(c, archive, keys[..last], listings[..last], startedAt, o);
      assert forall i :: 0 <= i < last ==> keys[..last][i] == keys[i] && listings[..last][i] == listings[i];
      assert o in ReplayReadings(c, archive, keys, listings, startedAt) <==>
          o in ReplayReadings(c, archive, keys[..last], listings[..last], startedAt)
          || ReadFrom(c, archive, keys[last], listings[last], startedAt, o);
    }
  }

  lemma VouchedIsTraced(c: Setting, s: State, k: ObsKey, row: ObsRow, key: ObjectKey)
    requires row.run in s.t.runs && Behind(s, row.run) in s.t.runs
    requires key in s.t.runs[Behind(s, row.run)].priceKeys && key.kind.Prices?
    requires Vouches(c, s.t, s.archive, key, s.t.runs[Behind(s, row.run)].startedAt, Observation(k, row.detail))
    requires NameHolds(c, TargetOf(s.t, k, row.detail.sourceRef), QuotesAt(c, s.archive, key).value)
    ensures TracedByName(c, s, k, row)
  {
  }

  /** Whatever a replay is about to insert, one of the keys it replays vouches for, name included. */
  lemma ReplayedIsVouched(c: Setting, t: Tables, archive: map<ObjectKey, Envelope>, keys: seq<ObjectKey>,
                          listings: seq<seq<PollTarget>>, startedAt: Instant, o: Observation) returns (key: ObjectKey)
    requires ListsEachPayload(c, t, archive, keys, listings)
    requires o in ReplayReadings(c, archive, keys, listings, startedAt)
    ensures key in keys && Vouches(c, t, archive, key, startedAt, o)
    ensures NameHolds(c, TargetOf(t, o.key, o.detail.sourceRef), QuotesAt(c, archive, key).value)
  {
    ReplayReadingsAre(c, archive, keys, listings, startedAt, o);
    var i :| 0 <= i < |keys| && ReadFrom(c, archive, keys[i], listings[i], startedAt, o);
    key := keys[i];
    VouchedIsRead(c, t, archive, key, startedAt, listings[i]);
  }

  lemma SwappedRowsAreTraced(c: Setting, s: State, listings: seq<seq<PollTarget>>, now: Instant, k: ObsKey)
    requires ProcessKnown(s) && KeysArchived(s) && CanSwap(c, s, listings, now)
    requires var original := s.t.runs[s.process.original];
             k in KeysOf(ReplayReadings(c, s.archive, original.priceKeys, listings, original.startedAt))
    ensures var original := s.t.runs[s.process.original];
            var os := ReplayReadings(c, s.archive, original.priceKeys, listings, original.startedAt);
            TracedByName(c, s, k, ObsRow(FirstDetail(os, k), s.process.replacement, now))
  {
    var original := s.t.runs[s.process.original];
    var os := ReplayReadings(c, s.archive, original.priceKeys, listings, original.startedAt);
    var row := ObsRow(FirstDetail(os, k), s.process.replacement, now);
    var key := ReplayedIsVouched(c, s.t, s.archive, original.priceKeys, listings, original.startedAt,
                                 Observation(k, row.detail));
    KeysAreArchived(s, s.process.original, key);
    VouchedIsTraced(c, s, k, row, key);
  }

  // ---------------------------------------------------------------------------
  // Every reachable state
  // ---------------------------------------------------------------------------

  lemma StoreAddsTracedRows(c: Setting, s: State, a: Action, k: ObsKey)
    requires Sound(c, s) && Enabled(c, s, a) && a.Store? && k in Next(c, s, a).t.observations
    requires k in s.t.observations ==> Next(c, s, a).t.observations[k] != s.t.observations[k]
    ensures TracedByName(c, s, k, Next(c, s, a).t.observations[k])
  {
    var polls := BatchPolls(c, s, s.process.stage.key, a.targets);
    StorePollsFrame(s.t, polls, a.at, a.now, s.process.run);
    InsertAllRow(s.t.observations, PricedOf(polls), s.process.run, a.now, k);
    StoredRowsAreTraced(c, s, a.targets, a.at, a.now, k);
  }

  lemma SwapAddsTracedRows(c: Setting, s: State, a: Action, k: ObsKey)
    requires Sound(c, s) && Enabled(c, s, a) && a.Swap? && k in Next(c, s, a).t.observations
    requires k in s.t.observations ==> Next(c, s, a).t.observations[k] != s.t.observations[k]
    ensures TracedByName(c, s, k, Next(c, s, a).t.observations[k])
  {
    var original := s.t.runs[s.process.original];
    var os := ReplayReadings(c, s.archive, original.priceKeys, a.listings, original.startedAt);
    InsertAllRow(WithoutRun(s.t.observations, s.process.original), os, s.process.replacement, a.now, k);
    SwappedRowsAreTraced(c, s, a.listings, a.now, k);
  }

  lemma OthersLeaveObservations(c: Setting, s: State, a: Action)
    requires Enabled(c, s, a) && !a.Store? && !a.Swap?
    ensures Next(c, s, a).t.observations == s.t.observations
  {
  }

  /** An action adds or rewrites a row only as the reading of an archived payload, names included. */
  lemma NewRowsAreTraced(c: Setting, s: State, a: Action, k: ObsKey)
    requires Sound(c, s) && Enabled(c, s, a) && k in Next(c, s, a).t.observations
    requires k in s.t.observations ==> Next(c, s, a).t.observations[k] != s.t.observations[k]
    ensures TracedByName(c, s, k, Next(c, s, a).t.observations[k])
  {
    hide Sound, Enabled, Next, TracedByName;
    if a.Store? {
      StoreAddsTracedRows(c, s, a, k);
    } else if a.Swap? {
      SwapAddsTracedRows(c, s, a, k);
    } else {
      OthersLeaveObservations(c, s, a);
    }
  }

  lemma AllTracedKept(c: Setting, s: State, a: Action)
    requires Sound(c, s) && AllTraced(c, s) && Enabled(c, s, a)
    ensures AllTraced(c, Next(c, s, a))
  {
    var s' := Next(c, s, a);
    forall k | k in s'.t.observations
      ensures Traced(c, s', k, s'.t.observations[k])
    {
      if k in s.t.observations && s'.t.observations[k] == s.t.observations[k] {
        assert Traced(c, s, k, s.t.observations[k]);
      } else {
        NewRowsAreTraced(c, s, a, k);
      }
      TracingPersists(c, s, a, k, s'.t.observations[k]);
    }
  }

  lemma {:induction false} AllTracedAlways(c: Setting, s: State, actions: seq<Action>)
    requires Sound(c, s) && AllTraced(c, s) && Legal(c, s, actions)
    ensures AllTraced(c, After(c, s, actions))
  {
    if actions != [] {
      var before := actions[..|actions| - 1];
      AllTracedAlways(c, s, before);
      SoundAlways(c, s, before);
      AllTracedKept(c, After(c, s, before), actions[|actions| - 1]);
    }
  }

  lemma ReachableIsSound(c: Setting, s: State)
    requires Reachable(c, s)
    ensures Sound(c, s) && AllTraced(c, s)
  {
    var start, actions :| Fresh(start) && Legal(c, start, actions) && s == After(c, start, actions);
    SoundAlways(c, start, actions);
    AllTracedAlways(c, start, actions);
  }

  // ---------------------------------------------------------------------------
  // Column by column
  // ---------------------------------------------------------------------------

  /** An archived payload of prices was asked for the quote's identifier, and says nothing later of it and its platform. */
  ghost predicate LastSaid(c: Setting, archive: map<ObjectKey, Envelope>, key: ObjectKey, q: Quote) {
    && key.kind.Prices? && key in archive && c.parse(archive[key]).Some? && q.externalId in archive[key].requestedIds
    && var quotes := c.parse(archive[key]).value;
    && exists i :: 0 <= i < |quotes| && quotes[i] == q
                   && forall j :: i < j < |quotes| ==>
                        quotes[j].externalId != q.externalId || quotes[j].platform != q.platform
  }

  /** The quote is of a pair's card, on the platform of the pair's market. */
  predicate IsOfPair(c: Setting, t: Tables, q: Quote, p: Pair) {
    && var k := SourceKey(c.game, c.source, q.externalId);
    && k in t.sourceIds && t.sourceIds[k] == p.asset && p.asset in t.assets
    && p.market in t.markets && t.markets[p.market].game == c.game && t.markets[p.market].platform == q.platform
  }

  /** Every column of a vouched row is the quote's. */
  lemma VouchedSaysItsQuote(c: Setting, t: Tables, archive: map<ObjectKey, Envelope>, key: ObjectKey, startedAt: Instant,
                            o: Observation) returns (q: Quote)
    requires Vouches(c, t, archive, key, startedAt, o) && key.kind.Prices?
    ensures LastSaid(c, archive, key, q) && IsOfPair(c, t, q, Pair(o.key.asset, o.key.market)) && o.key.source == c.source
    ensures q.price == Some(o.key.price) && q.observedAt == Some(o.key.observedAt)
    ensures o.detail == Detail(q.minPrice, q.maxPrice, q.externalId)
    ensures o.key.price > 0 && c.releasedAt <= o.key.observedAt <= startedAt + 300_000_000
    ensures NameHolds(c, TargetOf(t, o.key, o.detail.sourceRef), QuotesAt(c, archive, key).value) ==>
              q.name.Some? && c.fold(t.assets[o.key.asset].name) != "" ==>
                c.fold(q.name.value) == c.fold(t.assets[o.key.asset].name)
  {
    var target, quotes := TargetOf(t, o.key, o.detail.sourceRef), QuotesAt(c, archive, key).value;
    q := LastQuote(quotes, TargetKey(target)).value;
  }

  /**
   * Every stored price, at every crash point, is what a payload in the archive says last
   * of its card on its platform: price, instant, bounds and identifier are the quote's,
   * the price is positive, and the instant is no earlier than the game's release and no
   * later than five minutes past the start of the row's run.
   */
  lemma StoredRowIsItsQuote(c: Setting, s: State, k: ObsKey) returns (key: ObjectKey, q: Quote)
    requires Reachable(c, s) && k in s.t.observations
    ensures LastSaid(c, s.archive, key, q) && IsOfPair(c, s.t, q, Pair(k.asset, k.market)) && k.source == c.source
    ensures q.price == Some(k.price) && q.observedAt == Some(k.observedAt)
    ensures var d := s.t.observations[k].detail;
            d.minPrice == q.minPrice && d.maxPrice == q.maxPrice && d.sourceRef == q.externalId
    ensures k.price > 0 && s.t.observations[k].run in s.t.runs
    ensures c.releasedAt <= k.observedAt <= s.t.runs[s.t.observations[k].run].startedAt + 300_000_000
  {
    ReachableIsSound(c, s);
    var row := s.t.observations[k];
    key, q := TracedSaysItsQuote(c, s, k, row);
  }

  lemma TracedSaysItsQuote(c: Setting, s: State, k: ObsKey, row: ObsRow) returns (key: ObjectKey, q: Quote)
    requires ReplacementsKnown(s) && Traced(c, s, k, row)
    ensures LastSaid(c, s.archive, key, q) && IsOfPair(c, s.t, q, Pair(k.asset, k.market)) && k.source == c.source
    ensures q.price == Some(k.price) && q.observedAt == Some(k.observedAt)
    ensures row.detail == Detail(q.minPrice, q.maxPrice, q.externalId)
    ensures k.price > 0 && row.run in s.t.runs
    ensures c.releasedAt <= k.observedAt <= s.t.runs[row.run].startedAt + 300_000_000
  {
    hide Vouches, LastSaid, IsOfPair;
    var r := Behind(s, row.run);
    key :| key in s.t.runs[r].priceKeys && key.kind.Prices?
           && Vouches(c, s.t, s.archive, key, s.t.runs[r].startedAt, Observation(k, row.detail));
    q := VouchedSaysItsQuote(c, s.t, s.archive, key, s.t.runs[r].startedAt, Observation(k, row.detail));
  }

  /** The same of every row an action adds or rewrites, at ingest and at replay alike; and the quote names the card as we do. */
  lemma NewRowIsItsQuote(c: Setting, s: State, a: Action, k: ObsKey) returns (key: ObjectKey, q: Quote)
    requires Sound(c, s) && Enabled(c, s, a) && k in Next(c, s, a).t.observations
    requires k in s.t.observations ==> Next(c, s, a).t.observations[k] != s.t.observations[k]
    ensures LastSaid(c, s.archive, key, q) && IsOfPair(c, s.t, q, Pair(k.asset, k.market)) && k.source == c.source
    ensures q.price == Some(k.price) && q.observedAt == Some(k.observedAt)
    ensures var d := Next(c, s, a).t.observations[k].detail;
            d.minPrice == q.minPrice && d.maxPrice == q.maxPrice && d.sourceRef == q.externalId
    ensures q.name.Some? && c.fold(s.t.assets[k.asset].name) != "" ==>
              c.fold(q.name.value) == c.fold(s.t.assets[k.asset].name)
  {
    hide ReadsAs, LastSaid, NameHolds, Next, Sound, Enabled;
    NewRowsAreTraced(c, s, a, k);
    var row := Next(c, s, a).t.observations[k];
    var r := Behind(s, row.run);
    key :| key in s.t.runs[r].priceKeys && key.kind.Prices?
           && Vouches(c, s.t, s.archive, key, s.t.runs[r].startedAt, Observation(k, row.detail))
           && NameHolds(c, TargetOf(s.t, k, row.detail.sourceRef), QuotesAt(c, s.archive, key).value);
    q := VouchedSaysItsQuote(c, s.t, s.archive, key, s.t.runs[r].startedAt, Observation(k, row.detail));
  }

  /** A payload recorded on the row's own run, validated at that run's own start, reads exactly this row. */
  ghost predicate OwnKeyVouches(c: Setting, s: State, k: ObsKey, row: ObsRow, key: ObjectKey) {
    && row.run in s.t.runs && key in s.t.runs[row.run].priceKeys && key in s.archive
    && Vouches(c, s.t, s.archive, key, s.t.runs[row.run].startedAt, Observation(k, row.detail))
  }

  lemma LaterStartVouches(c: Setting, t: Tables, archive: map<ObjectKey, Envelope>, key: ObjectKey, early: Instant,
                          late: Instant, o: Observation)
    requires early <= late && Vouches(c, t, archive, key, early, o)
    ensures Vouches(c, t, archive, key, late, o)
  {
  }

  /** A row whose run has recorded keys is the reading of one of them: a replacement's are those it read again. */
  lemma OwnKeyOf(c: Setting, s: State, k: ObsKey) returns (key: ObjectKey)
    requires Sound(c, s) && AllTraced(c, s) && k in s.t.observations
    requires s.t.observations[k].run in s.t.runs && s.t.runs[s.t.observations[k].run].priceKeys != []
    ensures OwnKeyVouches(c, s, k, s.t.observations[k], key)
    ensures s.t.observations[k].run !in s.replacing ==> key.run == s.t.observations[k].run
  {
    var row := s.t.observations[k];
    assert Traced(c, s, k, row);
    var r := Behind(s, row.run);
    key :| key in s.t.runs[r].priceKeys && key.kind.Prices?
           && Vouches(c, s.t, s.archive, key, s.t.runs[r].startedAt, Observation(k, row.detail));
    LaterStartVouches(c, s.t, s.archive, key, s.t.runs[r].startedAt, s.t.runs[row.run].startedAt,
                      Observation(k, row.detail));
  }

  /** A run opened to replace another that has not closed: its keys are recorded as it closes. */
  predicate Unclosed(s: State, run: RunId) { run in s.replacing && run in s.t.runs && s.t.runs[run].priceKeys == [] }

  /**
   * Wherever a process was killed: a stored row is the reading of an archived payload
   * recorded on its own run at that run's own start, and for a row of an ingest run one
   * the run itself archived, exactly unless its run is a replacement that has not closed.
   * Then it is the reading of a payload of the run being replaced.
   */
  lemma ProvenanceAtEveryCrashPoint(c: Setting, s: State, k: ObsKey)
    requires Reachable(c, s) && k in s.t.observations
    ensures var row := s.t.observations[k];
            && row.run in s.t.runs
            && ((exists key :: OwnKeyVouches(c, s, k, row, key) && (row.run !in s.replacing ==> key.run == row.run))
                <==> !Unclosed(s, row.run))
    ensures var row := s.t.observations[k];
            Unclosed(s, row.run) ==>
              && var original := s.replacing[row.run];
              && original in s.t.runs
              && exists key :: key in s.t.runs[original].priceKeys && key in s.archive
                               && Vouches(c, s.t, s.archive, key, s.t.runs[original].startedAt, Observation(k, row.detail))
  {
    ReachableIsSound(c, s);
    var row := s.t.observations[k];
    assert Traced(c, s, k, row);
    var r := Behind(s, row.run);
    var key :| key in s.t.runs[r].priceKeys && key.kind.Prices?
               && Vouches(c, s.t, s.archive, key, s.t.runs[r].startedAt, Observation(k, row.detail));
    assert key in s.archive;
    if !Unclosed(s, row.run) {
      var own := OwnKeyOf(c, s, k);
    }
  }

  lemma KeysAreArchived(s: State, r: RunId, key: ObjectKey)
    requires KeysArchived(s) && r in s.t.runs && key in s.t.runs[r].priceKeys
    ensures key in s.archive && key.kind.Prices?
  {
  }

  /** Every recorded price key names a payload the archive holds. */
  lemma RecordedKeysAreArchived(c: Setting, s: State, r: RunId, key: ObjectKey)
    requires Reachable(c, s) && r in s.t.runs && key in s.t.runs[r].priceKeys
    ensures key in s.archive && key.kind.Prices?
  {
    ReachableIsSound(c, s);
    KeysAreArchived(s, r, key);
  }

  /** From any reachable state, whatever happens next, the payloads of prices stay as they were stored. */
  lemma {:induction false} PayloadsSurviveEveryRun(c: Setting, s: State, actions: seq<Action>, key: ObjectKey)
    requires Sound(c, s) && Legal(c, s, actions) && key in s.archive && key.kind.Prices?
    ensures var s' := After(c, s, actions); key in s'.archive && s'.archive[key] == s.archive[key]
  {
    if actions != [] {
      var before := actions[..|actions| - 1];
      PayloadsSurviveEveryRun(c, s, before, key);
      SoundAlways(c, s, before);
      PayloadsArePermanent(c, After(c, s, before), actions[|actions| - 1]);
    }
  }
}
