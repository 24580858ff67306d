/** Replay after any later ingest: nothing stored under a name is lost, and nothing stored in full is added to. */
module ReplayFidelity {
  import opened Domain
  import opened ObjectKeys
  import opened Ledger
  import opened Reading
  import opened Machine
  import opened Bookkeeping
  import opened Provenance
  import opened Identity
  import opened ReplayTheory

  // ---------------------------------------------------------------------------
  // Rows stored under a name
  // ---------------------------------------------------------------------------

  /** A reading that held against a card's name holds against every later name of it. */
  lemma NamedReadingsHold(c: Setting, s: State, actions: seq<Action>, key: ObjectKey, startedAt: Instant, o: Observation)
    requires Sound(c, s) && Legal(c, s, actions) && key.kind.Prices? && key in s.archive
    requires Vouches(c, s.t, s.archive, key, startedAt, o) && FoldedName(c, s.t, o.key.asset) != ""
    requires NameHolds(c, TargetOf(s.t, o.key, o.detail.sourceRef), QuotesAt(c, s.archive, key).value)
    ensures var s' := After(c, s, actions);
            && Vouches(c, s'.t, s'.archive, key, startedAt, o)
            && NameHolds(c, TargetOf(s'.t, o.key, o.detail.sourceRef), QuotesAt(c, s'.archive, key).value)
  {
    IdentityAnchor(c, s, actions);
    PayloadsSurviveEveryRun(c, s, actions, key);
    IdentitiesGrowThrough(c, s, actions);
    VouchingPersists(c, s.t, After(c, s, actions).t, s.archive, After(c, s, actions).archive, key, startedAt, o);
  }

  lemma {:induction false} IdentitiesGrowThrough(c: Setting, s: State, actions: seq<Action>)
    requires Legal(c, s, actions)
    ensures IdentitiesGrow(s.t, After(c, s, actions).t)
  {
    if actions != [] {
      IdentitiesGrowThrough(c, s, actions[..|actions| - 1]);
      IdentitiesGrowAlways(c, After(c, s, actions[..|actions| - 1]), actions[|actions| - 1]);
    }
  }

  /** A run's payload that held for a row once is the only one that can speak for it, so the row's name holds. */
  lemma NameStillHoldsIf(c: Setting, s: State, k: ObsKey, key: ObjectKey, startedAt: Instant)
    requires Sound(c, s) && s.process.Replaying? && k in s.t.observations
    requires key in OriginalRun(s).priceKeys && startedAt <= OriginalRun(s).startedAt
    requires var o := Observation(k, s.t.observations[k].detail);
             && Vouches(c, s.t, s.archive, key, startedAt, o)
             && NameHolds(c, TargetOf(s.t, k, o.detail.sourceRef), QuotesAt(c, s.archive, key).value)
    ensures NameStillHolds(c, s, k)
  {
    var o := Observation(k, s.t.observations[k].detail);
    LaterStartVouches(c, s.t, s.archive, key, startedAt, OriginalRun(s).startedAt, o);
    forall other | other in OriginalRun(s).priceKeys
                   && Vouches(c, s.t, s.archive, other, OriginalRun(s).startedAt, o)
      ensures NameHolds(c, TargetOf(s.t, k, o.detail.sourceRef), QuotesAt(c, s.archive, other).value)
    {
      OnePayloadPerRow(c, s, s.process.original, OriginalRun(s).startedAt, key, other, o, o);
    }
  }

  /**
   * A row stored for a card that had a name then comes back from every replay of
   * its run, whatever was ingested, discovered, described or replayed in between.
   */
  lemma StoredUnderANameSurvives(c: Setting, s: State, store: Action, actions: seq<Action>, k: ObsKey,
                                 listings: seq<seq<PollTarget>>)
    requires Sound(c, s) && store.Store? && Enabled(c, s, store)
    requires k in Next(c, s, store).t.observations && k !in s.t.observations
    requires k.asset in s.t.assets && FoldedName(c, s.t, k.asset) != ""
    requires Legal(c, Next(c, s, store), actions)
    requires var s' := After(c, Next(c, s, store), actions);
             && BeforeSwap(c, s', listings) && k in s'.t.observations
             && s'.t.observations[k] == Next(c, s, store).t.observations[k]
             && s'.process.original == s'.t.observations[k].run
    ensures var s' := After(c, Next(c, s, store), actions);
            && k in KeysOf(Rewrite(c, s', listings))
            && FirstDetail(Rewrite(c, s', listings), k) == s'.t.observations[k].detail
  {
    var stored := Next(c, s, store);
    var key := StoredRowIsTracedAfter(c, s, store, k);
    StoreChangesRowsAlone(c, s, store);
    SoundKept(c, s, store);
    KeyedRowSurvives(c, stored, actions, k, key, listings);
  }

  /** A row keyed under a name is in the rewrite of every replay of its run, with the columns it has. */
  lemma KeyedRowSurvives(c: Setting, s: State, actions: seq<Action>, k: ObsKey, key: ObjectKey, listings: seq<seq<PollTarget>>)
    requires Sound(c, s) && Legal(c, s, actions) && k in s.t.observations
    requires KeyedByName(c, s, k, s.t.observations[k], key) && FoldedName(c, s.t, k.asset) != ""
    requires var s' := After(c, s, actions);
             && BeforeSwap(c, s', listings) && k in s'.t.observations && s'.t.observations[k] == s.t.observations[k]
             && s'.process.original == s'.t.observations[k].run
    ensures var s' := After(c, s, actions);
            && k in KeysOf(Rewrite(c, s', listings))
            && FirstDetail(Rewrite(c, s', listings), k) == s'.t.observations[k].detail
  {
    var s', row := After(c, s, actions), s.t.observations[k];
    NamedReadingsHold(c, s, actions, key, s.t.runs[row.run].startedAt, Observation(k, row.detail));
    RunsGrowThrough(c, s, actions);
    NameStillHoldsIf(c, s', k, key, s.t.runs[row.run].startedAt);
    OwnedRowSurvivesIff(c, s', listings, k);
  }

  lemma StoreChangesRowsAlone(c: Setting, s: State, store: Action)
    requires store.Store? && Enabled(c, s, store)
    ensures var s' := Next(c, s, store);
            && s'.archive == s.archive
            && s'.t == s.t.(observations := s'.t.observations, polls := s'.t.polls, schedule := s'.t.schedule)
  {
    var polls := BatchPolls(c, s, s.process.stage.key, store.targets);
    StorePollsFrame(s.t, polls, store.at, store.now, s.process.run);
  }

  /** A key of the row's own run vouches for the row, name included. */
  ghost predicate KeyedByName(c: Setting, s: State, k: ObsKey, row: ObsRow, key: ObjectKey) {
    && row.run in s.t.runs && key in s.t.runs[row.run].priceKeys && key.kind.Prices? && key in s.archive
    && Vouches(c, s.t, s.archive, key, s.t.runs[row.run].startedAt, Observation(k, row.detail))
    && NameHolds(c, TargetOf(s.t, k, row.detail.sourceRef), QuotesAt(c, s.archive, key).value)
  }

  lemma KeyStillNames(c: Setting, s: State, s': State, k: ObsKey, row: ObsRow, key: ObjectKey)
    requires KeyedByName(c, s, k, row, key) && s'.archive == s.archive
    requires s'.t == s.t.(observations := s'.t.observations, polls := s'.t.polls, schedule := s'.t.schedule)
    ensures KeyedByName(c, s', k, row, key)
  {
  }

  lemma StoredByTheRun(c: Setting, s: State, store: Action, k: ObsKey)
    requires store.Store? && Enabled(c, s, store)
    requires k in Next(c, s, store).t.observations && k !in s.t.observations
    ensures Next(c, s, store).t.observations[k].run == s.process.run
  {
    var polls := BatchPolls(c, s, s.process.stage.key, store.targets);
    StorePollsFrame(s.t, polls, store.at, store.now, s.process.run);
    InsertAllRow(s.t.observations, PricedOf(polls), s.process.run, store.now, k);
  }

  lemma StoredRowIsTracedAfter(c: Setting, s: State, store: Action, k: ObsKey) returns (key: ObjectKey)
    requires Sound(c, s) && store.Store? && Enabled(c, s, store)
    requires k in Next(c, s, store).t.observations && k !in s.t.observations
    ensures KeyedByName(c, Next(c, s, store), k, Next(c, s, store).t.observations[k], key)
  {
    var s' := Next(c, s, store);
    var row := s'.t.observations[k];
    NewRowsAreTraced(c, s, store, k);
    StoredByTheRun(c, s, store, k);
    key :| key in s.t.runs[row.run].priceKeys && key.kind.Prices?
           && Vouches(c, s.t, s.archive, key, s.t.runs[row.run].startedAt, Observation(k, row.detail))
           && NameHolds(c, TargetOf(s.t, k, row.detail.sourceRef), QuotesAt(c, s.archive, key).value);
    assert KeyedByName(c, s, k, row, key);
    StoreChangesRowsAlone(c, s, store);
    KeyStillNames(c, s, s', k, row, key);
  }

  // ---------------------------------------------------------------------------
  // The names are as they were
  // ---------------------------------------------------------------------------

  /** A card on record at both ends, under names that fold alike. */
  ghost predicate SameName(c: Setting, s: State, s': State, a: AssetId) {
    a in s.t.assets && a in s'.t.assets && FoldedName(c, s'.t, a) == FoldedName(c, s.t, a)
  }

  /** A name that is back where it was never moved in between. */
  lemma SameNameBetween(c: Setting, s: State, before: seq<Action>, last: Action, a: AssetId)
    requires Legal(c, s, before) && Enabled(c, After(c, s, before), last)
    requires SameName(c, s, Next(c, After(c, s, before), last), a)
    ensures SameName(c, s, After(c, s, before), a)
    ensures SameName(c, After(c, s, before), Next(c, After(c, s, before), last), a)
  {
    hide Enabled, Next, Legal, After;
    IdentityAnchor(c, s, before);
    AnchoredByOneAction(c, After(c, s, before), last);
  }

  lemma TracedByNamePersists(c: Setting, s: State, a: Action, k: ObsKey, row: ObsRow)
    requires Sound(c, s) && Enabled(c, s, a) && TracedByName(c, s, k, row) && SameName(c, s, Next(c, s, a), k.asset)
    ensures TracedByName(c, Next(c, s, a), k, row)
  {
    hide Enabled, Next;
    var s' := Next(c, s, a);
    RunsGrowAlways(c, s, a);
    ReplacingGrowsAlways(c, s, a);
    IdentitiesGrowAlways(c, s, a);
    PayloadsArePermanent(c, s, a);
    var r := Behind(s, row.run);
    var key :| key in s.t.runs[r].priceKeys && key.kind.Prices?
               && Vouches(c, s.t, s.archive, key, s.t.runs[r].startedAt, Observation(k, row.detail))
               && NameHolds(c, TargetOf(s.t, k, row.detail.sourceRef), QuotesAt(c, s.archive, key).value);
    VouchingPersists(c, s.t, s'.t, s.archive, s'.archive, key, s.t.runs[r].startedAt, Observation(k, row.detail));
    KeysAreArchived(s, r, key);
    VouchedIsTraced(c, s', k, row, key);
  }

  /** A row written since a state, for a card whose folded name is now as it was then, was read under that name. */
  lemma {:induction false} WrittenUnderItsName(c: Setting, s: State, actions: seq<Action>, k: ObsKey)
    requires Sound(c, s) && Legal(c, s, actions) && k in After(c, s, actions).t.observations
    requires k in s.t.observations ==> s.t.observations[k] != After(c, s, actions).t.observations[k]
    requires SameName(c, s, After(c, s, actions), k.asset)
    ensures TracedByName(c, After(c, s, actions), k, After(c, s, actions).t.observations[k])
  {
    hide Sound, Enabled, Next, TracedByName, SameName;
    if actions != [] {
      var before, last := actions[..|actions| - 1], actions[|actions| - 1];
      var mid := After(c, s, before);
      var row := After(c, s, actions).t.observations[k];
      SoundAlways(c, s, before);
      SameNameBetween(c, s, before, last, k.asset);
      if k in mid.t.observations && mid.t.observations[k] == row {
        WrittenUnderItsName(c, s, before, k);
      } else {
        NewRowsAreTraced(c, mid, last, k);
      }
      TracedByNamePersists(c, mid, last, k, row);
    }
  }

  lemma TracedByNameHolds(c: Setting, s: State, k: ObsKey)
    requires Sound(c, s) && s.process.Replaying? && s.process.original in s.t.runs
    requires k in OwnedBy(s.t.observations, s.process.original) && OriginalRun(s).priceKeys != []
    requires TracedByName(c, s, k, s.t.observations[k])
    ensures NameStillHolds(c, s, k)
  {
    var row := s.t.observations[k];
    var r := Behind(s, row.run);
    var key :| key in s.t.runs[r].priceKeys && key.kind.Prices?
               && Vouches(c, s.t, s.archive, key, s.t.runs[r].startedAt, Observation(k, row.detail))
               && NameHolds(c, TargetOf(s.t, k, row.detail.sourceRef), QuotesAt(c, s.archive, key).value);
    NameStillHoldsIf(c, s, k, key, s.t.runs[r].startedAt);
  }

  /** Every row the replay is about to delete was written since a state, for a card whose folded name is as it was then. */
  ghost predicate NamesAsWritten(c: Setting, s: State, s': State) {
    s'.process.Replaying? ==>
      forall k :: k in OwnedBy(s'.t.observations, s'.process.original) ==>
        (k in s.t.observations ==> s.t.observations[k] != s'.t.observations[k]) && SameName(c, s, s', k.asset)
  }

  /**
   * Whatever was ingested, discovered, described or replayed in between: when the cards
   * of a run's rows have the folded names they had before the rows were written, a replay
   * of the run keeps every key, writes at least what it deletes and is never refused.
   */
  lemma ReplayLosesNothingUnderTheSameNames(c: Setting, s: State, actions: seq<Action>, listings: seq<seq<PollTarget>>,
                                            now: Instant)
    requires Sound(c, s) && Legal(c, s, actions)
    requires BeforeSwap(c, After(c, s, actions), listings) && NamesAsWritten(c, s, After(c, s, actions))
    ensures var s' := After(c, s, actions);
            && NamesStillHold(c, s')
            && var os, table := Rewrite(c, s', listings), s'.t.observations;
            && Swapped(table, s'.process.original, s'.process.replacement, os, now).Keys == table.Keys + KeysOf(os)
            && DeletedCount(table, s'.process.original)
               <= WrittenCount(table, s'.process.original, s'.process.replacement, os, now)
            && !Refused(table, s'.process.original, s'.process.replacement, os, now)
  {
    hide Sound, Legal, After, TracedByName, SameName, Swapped, Rewrite, NameStillHolds;
    var s' := After(c, s, actions);
    assert s'.process.original in s'.t.runs by {
      SoundReplay(c, s');
    }
    forall k | k in OwnedBy(s'.t.observations, s'.process.original)
      ensures NameStillHolds(c, s', k)
    {
      WrittenUnderItsName(c, s, actions, k);
      TracedByNameHolds(c, s', k);
    }
    ReplayLosesNothing(c, s', listings, now);
  }

  lemma SoundReplay(c: Setting, s: State)
    requires Sound(c, s) && s.process.Replaying?
    ensures s.process.original in s.t.runs
  {
  }

  // ---------------------------------------------------------------------------
  // Payloads stored in full
  // ---------------------------------------------------------------------------

  /** Every identifier the payload was asked for is mapped, and everything it reads now is stored. */
  ghost predicate StoredInFull(c: Setting, s: State, key: ObjectKey, startedAt: Instant) {
    && (forall id :: id in IdsAt(s.archive, key) ==> SourceKey(c.game, c.source, id) in s.t.sourceIds)
    && forall o :: Vouches(c, s.t, s.archive, key, startedAt, o)
                   && NameHolds(c, TargetOf(s.t, o.key, o.detail.sourceRef), QuotesAt(c, s.archive, key).value) ==>
         o.key in s.t.observations
  }

  lemma ReadingIsPriced(c: Setting, s: State, targets: seq<PollTarget>, key: ObjectKey, o: Observation)
    requires s.process.Ingesting? && s.process.run in s.t.runs && QuotesAt(c, s.archive, key).Some?
    requires ListsPollTargets(c, s.t, IdsAt(s.archive, key), targets)
    requires Vouches(c, s.t, s.archive, key, s.t.runs[s.process.run].startedAt, o)
    requires NameHolds(c, TargetOf(s.t, o.key, o.detail.sourceRef), QuotesAt(c, s.archive, key).value)
    requires IsPollTarget(c, s.t, IdsAt(s.archive, key), TargetOf(s.t, o.key, o.detail.sourceRef))
    ensures o in PricedOf(BatchPolls(c, s, key, targets))
  {
    var quotes, startedAt := QuotesAt(c, s.archive, key).value, s.t.runs[s.process.run].startedAt;
    var target := TargetOf(s.t, o.key, o.detail.sourceRef);
    assert target in targets && ReadsAs(c, target, quotes, startedAt, o) && NameHolds(c, target, quotes);
    ReadingsAre(c, targets, quotes, startedAt);
    assert o in Readings(c, targets, quotes, startedAt);
  }

  /** Storing a batch whose every resolved target is scheduled stores its payload in full. */
  lemma StoringInFull(c: Setting, s: State, targets: seq<PollTarget>, at: Instant, now: Instant)
    requires Sound(c, s) && CanStore(c, s, targets, at, now)
    requires forall id :: id in IdsAt(s.archive, s.process.stage.key) ==> SourceKey(c.game, c.source, id) in s.t.sourceIds
    requires forall x :: IsResolved(c, s.t, IdsAt(s.archive, s.process.stage.key), x) ==>
               IsPollTarget(c, s.t, IdsAt(s.archive, s.process.stage.key), x)
    ensures StoredInFull(c, Next(c, s, Store(targets, at, now)), s.process.stage.key, s.t.runs[s.process.run].startedAt)
  {
    var key, startedAt := s.process.stage.key, s.t.runs[s.process.run].startedAt;
    var polls := BatchPolls(c, s, key, targets);
    var s' := Next(c, s, Store(targets, at, now));
    StorePollsFrame(s.t, polls, at, now, s.process.run);
    InsertAllKeys(s.t.observations, PricedOf(polls), s.process.run, now);
    KeysOfMembers(PricedOf(polls));
    assert s'.archive == s.archive && s'.t.observations == InsertAll(s.t.observations, PricedOf(polls), s.process.run, now);
    assert IdentitiesGrow(s'.t, s.t) && s'.t.assets == s.t.assets;
    forall o | Vouches(c, s'.t, s'.archive, key, startedAt, o)
               && NameHolds(c, TargetOf(s'.t, o.key, o.detail.sourceRef), QuotesAt(c, s'.archive, key).value)
      ensures o.key in s'.t.observations
    {
      VouchingPersists(c, s'.t, s.t, s'.archive, s.archive, key, startedAt, o);
      assert IsResolved(c, s.t, IdsAt(s.archive, key), TargetOf(s.t, o.key, o.detail.sourceRef));
      ReadingIsPriced(c, s, targets, key, o);
    }
  }

  lemma StillInFull(c: Setting, s: State, a: Action, key: ObjectKey, startedAt: Instant)
    requires Sound(c, s) && Enabled(c, s, a) && !a.Swap? && key in s.archive && key.kind.Prices?
    requires StoredInFull(c, s, key, startedAt)
    ensures StoredInFull(c, Next(c, s, a), key, startedAt)
  {
    var s' := Next(c, s, a);
    IdentitiesGrowAlways(c, s, a);
    AnchoredByOneAction(c, s, a);
    PayloadsArePermanent(c, s, a);
    KeysOnlyGrow(c, s, a);
    forall o | Vouches(c, s'.t, s'.archive, key, startedAt, o)
               && NameHolds(c, TargetOf(s'.t, o.key, o.detail.sourceRef), QuotesAt(c, s'.archive, key).value)
      ensures o.key in s'.t.observations
    {
      assert SourceKey(c.game, c.source, o.detail.sourceRef) in s.t.sourceIds;
      assert Vouches(c, s.t, s.archive, key, startedAt, o);
      assert NameHolds(c, TargetOf(s.t, o.key, o.detail.sourceRef), QuotesAt(c, s.archive, key).value);
    }
  }

  lemma KeysOnlyGrow(c: Setting, s: State, a: Action)
    requires Enabled(c, s, a) && !a.Swap?
    ensures s.t.observations.Keys <= Next(c, s, a).t.observations.Keys
  {
    if a.Store? {
      var polls := BatchPolls(c, s, s.process.stage.key, a.targets);
      StorePollsFrame(s.t, polls, a.at, a.now, s.process.run);
      InsertAllKeys(s.t.observations, PricedOf(polls), s.process.run, a.now);
    }
  }

  lemma {:induction false} InFullThrough(c: Setting, s: State, actions: seq<Action>, key: ObjectKey, startedAt: Instant)
    requires Sound(c, s) && Legal(c, s, actions) && (forall a :: a in actions ==> !a.Swap?)
    requires key in s.archive && key.kind.Prices? && StoredInFull(c, s, key, startedAt)
    ensures StoredInFull(c, After(c, s, actions), key, startedAt)
  {
    if actions != [] {
      var before := actions[..|actions| - 1];
      InFullThrough(c, s, before, key, startedAt);
      SoundAlways(c, s, before);
      PayloadsSurviveEveryRun(c, s, before, key);
      StillInFull(c, After(c, s, before), actions[|actions| - 1], key, startedAt);
    }
  }

  /**
   * When every payload of a run was stored in full, replaying the run after any
   * number of later ingest runs leaves the key set exactly as it was.
   */
  lemma ReplayOfAFullRunKeepsTheKeySet(c: Setting, s: State, actions: seq<Action>, r: RunId,
                                       listings: seq<seq<PollTarget>>, now: Instant)
    requires Sound(c, s) && r in s.t.runs && Legal(c, s, actions) && (forall a :: a in actions ==> !a.Swap?)
    requires forall key :: key in s.t.runs[r].priceKeys ==> StoredInFull(c, s, key, s.t.runs[r].startedAt)
    requires var s' := After(c, s, actions);
             && BeforeSwap(c, s', listings) && s'.process.original == r && NamesStillHold(c, s')
             && s'.t.runs[r].priceKeys == s.t.runs[r].priceKeys
    ensures var s' := After(c, s, actions);
            Swapped(s'.t.observations, r, s'.process.replacement, Rewrite(c, s', listings), now).Keys
            == s'.t.observations.Keys
  {
    hide Vouches, NameHolds, Legal, After, NamesStillHold;
    var s' := After(c, s, actions);
    RunsGrowThrough(c, s, actions);
    forall key, o | ReadNow(c, s', key, o)
      ensures o.key in s'.t.observations
    {
      InFullThrough(c, s, actions, key, s.t.runs[r].startedAt);
    }
    KeySetUnchangedIff(c, s', listings, now);
  }
}
