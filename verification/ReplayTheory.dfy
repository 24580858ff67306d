/** What replaying a run does to the ledger. */
module ReplayTheory {
  import opened Domain
  import opened ObjectKeys
  import opened Ledger
  import opened Sets
  import opened Reading
  import opened Machine
  import opened Bookkeeping
  import opened Provenance

  /** A replay has parsed every payload of its original and stands before the swap. */
  ghost predicate BeforeSwap(c: Setting, s: State, listings: seq<seq<PollTarget>>) {
    && Sound(c, s) && AllTraced(c, s)
    && s.process.Replaying? && !s.process.swapped
    && ListsEachPayload(c, s.t, s.archive, OriginalRun(s).priceKeys, listings)
    && OriginalRun(s).priceKeys != []
  }

  function OriginalRun(s: State): Run {
    if s.process.Replaying? && s.process.original in s.t.runs then s.t.runs[s.process.original]
    else Run(0, 0, [])
  }

  /** What the replay is about to insert. */
  function Rewrite(c: Setting, s: State, listings: seq<seq<PollTarget>>): seq<Observation>
    requires |listings| == |OriginalRun(s).priceKeys|
  {
    ReplayReadings(c, s.archive, OriginalRun(s).priceKeys, listings, OriginalRun(s).startedAt)
  }

  /** Some payload of the original reads o now, under every rule and the names held now. */
  ghost predicate ReadNow(c: Setting, s: State, key: ObjectKey, o: Observation) {
    && key in OriginalRun(s).priceKeys
    && Vouches(c, s.t, s.archive, key, OriginalRun(s).startedAt, o)
    && NameHolds(c, TargetOf(s.t, o.key, o.detail.sourceRef), QuotesAt(c, s.archive, key).value)
  }

  /** The rewrite is exactly what the payloads read, in whatever order the targets were listed. */
  lemma RewriteIs(c: Setting, s: State, listings: seq<seq<PollTarget>>, o: Observation)
    requires BeforeSwap(c, s, listings)
    ensures o in Rewrite(c, s, listings) <==> exists key :: ReadNow(c, s, key, o)
  {
    var keys, startedAt := OriginalRun(s).priceKeys, OriginalRun(s).startedAt;
    ReplayReadingsAre(c, s.archive, keys, listings, startedAt, o);
    if o in Rewrite(c, s, listings) {
      var i :| 0 <= i < |keys| && ReadFrom(c, s.archive, keys[i], listings[i], startedAt, o);
      VouchedIsRead(c, s.t, s.archive, keys[i], startedAt, listings[i]);
      assert ReadNow(c, s, keys[i], o);
    }
    if key :| ReadNow(c, s, key, o) {
      var i :| 0 <= i < |keys| && keys[i] == key;
      VouchedIsRead(c, s.t, s.archive, keys[i], startedAt, listings[i]);
      assert ReadFrom(c, s.archive, keys[i], listings[i], startedAt, o);
    }
  }

  // ---------------------------------------------------------------------------
  // One payload speaks for one row
  // ---------------------------------------------------------------------------

  /** Two payloads of one run that both vouch for a row are one payload, and agree on every column. */
  lemma OnePayloadPerRow(c: Setting, s: State, r: RunId, startedAt: Instant, key: ObjectKey, key': ObjectKey,
                         o: Observation, o': Observation)
    requires Sound(c, s) && r in s.t.runs && key in s.t.runs[r].priceKeys && key' in s.t.runs[r].priceKeys
    requires Vouches(c, s.t, s.archive, key, startedAt, o) && Vouches(c, s.t, s.archive, key', startedAt, o')
    requires o.key == o'.key
    ensures key == key' && o == o'
  {
    assert SourceKey(c.game, c.source, o.detail.sourceRef) == SourceKey(c.game, c.source, o'.detail.sourceRef);
    assert PriceKeyOf(key, key'.run) && key'.kind.Prices?;
    assert key == key' || NothingShared(s.archive[key].requestedIds, s.archive[key'].requestedIds);
  }

  /** A row the original owns is vouched for by one of the payloads this replay reads. */
  lemma OwnedIsVouched(c: Setting, s: State, listings: seq<seq<PollTarget>>, k: ObsKey) returns (key: ObjectKey)
    requires BeforeSwap(c, s, listings) && k in OwnedBy(s.t.observations, s.process.original)
    ensures key in OriginalRun(s).priceKeys
    ensures Vouches(c, s.t, s.archive, key, OriginalRun(s).startedAt, Observation(k, s.t.observations[k].detail))
  {
    var row := s.t.observations[k];
    assert Traced(c, s, k, row);
    var r := Behind(s, row.run);
    key :| key in s.t.runs[r].priceKeys && key.kind.Prices?
           && Vouches(c, s.t, s.archive, key, s.t.runs[r].startedAt, Observation(k, row.detail));
    LaterStartVouches(c, s.t, s.archive, key, s.t.runs[r].startedAt, OriginalRun(s).startedAt, Observation(k, row.detail));
  }

  /** The name the payload gave the row's card, if it gave one, is still consistent with the name held. */
  ghost predicate NameStillHolds(c: Setting, s: State, k: ObsKey) {
    && k in s.t.observations && k.asset in s.t.assets && k.market in s.t.markets
    && var o := Observation(k, s.t.observations[k].detail);
    forall key :: key in OriginalRun(s).priceKeys && Vouches(c, s.t, s.archive, key, OriginalRun(s).startedAt, o) ==>
      NameHolds(c, TargetOf(s.t, k, o.detail.sourceRef), QuotesAt(c, s.archive, key).value)
  }

  // ---------------------------------------------------------------------------
  // Fidelity
  // ---------------------------------------------------------------------------

  /**
   * An owned row comes back if and only if its payload's name is still consistent,
   * and then with the very columns it had.
   */
  lemma OwnedRowSurvivesIff(c: Setting, s: State, listings: seq<seq<PollTarget>>, k: ObsKey)
    requires BeforeSwap(c, s, listings) && k in OwnedBy(s.t.observations, s.process.original)
    ensures k in KeysOf(Rewrite(c, s, listings)) <==> NameStillHolds(c, s, k)
    ensures k in KeysOf(Rewrite(c, s, listings)) ==>
              FirstDetail(Rewrite(c, s, listings), k) == s.t.observations[k].detail
  {
    var os, o := Rewrite(c, s, listings), Observation(k, s.t.observations[k].detail);
    var key := OwnedIsVouched(c, s, listings, k);
    RewriteIs(c, s, listings, o);
    KeysOfMembers(os);
    if NameStillHolds(c, s, k) {
      assert ReadNow(c, s, key, o);
    }
    if k in KeysOf(os) {
      var o' := Observation(k, FirstDetail(os, k));
      RewriteIs(c, s, listings, o');
      var key' :| ReadNow(c, s, key', o');
      OnePayloadPerRow(c, s, s.process.original, OriginalRun(s).startedAt, key, key', o, o');
      forall other | other in OriginalRun(s).priceKeys
                     && Vouches(c, s.t, s.archive, other, OriginalRun(s).startedAt, o)
        ensures NameHolds(c, TargetOf(s.t, k, o.detail.sourceRef), QuotesAt(c, s.archive, other).value)
      {
        OnePayloadPerRow(c, s, s.process.original, OriginalRun(s).startedAt, key, other, o, o);
      }
    }
  }

  ghost predicate NamesStillHold(c: Setting, s: State) {
    s.process.Replaying? ==> forall k :: k in OwnedBy(s.t.observations, s.process.original) ==> NameStillHolds(c, s, k)
  }

  /** While names hold, the rewrite covers every row the original owns, column for column. */
  ghost predicate Covers(s: State, os: seq<Observation>) {
    s.process.Replaying? ==>
      forall k :: k in OwnedBy(s.t.observations, s.process.original) ==>
        k in KeysOf(os) && FirstDetail(os, k) == s.t.observations[k].detail
  }

  lemma RewriteCovers(c: Setting, s: State, listings: seq<seq<PollTarget>>)
    requires BeforeSwap(c, s, listings) && NamesStillHold(c, s)
    ensures Covers(s, Rewrite(c, s, listings))
  {
    forall k | k in OwnedBy(s.t.observations, s.process.original)
      ensures k in KeysOf(Rewrite(c, s, listings))
      ensures FirstDetail(Rewrite(c, s, listings), k) == s.t.observations[k].detail
    {
      OwnedRowSurvivesIff(c, s, listings, k);
    }
  }

  /** The delete and re-insert of a covering rewrite, on the table alone. */
  lemma SwapOfACoveringRewrite(table: map<ObsKey, ObsRow>, original: RunId, replacement: RunId, os: seq<Observation>,
                               now: Instant)
    requires OwnedBy(table, original) <= KeysOf(os)
    ensures Swapped(table, original, replacement, os, now).Keys == table.Keys + KeysOf(os)
    ensures DeletedCount(table, original) <= WrittenCount(table, original, replacement, os, now)
    ensures !Refused(table, original, replacement, os, now)
  {
    var after := Swapped(table, original, replacement, os, now);
    InsertAllKeys(WithoutRun(table, original), os, replacement, now);
    OwnedAndKept(table, original);
    assert after.Keys == table.Keys + KeysOf(os);
    SmallerSet(table.Keys, after.Keys);
  }

  /**
   * Replaying loses no key while names still hold: it adds exactly what the
   * payloads read, writes at least as many rows as it deletes, and so is never
   * refused.
   */
  lemma ReplayLosesNothing(c: Setting, s: State, listings: seq<seq<PollTarget>>, now: Instant)
    requires BeforeSwap(c, s, listings) && NamesStillHold(c, s)
    ensures var os, table := Rewrite(c, s, listings), s.t.observations;
            && Swapped(table, s.process.original, s.process.replacement, os, now).Keys == table.Keys + KeysOf(os)
            && DeletedCount(table, s.process.original)
               <= WrittenCount(table, s.process.original, s.process.replacement, os, now)
            && !Refused(table, s.process.original, s.process.replacement, os, now)
  {
    RewriteCovers(c, s, listings);
    SwapOfACoveringRewrite(s.t.observations, s.process.original, s.process.replacement, Rewrite(c, s, listings), now);
  }

  /** A row of another run is untouched, and a replayed row keeps every column but its run and its import time. */
  lemma ReplayReproducesRows(c: Setting, s: State, listings: seq<seq<PollTarget>>, now: Instant, k: ObsKey)
    requires BeforeSwap(c, s, listings) && NamesStillHold(c, s) && k in s.t.observations
    ensures var after := Swapped(s.t.observations, s.process.original, s.process.replacement, Rewrite(c, s, listings), now);
            var row := s.t.observations[k];
            k in after && after[k] == if row.run != s.process.original then row
                                      else ObsRow(row.detail, s.process.replacement, now)
  {
    RewriteCovers(c, s, listings);
    InsertAllRow(WithoutRun(s.t.observations, s.process.original), Rewrite(c, s, listings), s.process.replacement, now, k);
  }

  /** Everything the payloads read now is stored already. */
  ghost predicate NothingNewToRead(c: Setting, s: State) {
    forall key, o :: ReadNow(c, s, key, o) ==> o.key in s.t.observations
  }

  lemma RewriteIsStoredIff(c: Setting, s: State, listings: seq<seq<PollTarget>>)
    requires BeforeSwap(c, s, listings)
    ensures KeysOf(Rewrite(c, s, listings)) <= s.t.observations.Keys <==> NothingNewToRead(c, s)
  {
    var os := Rewrite(c, s, listings);
    KeysOfMembers(os);
    if NothingNewToRead(c, s) {
      forall k | k in KeysOf(os)
        ensures k in s.t.observations
      {
        var o :| o in os && o.key == k;
        RewriteIs(c, s, listings, o);
      }
    }
    if KeysOf(os) <= s.t.observations.Keys {
      forall key, o | ReadNow(c, s, key, o)
        ensures o.key in s.t.observations
      {
        RewriteIs(c, s, listings, o);
      }
    }
  }

  /** While names hold, the key set is unchanged exactly when everything the payloads read was already stored. */
  lemma KeySetUnchangedIff(c: Setting, s: State, listings: seq<seq<PollTarget>>, now: Instant)
    requires BeforeSwap(c, s, listings) && NamesStillHold(c, s)
    ensures Swapped(s.t.observations, s.process.original, s.process.replacement, Rewrite(c, s, listings), now).Keys
            == s.t.observations.Keys
            <==> NothingNewToRead(c, s)
  {
    ReplayLosesNothing(c, s, listings, now);
    RewriteIsStoredIff(c, s, listings);
    NothingAdded(s.t.observations.Keys, KeysOf(Rewrite(c, s, listings)));
  }

  /** Every replay a process can have open stands before its swap in the sense used here. */
  lemma EveryOpenReplay(c: Setting, s: State, listings: seq<seq<PollTarget>>)
    requires Reachable(c, s) && s.process.Replaying? && !s.process.swapped
    requires ListsEachPayload(c, s.t, s.archive, OriginalRun(s).priceKeys, listings)
    ensures BeforeSwap(c, s, listings)
  {
    ReachableIsSound(c, s);
  }

  // ---------------------------------------------------------------------------
  // Idempotence
  // ---------------------------------------------------------------------------

  /** A swap whose rewrite is already stored, by runs other than the one it deletes, changes no row. */
  lemma NothingLeftToSwap(table: map<ObsKey, ObsRow>, original: RunId, replacement: RunId, os: seq<Observation>, now: Instant)
    requires OwnedBy(table, original) == {} && KeysOf(os) <= table.Keys
    ensures Swapped(table, original, replacement, os, now) == table
    ensures WrittenCount(table, original, replacement, os, now) == 0
    ensures !Refused(table, original, replacement, os, now)
  {
    var kept := WithoutRun(table, original);
    forall k | k in table
      ensures table[k].run != original
    {
      assert k !in OwnedBy(table, original);
    }
    assert kept == table;
    InsertAllKeys(table, os, replacement, now);
    forall k | k in table
      ensures InsertAll(table, os, replacement, now)[k] == table[k]
    {
      InsertAllRow(table, os, replacement, now, k);
    }
  }

  /** `s'` is a later replay of the same original over what the swap of `listings` left. */
  ghost predicate ReopenedAfter(c: Setting, s: State, listings: seq<seq<PollTarget>>, now: Instant, s': State)
    requires |listings| == |OriginalRun(s).priceKeys| && s.process.Replaying?
  {
    && s'.process.Replaying? && !s'.process.swapped && s'.process.original == s.process.original
    && s'.t.assets == s.t.assets && s'.t.sourceIds == s.t.sourceIds && s'.t.markets == s.t.markets
    && s'.archive == s.archive && OriginalRun(s') == OriginalRun(s) && s.process.original in s'.t.runs
    && s'.t.observations
       == Swapped(s.t.observations, s.process.original, s.process.replacement, Rewrite(c, s, listings), now)
  }

  lemma SecondRewriteIsStored(c: Setting, s: State, listings: seq<seq<PollTarget>>, now: Instant, s': State,
                              relisted: seq<seq<PollTarget>>, later: Instant)
    requires BeforeSwap(c, s, listings) && AllStorable(Rewrite(c, s, listings)) && ReopenedAfter(c, s, listings, now, s')
    requires ListsEachPayload(c, s'.t, s'.archive, OriginalRun(s).priceKeys, relisted)
    ensures var second, table := Rewrite(c, s, relisted), s'.t.observations;
            && AllStorable(second)
            && Swapped(table, s.process.original, s'.process.replacement, second, later) == table
            && !Refused(table, s.process.original, s'.process.replacement, second, later)
  {
    var first, second := Rewrite(c, s, listings), Rewrite(c, s, relisted);
    SameTargetsAfterwards(c, s, s', relisted);
    RewritesShareRows(c, s, listings, relisted);
    InsertAllKeys(WithoutRun(s.t.observations, s.process.original), first, s.process.replacement, now);
    NothingOwnedAfterSwap(s.t.observations, s.process.original, s.process.replacement, first, now);
    NothingLeftToSwap(s'.t.observations, s.process.original, s'.process.replacement, second, later);
  }

  lemma SwapAgainIsEnabled(c: Setting, s: State, listings: seq<seq<PollTarget>>, now: Instant, s': State,
                           relisted: seq<seq<PollTarget>>, later: Instant)
    requires BeforeSwap(c, s, listings) && AllStorable(Rewrite(c, s, listings)) && ReopenedAfter(c, s, listings, now, s')
    requires s'.clock < later && ListsEachPayload(c, s'.t, s'.archive, OriginalRun(s).priceKeys, relisted)
    ensures CanSwap(c, s', relisted, later) && Rewrite(c, s', relisted) == Rewrite(c, s, relisted)
  {
    SecondRewriteIsStored(c, s, listings, now, s', relisted, later);
    assert Rewrite(c, s, relisted)
        == ReplayReadings(c, s'.archive, OriginalRun(s').priceKeys, relisted, OriginalRun(s').startedAt);
  }

  lemma SwapIs(c: Setting, s: State, listings: seq<seq<PollTarget>>, now: Instant)
    requires CanSwap(c, s, listings, now)
    ensures Next(c, s, Swap(listings, now)).t.observations
         == Swapped(s.t.observations, s.process.original, s.process.replacement, Rewrite(c, s, listings), now)
  {
  }

  /** The second swap is not refused and changes no row, however its targets are listed. */
  lemma SwapAgain(c: Setting, s: State, listings: seq<seq<PollTarget>>, now: Instant, s': State,
                  relisted: seq<seq<PollTarget>>, later: Instant)
    requires BeforeSwap(c, s, listings) && AllStorable(Rewrite(c, s, listings)) && ReopenedAfter(c, s, listings, now, s')
    requires s'.clock < later && ListsEachPayload(c, s'.t, s'.archive, OriginalRun(s).priceKeys, relisted)
    ensures CanSwap(c, s', relisted, later)
    ensures Next(c, s', Swap(relisted, later)).t.observations == s'.t.observations
  {
    SwapAgainIsEnabled(c, s, listings, now, s', relisted, later);
    SecondRewriteIsStored(c, s, listings, now, s', relisted, later);
    SwapIs(c, s', relisted, later);
  }

  lemma CloseFollowsSwap(c: Setting, s: State, listings: seq<seq<PollTarget>>, now: Instant)
    requires BeforeSwap(c, s, listings) && CanSwap(c, s, listings, now)
    ensures Enabled(c, s, Swap(listings, now)) && Enabled(c, Next(c, s, Swap(listings, now)), CloseReplay)
  {
    hide ReplayReadings, ListsEachPayload;
    assert ProcessKnown(s);
  }

  lemma Reopening(c: Setting, s: State, listings: seq<seq<PollTarget>>, now: Instant, closed: State, again: RunId,
                  openedAt: Instant)
    requires BeforeSwap(c, s, listings) && CanSwap(c, s, listings, now)
    requires Enabled(c, s, Swap(listings, now)) && Enabled(c, Next(c, s, Swap(listings, now)), CloseReplay)
    requires closed == Next(c, Next(c, s, Swap(listings, now)), CloseReplay)
    requires Enabled(c, closed, OpenReplay(s.process.original, again, openedAt))
    ensures var reopened := Next(c, closed, OpenReplay(s.process.original, again, openedAt));
            ReopenedAfter(c, s, listings, now, reopened) && reopened.clock == openedAt
  {
    hide ReplayReadings, ListsEachPayload;
    assert ProcessKnown(s);
    SwapThenClose(c, s, listings, now);
  }

  /** A replay that swaps and closes changes its rows and its own run, and nothing else. */
  lemma SwapThenClose(c: Setting, s: State, listings: seq<seq<PollTarget>>, now: Instant)
    requires CanSwap(c, s, listings, now)
    requires s.process.replacement in s.t.runs && s.process.replacement != s.process.original
    ensures var closed := Next(c, Next(c, s, Swap(listings, now)), CloseReplay);
            && closed.archive == s.archive
            && closed.t.assets == s.t.assets && closed.t.sourceIds == s.t.sourceIds && closed.t.markets == s.t.markets
            && closed.t.observations
               == Swapped(s.t.observations, s.process.original, s.process.replacement, Rewrite(c, s, listings), now)
            && s.process.original in closed.t.runs && closed.t.runs[s.process.original] == OriginalRun(s)
  {
    SwapIs(c, s, listings, now);
  }

  /** Right after a replay, replaying the same run again is not refused and changes no row. */
  lemma SecondReplayChangesNothing(c: Setting, s: State, listings: seq<seq<PollTarget>>, now: Instant,
                                   again: RunId, openedAt: Instant, relisted: seq<seq<PollTarget>>, later: Instant)
    requires BeforeSwap(c, s, listings) && CanSwap(c, s, listings, now)
    requires Enabled(c, Next(c, Next(c, s, Swap(listings, now)), CloseReplay), OpenReplay(s.process.original, again, openedAt))
    requires var reopened := Next(c, Next(c, Next(c, s, Swap(listings, now)), CloseReplay),
                                  OpenReplay(s.process.original, again, openedAt));
             openedAt < later && ListsEachPayload(c, reopened.t, reopened.archive, OriginalRun(s).priceKeys, relisted)
    ensures var reopened := Next(c, Next(c, Next(c, s, Swap(listings, now)), CloseReplay),
                                 OpenReplay(s.process.original, again, openedAt));
            && CanSwap(c, reopened, relisted, later)
            && Next(c, reopened, Swap(relisted, later)).t.observations == reopened.t.observations
  {
    CloseFollowsSwap(c, s, listings, now);
    Reopening(c, s, listings, now, Next(c, Next(c, s, Swap(listings, now)), CloseReplay), again, openedAt);
    assert AllStorable(Rewrite(c, s, listings));
    SwapAgain(c, s, listings, now,
              Next(c, Next(c, Next(c, s, Swap(listings, now)), CloseReplay), OpenReplay(s.process.original, again, openedAt)),
              relisted, later);
  }

  /** Listing the targets depends on identities alone. */
  lemma SameTargetsAfterwards(c: Setting, s: State, s': State, relisted: seq<seq<PollTarget>>)
    requires s'.t.assets == s.t.assets && s'.t.sourceIds == s.t.sourceIds && s'.t.markets == s.t.markets
    requires s'.archive == s.archive
    requires ListsEachPayload(c, s'.t, s'.archive, OriginalRun(s).priceKeys, relisted)
    ensures ListsEachPayload(c, s.t, s.archive, OriginalRun(s).priceKeys, relisted)
  {
    forall i | 0 <= i < |OriginalRun(s).priceKeys|
      ensures ListsResolved(c, s.t, IdsAt(s.archive, OriginalRun(s).priceKeys[i]), relisted[i])
    {
      var ids := IdsAt(s.archive, OriginalRun(s).priceKeys[i]);
      assert forall x :: IsResolved(c, s'.t, ids, x) == IsResolved(c, s.t, ids, x);
    }
  }

  lemma RewritesShareRows(c: Setting, s: State, listings: seq<seq<PollTarget>>, relisted: seq<seq<PollTarget>>)
    requires BeforeSwap(c, s, listings) && BeforeSwap(c, s, relisted)
    ensures forall o :: o in Rewrite(c, s, relisted) <==> o in Rewrite(c, s, listings)
    ensures KeysOf(Rewrite(c, s, relisted)) == KeysOf(Rewrite(c, s, listings))
  {
    KeysOfMembers(Rewrite(c, s, listings));
    KeysOfMembers(Rewrite(c, s, relisted));
    forall o
      ensures o in Rewrite(c, s, relisted) <==> o in Rewrite(c, s, listings)
    {
      RewriteIs(c, s, relisted, o);
      RewriteIs(c, s, listings, o);
    }
  }

  lemma NothingOwnedAfterSwap(table: map<ObsKey, ObsRow>, original: RunId, replacement: RunId, os: seq<Observation>,
                              now: Instant)
    requires original != replacement
    ensures OwnedBy(Swapped(table, original, replacement, os, now), original) == {}
  {
    var after := Swapped(table, original, replacement, os, now);
    forall k | k in after
      ensures after[k].run != original
    {
      InsertAllRow(WithoutRun(table, original), os, replacement, now, k);
    }
  }
}
