/** The tables as the server holds them, and the statements that change them in place. */
module Database {
  import opened Domain
  import opened ObjectKeys
  import opened Ledger
  import opened Sets
  import opened Spend
  import opened Scheduler
  import opened Coverage
  import opened Catalogue
  import M = Machine

  datatype WriteCounts = WriteCounts(written: nat, repeated: nat)

  class Database {
    var assets: map<AssetId, Asset>
    var sourceIds: map<SourceKey, AssetId>
    var markets: map<MarketId, Market>
    var schedule: map<Pair, PollState>
    var observations: map<ObsKey, ObsRow>
    var polls: map<PollKey, PollRow>
    var runs: map<RunId, Run>

    function View(): Tables
      reads this
    {
      Tables(assets, sourceIds, markets, schedule, observations, polls, runs)
    }

    constructor (t: Tables)
      ensures View() == t
    {
      assets, sourceIds, markets := t.assets, t.sourceIds, t.markets;
      schedule, observations, polls, runs := t.schedule, t.observations, t.polls, t.runs;
    }

    // -------------------------------------------------------------------------
    // The write path
    // -------------------------------------------------------------------------

    /** Adds an observation unless its key is taken, and says which. */
    method InsertObservation(o: Observation, run: RunId, now: Instant) returns (stored: bool)
      modifies this`observations
      ensures observations == Insert(old(observations), o, run, now)
      ensures stored <==> o.key !in old(observations)
      ensures |observations| == |old(observations)| + if stored then 1 else 0
    {
      stored := o.key !in observations;
      if stored {
        observations := observations[o.key := ObsRow(o.detail, run, now)];
      }
    }

    /** The three writes of one poll. */
    method WritePoll(poll: Poll, at: Instant, now: Instant, run: RunId) returns (outcome: PollOutcome)
      modifies this
      ensures View() == StorePoll(old(View()), poll, at, now, run)
      ensures outcome == OutcomeOf(old(observations), poll)
      ensures |observations| == |old(observations)| + if poll.result.Priced? && outcome.Written? then 1 else 0
    {
      match poll.result {
        case Failed(why) => outcome := why;
        case Priced(o) =>
          var stored := InsertObservation(o, run, now);
          outcome := if stored then Written else Unchanged;
      }
      var key := PollKey(poll.pair, at);
      if key !in polls {
        polls := polls[key := PollRow(poll.sourceObservedAt, outcome, run)];
      }
      if poll.pair in schedule {
        schedule := schedule[poll.pair := Touch(schedule[poll.pair], at, !Succeeded(outcome))];
      }
    }

    /**
     * One transaction: every poll of the batch or none. It fails when the database
     * cannot be reached, and when a row breaks a CHECK constraint.
     */
    method WritePolls(batch: seq<Poll>, at: Instant, now: Instant, run: RunId, reachable: bool)
      returns (counts: Option<WriteCounts>)
      modifies this
      ensures counts.Some? <==> reachable && AllStorable(PricedOf(batch))
      ensures counts.Some? <==>
                && reachable
                && forall o :: o in PricedOf(batch) ==>
                     && o.key.price > 0
                     && (o.detail.minPrice.Some? ==> o.detail.minPrice.value > 0)
                     && (o.detail.maxPrice.Some? ==> o.detail.maxPrice.value > 0)
      ensures counts.None? ==> View() == old(View())
      ensures counts.Some? ==> View() == StorePolls(old(View()), batch, at, now, run)
      ensures counts.Some? ==> counts.value.written == |observations| - |old(observations)|
      ensures counts.Some? ==> counts.value.written + counts.value.repeated == |PricedOf(batch)|
    {
      var savepoint := View();
      var written, repeated := 0, 0;
      for i := 0 to |batch|
        invariant View() == StorePolls(savepoint, batch[..i], at, now, run)
        invariant AllStorable(PricedOf(batch[..i]))
        invariant written == |observations| - |savepoint.observations|
        invariant written + repeated == |PricedOf(batch[..i])|
      {
        assert batch[..i + 1][..i] == batch[..i];
        var poll := batch[i];
        if poll.result.Priced? && !Storable(poll.result.observation) {
          PricedOfMembers(batch);
          Rollback(savepoint);
          return None;
        }
        var outcome := WritePoll(poll, at, now, run);
        if poll.result.Priced? {
          if outcome.Written? {
            written := written + 1;
          } else {
            repeated := repeated + 1;
          }
        }
      }
      assert batch[..|batch|] == batch;
      if !reachable {
        Rollback(savepoint);
        return None;
      }
      counts := Some(WriteCounts(written, repeated));
    }

    method Rollback(savepoint: Tables)
      modifies this
      ensures View() == savepoint
    {
      assets, sourceIds, markets := savepoint.assets, savepoint.sourceIds, savepoint.markets;
      schedule, observations, polls, runs := savepoint.schedule, savepoint.observations, savepoint.polls, savepoint.runs;
    }

    /**
     * Deletes what the original owns and inserts the re-read rows under the replacement,
     * or changes nothing. Losing every row of a run to an empty rewrite counts as failure.
     */
    method ReplaceRunObservations(original: RunId, replacement: RunId, os: seq<Observation>, now: Instant, reachable: bool)
      returns (counts: Option<(nat, nat)>)
      modifies this`observations
      ensures var kept := WithoutRun(old(observations), original);
              var after := InsertAll(kept, os, replacement, now);
              var deleted := |OwnedBy(old(observations), original)|;
              && (counts.Some? <==> reachable && AllStorable(os) && !(deleted > 0 && |after| == |kept|))
              && (counts.Some? ==> observations == after && counts.value == (deleted, |after| - |kept|))
      ensures counts.None? ==> observations == old(observations)
    {
      var savepoint := observations;
      OwnedAndKept(observations, original);
      var deleted := |OwnedBy(observations, original)|;
      observations := WithoutRun(observations, original);
      var written := InsertObservations(os, replacement, now);
      if written.None? || !reachable || (deleted > 0 && written.value == 0) {
        observations := savepoint;
        return None;
      }
      counts := Some((deleted, written.value));
    }

    /** How many of the rows were new, or None at the first row that breaks a constraint. */
    method InsertObservations(os: seq<Observation>, run: RunId, now: Instant) returns (written: Option<nat>)
      modifies this`observations
      ensures written.Some? <==> AllStorable(os)
      ensures written.Some? ==> observations == InsertAll(old(observations), os, run, now)
                                && written.value == |observations| - |old(observations)|
    {
      var count := 0;
      for i := 0 to |os|
        invariant observations == InsertAll(old(observations), os[..i], run, now)
        invariant AllStorable(os[..i])
        invariant count == |observations| - |old(observations)|
      {
        assert os[..i + 1][..i] == os[..i];
        if !Storable(os[i]) {
          return None;
        }
        var stored := InsertObservation(os[i], run, now);
        if stored {
          count := count + 1;
        }
      }
      assert os[..|os|] == os;
      written := Some(count);
    }

    // -------------------------------------------------------------------------
    // Run records
    // -------------------------------------------------------------------------

    method OpenRun(run: RunId, now: Instant)
      requires run !in runs
      modifies this`runs
      ensures runs == old(runs)[run := Run(now, 0, [])]
    {
      runs := runs[run := Run(now, 0, [])];
    }

    method RecordRequest(run: RunId)
      requires run in runs
      modifies this`runs
      ensures View() == WithRequest(old(View()), run)
    {
      runs := runs[run := runs[run].(requests := runs[run].requests + 1)];
    }

    method RecordPriceKey(run: RunId, key: ObjectKey)
      requires run in runs
      modifies this`runs
      ensures View() == WithKey(old(View()), run, key)
    {
      runs := runs[run := runs[run].(priceKeys := runs[run].priceKeys + [key])];
    }

    /** Closing a replacement merges the keys it replayed into its metadata. */
    method CloseReplacement(run: RunId, keys: seq<ObjectKey>)
      requires run in runs
      modifies this`runs
      ensures runs == old(runs)[run := old(runs)[run].(priceKeys := keys)]
    {
      runs := runs[run := runs[run].(priceKeys := keys)];
    }

    /** What every run that started since the beginning of the UTC day has recorded. */
    method RequestsSpentToday(now: Instant) returns (spent: nat)
      ensures spent == Spent(runs, Window(DayOf(now) * DAY, None))
    {
      var w := Window(DayOf(now) * DAY, None);
      var left := runs;
      spent := 0;
      while left != map[]
        invariant spent + Spent(left, w) == Spent(runs, w)
        decreases |left|
      {
        var r :| r in left;
        SpentWithout(left, r, w);
        spent := spent + Counted(left[r], w);
        left := left - {r};
      }
    }

    // -------------------------------------------------------------------------
    // Targets
    // -------------------------------------------------------------------------

    /** Lists a set in an order nobody promises. */
    static method Listed<T(==)>(s: set<T>) returns (list: seq<T>)
      ensures NoDuplicates(list)
      ensures forall x :: x in list <==> x in s
      ensures |list| == |s|
    {
      var left := s;
      list := [];
      while left != {}
        invariant left <= s && NoDuplicates(list)
        invariant forall x :: x in list <==> x in s && x !in left
        invariant |list| + |left| == |s|
        decreases left
      {
        var x :| x in left;
        list, left := list + [x], left - {x};
      }
    }

    method PollTargetsFor(c: Setting, ids: seq<string>) returns (targets: seq<PollTarget>)
      ensures ListsPollTargets(c, View(), ids, targets)
    {
      var rows := set k, p | k in sourceIds && k.game == c.game && k.source == c.source && k.externalId in ids
                             && p in schedule && sourceIds[k] == p.asset && p.asset in assets
                             && assets[p.asset].game == c.game && p.market in markets ::
                    PollTarget(p.asset, p.market, k.externalId, markets[p.market].platform, assets[p.asset].name);
      forall x
        ensures x in rows <==> IsPollTarget(c, View(), ids, x)
      {
        if IsPollTarget(c, View(), ids, x) {
          var k, p := SourceKey(c.game, c.source, x.externalId), Pair(x.asset, x.market);
          assert k in sourceIds && p in schedule && sourceIds[k] == p.asset;
        }
      }
      targets := Listed(rows);
    }

    method ResolveTargets(c: Setting, ids: seq<string>) returns (targets: seq<PollTarget>)
      ensures ListsResolved(c, View(), ids, targets)
    {
      var rows := set k, m | k in sourceIds && k.game == c.game && k.source == c.source && k.externalId in ids
                             && sourceIds[k] in assets && m in markets && markets[m].game == c.game ::
                    PollTarget(sourceIds[k], m, k.externalId, markets[m].platform, assets[sourceIds[k]].name);
      forall x
        ensures x in rows <==> IsResolved(c, View(), ids, x)
      {
        if IsResolved(c, View(), ids, x) {
          var k := SourceKey(c.game, c.source, x.externalId);
          assert k in sourceIds && x.market in markets;
        }
      }
      targets := Listed(rows);
    }

    /** The due identifiers, oldest read first, capped outside the grouping. */
    method DueExternalIds(c: Setting, now: Instant, limit: nat) returns (selected: seq<string>)
      ensures IsDueSelection(c, View(), now, limit, selected)
    {
      var t := View();
      var due := DueIds(c, t, now);
      var left := due;
      selected := [];
      DrawnAtFirst(c, t, now, due);
      while left != {} && |selected| < limit
        invariant Drawn(c, t, now, due, left, selected) && |selected| <= limit
        decreases |left|
      {
        var oldest := OldestOf(c, now, left);
        DrawNext(c, t, now, due, left, selected, oldest);
        selected, left := selected + [oldest], left - {oldest};
      }
      DrawnIsASelection(c, t, now, limit, left, selected);
    }

    method OldestOf(c: Setting, now: Instant, ids: set<string>) returns (oldest: string)
      requires ids != {}
      ensures oldest in ids
      ensures NonePrecedes(c, View(), now, ids, oldest)
    {
      ghost var t := View();
      oldest :| oldest in ids;
      var left := ids;
      while left != {}
        invariant left <= ids && oldest in ids
        invariant forall y :: y in ids && y !in left ==> !Precedes(c, t, now, y, oldest)
        decreases left
      {
        var y :| y in left;
        if Precedes(c, View(), now, y, oldest) {
          forall z | z in ids && z !in left
            ensures !Precedes(c, t, now, z, y)
          {
            if Precedes(c, t, now, z, y) {
              PrecedesIsTransitive(c, t, now, z, y, oldest);
            }
          }
          PrecedesIsIrreflexive(c, t, now, y);
          oldest := y;
        }
        left := left - {y};
      }
    }

    // -------------------------------------------------------------------------
    // Discovery
    // -------------------------------------------------------------------------

    method KnownExternalIds(c: Setting) returns (known: set<string>)
      ensures forall id :: id in known <==> KeyFor(c, id) in sourceIds
    {
      known := set k | k in sourceIds && k.game == c.game && k.source == c.source :: k.externalId;
      forall id
        ensures id in known <==> KeyFor(c, id) in sourceIds
      {
        assert KeyFor(c, id).externalId == id;
      }
    }

    /** An identifier no asset has. */
    method FreshAssetId() returns (asset: AssetId)
      ensures asset !in assets
    {
      asset := 0;
      var left := assets.Keys;
      while asset in assets
        invariant forall a :: a in assets ==> a in left || a < asset
        invariant forall a :: a in left ==> a >= asset
        decreases |left|
      {
        left := left - {asset};
        asset := asset + 1;
      }
    }

    /** A card under an identifier new to us, both rows or neither. */
    method InsertDiscoveredAsset(c: Setting, externalId: string, name: string) returns (asset: AssetId)
      requires KeyFor(c, externalId) !in sourceIds
      modifies this`assets, this`sourceIds
      ensures asset !in old(assets) && View() == M.Discovered(c, old(View()), asset, externalId, name)
    {
      asset := FreshAssetId();
      assets := assets[asset := Asset(c.game, name, None, Rare, BASE_VERSION, None)];
      sourceIds := sourceIds[KeyFor(c, externalId) := asset];
    }

    /** One transaction: the columns of one card, and the interval of the schedule rows that follow it. */
    method UpdateAssetAttributes(asset: AssetId, attributes: M.Attributes, intervalSeconds: int, now: Instant)
      requires asset in assets
      modifies this`assets, this`schedule
      ensures assets.Keys == old(assets).Keys && forall a :: a in assets && a != asset ==> assets[a] == old(assets)[a]
      ensures var a := assets[asset];
              && a.name == attributes.name && a.rating == attributes.rating && a.rarity == attributes.rarity
              && a.version == attributes.version && a.lastSeen == Some(now) && a.game == old(assets)[asset].game
      ensures schedule.Keys == old(schedule).Keys
      ensures forall p :: p in schedule ==>
                && schedule[p].lastPolled == old(schedule)[p].lastPolled && schedule[p].failures == old(schedule)[p].failures
                && schedule[p].intervalSeconds
                   == if p.asset == asset then intervalSeconds else old(schedule)[p].intervalSeconds
    {
      var card := assets[asset];
      assets := assets[asset := card.(name := attributes.name, rating := attributes.rating, rarity := attributes.rarity,
                                      version := attributes.version, lastSeen := Some(now))];
      schedule := map p | p in schedule ::
        if p.asset == asset then schedule[p].(intervalSeconds := intervalSeconds) else schedule[p];
    }

    /** Writes each card whose name is consistent with the one held. The only place these columns are written. */
    method ApplyAttributes(c: Setting, cards: seq<Card>, now: Instant) returns (updated: nat, repointed: nat)
      modifies this`assets, this`schedule
      ensures View() == Harvested(c, old(View()), cards, now)
      ensures repointed == Repointed(c, old(View()), cards, now)
      ensures updated + repointed <= |cards|
    {
      updated, repointed := 0, 0;
      ghost var t := View();
      for i := 0 to |cards|
        invariant View() == Harvested(c, t, cards[..i], now)
        invariant repointed == Repointed(c, t, cards[..i], now)
        invariant updated + repointed <= i
      {
        assert cards[..i + 1][..i] == cards[..i];
        var key := KeyFor(c, cards[i].externalId);
        if key in sourceIds && sourceIds[key] in assets {
          var asset := sourceIds[key];
          if !NameIsConsistent(c.fold, cards[i].attributes.name, assets[asset].name) {
            repointed := repointed + 1;
          } else {
            ghost var before := View();
            var interval := PollIntervalSeconds(cards[i].attributes.version, cards[i].attributes.rating);
            UpdateAssetAttributes(asset, cards[i].attributes, interval, now);
            assert View() == M.Described(before, asset, cards[i].attributes, now);
            updated := updated + 1;
          }
        }
      }
      assert cards[..|cards|] == cards;
    }

    /** The cards without attributes, or with attributes older than the cadence, longest unseen first. */
    method AssetsNeedingMetadata(c: Setting, cadenceSeconds: int, now: Instant, limit: nat) returns (ids: seq<string>)
      ensures IsStaleSelection(c, View(), Needing(c, View(), cadenceSeconds, now), limit, ids)
    {
      var all := Needing(c, View(), cadenceSeconds, now);
      var left := all;
      ids := [];
      while left != {} && |ids| < limit
        invariant Taken(c, View(), all, left, ids) && |ids| <= limit
        decreases |left|
      {
        var next := LongestUnseen(c, left);
        TakeNext(c, View(), all, left, ids, next);
        ids, left := ids + [next], left - {next};
      }
    }

    method LongestUnseen(c: Setting, ids: set<string>) returns (oldest: string)
      requires ids != {}
      ensures oldest in ids && forall y :: y in ids ==> !Earlier(LastSeen(c, View(), y), LastSeen(c, View(), oldest))
    {
      oldest :| oldest in ids;
      var left := ids - {oldest};
      while left != {}
        invariant left <= ids && oldest in ids
        invariant forall y :: y in ids && y !in left ==> !Earlier(LastSeen(c, View(), y), LastSeen(c, View(), oldest))
        decreases |left|
      {
        var y :| y in left;
        left := left - {y};
        if Earlier(LastSeen(c, View(), y), LastSeen(c, View(), oldest)) {
          oldest := y;
        }
      }
    }

    method HighestExternalId(c: Setting) returns (r: Result<Option<string>, ()>)
      ensures IsWatermark(c, View(), r)
    {
      var held := NumbersHeld(c, View());
      if exists x :: x in held && x > LARGEST_BIGINT {
        return Err(());
      }
      if held == {} {
        return Ok(None);
      }
      var top :| top in held;
      var left := held - {top};
      while left != {}
        invariant left <= held && top in held
        invariant forall x :: x in held ==> x in left || x <= top
        decreases |left|
      {
        var x :| x in left;
        if x > top {
          top := x;
        }
        left := left - {x};
      }
      assert IsMaximum(held, top);
      return Ok(Some(Decimal(top)));
    }

    // -------------------------------------------------------------------------
    // Coverage
    // -------------------------------------------------------------------------

    /** The assets worth the budget, most valuable first. */
    method MostValuableAssets(game: GameId, limit: nat) returns (list: seq<AssetId>)
      ensures forall x :: x in list <==> x in Covered(assets, game, limit)
      ensures NoDuplicates(list) && InValueOrder(assets, list)
      ensures forall i, j :: 0 <= i < j < |list| ==>
                var a, b := assets[list[i]], assets[list[j]];
                && a.game == b.game == game && (b.version != "base" ==> a.version != "base")
                && ((a.version == "base") == (b.version == "base") ==>
                      && (b.rating.Some? ==> a.rating.Some? && a.rating.value >= b.rating.value)
                      && (a.rating == b.rating ==> list[i] < list[j]))
      ensures |list| == if limit < |InGame(assets, game)| then limit else |InGame(assets, game)|
    {
      var left := InGame(assets, game);
      list := [];
      while left != {} && |list| < limit
        invariant Ranked(assets, game, left, list) && |list| <= limit
        decreases |left|
      {
        var best := MostValuableOf(left);
        RankNext(assets, game, left, list, best);
        list, left := list + [best], left - {best};
      }
      RankedIsCovered(assets, game, limit, left, list);
      forall i, j | 0 <= i < j < |list| {
        ValueOrderOnColumns(list[i], assets[list[i]], list[j], assets[list[j]]);
      }
    }

    method MostValuableOf(ids: set<AssetId>) returns (best: AssetId)
      requires ids != {} && ids <= assets.Keys
      ensures best in ids && forall y :: y in ids && y != best ==> MoreValuable(best, assets[best], y, assets[y])
    {
      best :| best in ids;
      var left := ids - {best};
      while left != {}
        invariant left <= ids && best in ids && best !in left
        invariant forall y :: y in ids && y !in left && y != best ==> MoreValuable(best, assets[best], y, assets[y])
        decreases |left|
      {
        var y :| y in left;
        left := left - {y};
        if MoreValuable(y, assets[y], best, assets[best]) {
          best := y;
        }
      }
    }

    method MarketsForGame(game: GameId) returns (list: seq<MarketId>)
      ensures NoDuplicates(list)
      ensures forall m :: m in list <==> m in markets && markets[m].game == game
    {
      list := Listed(set m | m in markets && markets[m].game == game);
    }

    /** Puts every listed pair on the schedule, unread, unless it is there already. */
    method EnsurePollState(rows: seq<(Pair, int)>)
      modifies this`schedule
      ensures forall p :: p in schedule <==> p in old(schedule) || HasRow(rows, p)
      ensures forall p :: p in old(schedule) ==> schedule[p] == old(schedule)[p]
      ensures forall p :: p in schedule && p !in old(schedule) ==>
                exists i :: 0 <= i < |rows| && rows[i].0 == p && schedule[p] == PollState(rows[i].1, None, 0)
    {
      for i := 0 to |rows|
        invariant forall p :: p in schedule <==> p in old(schedule) || HasRow(rows[..i], p)
        invariant forall p :: p in old(schedule) ==> schedule[p] == old(schedule)[p]
        invariant forall p :: p in schedule && p !in old(schedule) ==>
                    exists j :: 0 <= j < i && rows[j].0 == p && schedule[p] == PollState(rows[j].1, None, 0)
      {
        HasRowNext(rows, i);
        if rows[i].0 !in schedule {
          schedule := schedule[rows[i].0 := PollState(rows[i].1, None, 0)];
        }
      }
      assert rows[..|rows|] == rows;
    }

    /** Takes the game's rows of assets that are not covered off the schedule; observations and polls stay. */
    method DropPollStateOutside(game: GameId, covered: seq<AssetId>) returns (dropped: nat)
      modifies this`schedule
      ensures forall p :: p in schedule <==>
                p in old(schedule) && !(p.asset in assets && assets[p.asset].game == game && p.asset !in covered)
      ensures forall p :: p in schedule ==> schedule[p] == old(schedule)[p]
      ensures dropped == |old(schedule).Keys - schedule.Keys|
    {
      var gone := set p | p in schedule && p.asset in assets && assets[p.asset].game == game && p.asset !in covered;
      ghost var before := schedule;
      schedule := schedule - gone;
      assert before.Keys - schedule.Keys == gone;
      dropped := |gone|;
    }

    /** A row for every listed asset and market, at the asset's tier. */
    method RowsFor(covered: seq<AssetId>, ms: seq<MarketId>) returns (rows: seq<(Pair, int)>)
      requires forall a :: a in covered ==> a in assets
      ensures AreRowsFor(assets, covered, ms, rows)
    {
      rows := [];
      for i := 0 to |covered|
        invariant AreRowsFor(assets, covered[..i], ms, rows)
      {
        var a := covered[i];
        var interval := Tier(assets[a]);
        var more := seq(|ms|, k requires 0 <= k < |ms| => (Pair(a, ms[k]), interval));
        MoreRowsFor(assets, covered[..i], a, ms, rows, more);
        assert covered[..i + 1] == covered[..i] + [a];
        rows := rows + more;
      }
      assert covered[..|covered|] == covered;
    }

    method ScheduleEvery(game: GameId, covered: seq<AssetId>)
      requires forall a :: a in covered ==> a in assets
      modifies this`schedule
      ensures schedule == Ensured(old(View()), game, Members(covered))
    {
      ghost var before := View();
      var ms := MarketsForGame(game);
      var rows := RowsFor(covered, ms);
      EnsurePollState(rows);
      EnsuredIs(before, game, Members(covered), covered, ms, rows, schedule);
    }

    /** Makes the game's schedule exactly the most valuable assets, as many as the limit allows. */
    method ApplyCoverage(c: Setting, limit: nat)
      modifies this`schedule
      ensures var covered := Covered(assets, c.game, limit);
              schedule == Dropped(old(View()).(schedule := Ensured(old(View()), c.game, covered)), c.game, covered)
    {
      ghost var before := View();
      var covered := MostValuableAssets(c.game, limit);
      assert Covered(assets, c.game, limit) == Members(covered);
      ScheduleEvery(c.game, covered);
      assert View() == before.(schedule := Ensured(before, c.game, Members(covered)));
      ghost var ensured := View();
      var dropped := DropPollStateOutside(c.game, covered);
      DroppedIs(ensured, c.game, covered, schedule);
    }
  }
}
