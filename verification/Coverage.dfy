/** The assets worth their requests, and the schedule made of them. */
module Coverage {
  import opened Domain
  import opened Ledger
  import opened Sets

  predicate Promotional(a: Asset) { a.version != BASE_VERSION }

  /** The ranking of `most_valuable_assets`: promotions, then rating with the unrated last, then identifier. */
  predicate MoreValuable(x: AssetId, a: Asset, y: AssetId, b: Asset) {
    if Promotional(a) != Promotional(b) then Promotional(a)
    else if a.rating != b.rating then a.rating.Some? && (b.rating.Some? ==> a.rating.value > b.rating.value)
    else x < y
  }

  function InGame(assets: map<AssetId, Asset>, game: GameId): set<AssetId> {
    set a | a in assets && assets[a].game == game
  }

  /** The assets of the game that outrank one asset. */
  function Above(assets: map<AssetId, Asset>, game: GameId, x: AssetId): set<AssetId>
    requires x in assets
  {
    set y | y in InGame(assets, game) && MoreValuable(y, assets[y], x, assets[x])
  }

  /** The `limit` most valuable assets of the game: those outranked by fewer than `limit` others. */
  function Covered(assets: map<AssetId, Asset>, game: GameId, limit: nat): set<AssetId> {
    set x | x in InGame(assets, game) && |Above(assets, game, x)| < limit
  }

  function Tier(a: Asset): int { PollIntervalSeconds(a.version, a.rating) }

  function CoveredPairs(t: Tables, game: GameId, covered: set<AssetId>): set<Pair> {
    set a, m | a in covered && m in t.markets && t.markets[m].game == game :: Pair(a, m)
  }

  /** `ensure_poll_state`: a row for every covered asset and market, existing rows untouched. */
  function Ensured(t: Tables, game: GameId, covered: set<AssetId>): map<Pair, PollState>
    requires covered <= t.assets.Keys
  {
    (map p | p in CoveredPairs(t, game, covered) :: PollState(Tier(t.assets[p.asset]), None, 0)) + t.schedule
  }

  /** `drop_poll_state_outside`: the game's rows whose asset is no longer covered go. */
  function Dropped(t: Tables, game: GameId, covered: set<AssetId>): map<Pair, PollState> {
    map p | p in t.schedule && (p.asset in InGame(t.assets, game) ==> p.asset in covered) :: t.schedule[p]
  }

  // ---------------------------------------------------------------------------
  // The ranking is a total order, and its first `limit` assets are the covered ones
  // ---------------------------------------------------------------------------

  lemma ValueOrderIsTotal(x: AssetId, a: Asset, y: AssetId, b: Asset)
    ensures x != y ==> MoreValuable(x, a, y, b) != MoreValuable(y, b, x, a)
    ensures !MoreValuable(x, a, x, a)
  {
  }

  predicate InValueOrder(assets: map<AssetId, Asset>, list: seq<AssetId>) {
    && (forall x :: x in list ==> x in assets)
    && forall i, j :: 0 <= i < j < |list| ==> MoreValuable(list[i], assets[list[i]], list[j], assets[list[j]])
  }

  /** `list` holds the best of the game in order, and `left` the rest, each below everything listed. */
  ghost predicate Ranked(assets: map<AssetId, Asset>, game: GameId, left: set<AssetId>, list: seq<AssetId>) {
    && left <= InGame(assets, game) && NoDuplicates(list) && |list| + |left| == |InGame(assets, game)|
    && (forall x :: x in list <==> x in InGame(assets, game) && x !in left)
    && InValueOrder(assets, list)
    && (forall x, y :: x in list && y in left ==> MoreValuable(x, assets[x], y, assets[y]))
  }

  lemma RankNext(assets: map<AssetId, Asset>, game: GameId, left: set<AssetId>, list: seq<AssetId>, best: AssetId)
    requires Ranked(assets, game, left, list) && best in left
    requires forall y :: y in left && y != best ==> MoreValuable(best, assets[best], y, assets[y])
    ensures Ranked(assets, game, left - {best}, list + [best])
  {
  }

  lemma ListedIsCovered(assets: map<AssetId, Asset>, game: GameId, left: set<AssetId>, list: seq<AssetId>, x: AssetId)
    requires Ranked(assets, game, left, list) && x in list
    ensures |Above(assets, game, x)| < |list|
  {
    var members := Members(list);
    DistinctCount(list);
    forall y | y in Above(assets, game, x)
      ensures y in members - {x}
    {
      ValueOrderIsTotal(x, assets[x], y, assets[y]);
    }
    SmallerSet(Above(assets, game, x), members - {x});
    assert |members - {x}| == |members| - 1;
  }

  lemma LeftIsNotCovered(assets: map<AssetId, Asset>, game: GameId, left: set<AssetId>, list: seq<AssetId>, y: AssetId)
    requires Ranked(assets, game, left, list) && y in left
    ensures |list| <= |Above(assets, game, y)|
  {
    var members := Members(list);
    DistinctCount(list);
    SmallerSet(members, Above(assets, game, y));
  }

  lemma RankedIsCovered(assets: map<AssetId, Asset>, game: GameId, limit: nat, left: set<AssetId>, list: seq<AssetId>)
    requires Ranked(assets, game, left, list) && |list| <= limit && (left == {} || |list| == limit)
    ensures forall x :: x in list <==> x in Covered(assets, game, limit)
  {
    forall x | x in InGame(assets, game)
      ensures x in list <==> x in Covered(assets, game, limit)
    {
      if x in list {
        ListedIsCovered(assets, game, left, list, x);
      } else {
        LeftIsNotCovered(assets, game, left, list, x);
      }
    }
  }

  /** What the order means on the columns. */
  lemma ValueOrderOnColumns(x: AssetId, a: Asset, y: AssetId, b: Asset)
    requires MoreValuable(x, a, y, b)
    ensures b.version != "base" ==> a.version != "base"
    ensures (a.version == "base") == (b.version == "base") ==>
              && (b.rating.Some? ==> a.rating.Some? && a.rating.value >= b.rating.value)
              && (a.rating == b.rating ==> x < y)
  {
  }

  lemma ValueOrderIsTransitive(x: AssetId, a: Asset, y: AssetId, b: Asset, z: AssetId, d: Asset)
    requires MoreValuable(x, a, y, b) && MoreValuable(y, b, z, d)
    ensures MoreValuable(x, a, z, d)
  {
  }

  lemma CoveredOutranks(assets: map<AssetId, Asset>, game: GameId, limit: nat, x: AssetId, y: AssetId)
    requires x in Covered(assets, game, limit) && y in InGame(assets, game) && y !in Covered(assets, game, limit)
    ensures MoreValuable(x, assets[x], y, assets[y])
  {
    ValueOrderIsTotal(x, assets[x], y, assets[y]);
    if MoreValuable(y, assets[y], x, assets[x]) {
      forall z | z in Above(assets, game, y)
        ensures z in Above(assets, game, x)
      {
        ValueOrderIsTransitive(z, assets[z], y, assets[y], x, assets[x]);
      }
      SmallerSet(Above(assets, game, y), Above(assets, game, x));
    }
  }

  /**
   * No card of the game left out is worth more than a covered one. A promotion is left
   * out only when every covered card is one; of two promotions or two base cards the
   * covered one is rated no lower, an unrated one counting lowest, and of two rated alike
   * it is the one with the smaller identifier.
   */
  lemma CoveredAreTheMostValuable(assets: map<AssetId, Asset>, game: GameId, limit: nat, x: AssetId, y: AssetId)
    requires x in Covered(assets, game, limit)
    requires y in assets && assets[y].game == game && y !in Covered(assets, game, limit)
    ensures assets[x].game == game
    ensures assets[y].version != "base" ==> assets[x].version != "base"
    ensures (assets[x].version == "base") == (assets[y].version == "base") ==>
              && (assets[y].rating.Some? ==> assets[x].rating.Some? && assets[x].rating.value >= assets[y].rating.value)
              && (assets[x].rating == assets[y].rating ==> x < y)
  {
    CoveredOutranks(assets, game, limit, x, y);
    ValueOrderOnColumns(x, assets[x], y, assets[y]);
  }

  // ---------------------------------------------------------------------------
  // The two statements together
  // ---------------------------------------------------------------------------

  predicate HasRow(rows: seq<(Pair, int)>, p: Pair) { exists i :: 0 <= i < |rows| && rows[i].0 == p }

  lemma HasRowNext(rows: seq<(Pair, int)>, i: nat)
    requires i < |rows|
    ensures forall p :: HasRow(rows[..i + 1], p) <==> HasRow(rows[..i], p) || rows[i].0 == p
  {
    forall p
      ensures HasRow(rows[..i + 1], p) <==> HasRow(rows[..i], p) || rows[i].0 == p
    {
      if rows[i].0 == p {
        assert rows[..i + 1][i].0 == p;
      }
      if j :| 0 <= j < i && rows[j].0 == p {
        assert rows[..i + 1][j].0 == p && rows[..i][j].0 == p;
      }
    }
  }

  /** The list holds a row, at the asset's tier, for every listed asset and market, and nothing else. */
  ghost predicate AreRowsFor(assets: map<AssetId, Asset>, covered: seq<AssetId>, ms: seq<MarketId>, rows: seq<(Pair, int)>) {
    && (forall p: Pair :: p.asset in covered && p.market in ms ==> HasRow(rows, p))
    && (forall i :: 0 <= i < |rows| ==>
          var p := rows[i].0;
          p.asset in covered && p.market in ms && p.asset in assets && rows[i].1 == Tier(assets[p.asset]))
  }

  lemma MoreRowsFor(assets: map<AssetId, Asset>, covered: seq<AssetId>, a: AssetId, ms: seq<MarketId>,
                    rows: seq<(Pair, int)>, more: seq<(Pair, int)>)
    requires AreRowsFor(assets, covered, ms, rows) && a in assets && |more| == |ms|
    requires forall k :: 0 <= k < |ms| ==> more[k] == (Pair(a, ms[k]), Tier(assets[a]))
    ensures AreRowsFor(assets, covered + [a], ms, rows + more)
  {
    forall p: Pair | p.asset in covered + [a] && p.market in ms
      ensures HasRow(rows + more, p)
    {
      if p.asset in covered {
        var i :| 0 <= i < |rows| && rows[i].0 == p;
        assert (rows + more)[i].0 == p;
      } else {
        var k :| 0 <= k < |ms| && ms[k] == p.market;
        assert (rows + more)[|rows| + k].0 == p;
      }
    }
  }

  /** What inserting the row of every covered asset and market makes of the schedule. */
  lemma EnsuredIs(t: Tables, game: GameId, chosen: set<AssetId>, covered: seq<AssetId>, ms: seq<MarketId>,
                  rows: seq<(Pair, int)>, after: map<Pair, PollState>)
    requires chosen <= t.assets.Keys && (forall x :: x in covered <==> x in chosen)
    requires forall m :: m in ms <==> m in t.markets && t.markets[m].game == game
    requires AreRowsFor(t.assets, covered, ms, rows)
    requires forall p :: p in after <==> p in t.schedule || HasRow(rows, p)
    requires forall p :: p in t.schedule ==> after[p] == t.schedule[p]
    requires forall p :: p in after && p !in t.schedule ==>
               exists i :: 0 <= i < |rows| && rows[i].0 == p && after[p] == PollState(rows[i].1, None, 0)
    ensures after == Ensured(t, game, chosen)
  {
    forall p: Pair
      ensures p in CoveredPairs(t, game, chosen) <==> HasRow(rows, p)
    {
      assert Pair(p.asset, p.market) == p;
      assert p.asset in covered && p.market in ms ==> HasRow(rows, p);
    }
  }

  /** What deleting the game's rows outside the covered set makes of the schedule. */
  lemma DroppedIs(t: Tables, game: GameId, covered: seq<AssetId>, after: map<Pair, PollState>)
    requires forall p :: p in after <==>
               p in t.schedule && !(p.asset in t.assets && t.assets[p.asset].game == game && p.asset !in covered)
    requires forall p :: p in after ==> after[p] == t.schedule[p]
    ensures after == Dropped(t, game, Members(covered))
  {
    var dropped := Dropped(t, game, Members(covered));
    assert forall p :: p in after <==> p in dropped;
    assert forall p :: p in after ==> after[p] == dropped[p];
  }

  /**
   * Schedule exactness. After coverage is applied the game's rows are exactly the
   * `limit` most valuable assets times the game's markets; a row that survives is
   * the row it was, a new one starts unread at its asset's tier, and the rows of
   * other games are untouched.
   */
  lemma CoverageIsExact(t: Tables, game: GameId, limit: nat)
    requires forall p :: p in t.schedule && p.asset in InGame(t.assets, game) ==>
               p.market in t.markets && t.markets[p.market].game == game
    ensures var covered := Covered(t.assets, game, limit);
            var after := Dropped(t.(schedule := Ensured(t, game, covered)), game, covered);
            && (forall p: Pair :: p.asset in InGame(t.assets, game) ==>
                  (p in after <==> p.asset in covered && p.market in t.markets && t.markets[p.market].game == game))
            && (forall p :: p in after && p in t.schedule ==> after[p] == t.schedule[p])
            && (forall p :: p in after && p !in t.schedule ==> after[p] == PollState(Tier(t.assets[p.asset]), None, 0))
            && (forall p: Pair :: p.asset !in InGame(t.assets, game) ==>
                  (p in after <==> p in t.schedule) && (p in after ==> after[p] == t.schedule[p]))
  {
    var covered := Covered(t.assets, game, limit);
    forall p: Pair
      ensures p in CoveredPairs(t, game, covered)
          <==> p.asset in covered && p.market in t.markets && t.markets[p.market].game == game
    {
      if p.asset in covered && p.market in t.markets && t.markets[p.market].game == game {
        assert Pair(p.asset, p.market) == p;
      }
    }
  }
}
