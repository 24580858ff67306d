/** What a card costs against the cards it can be compared with, on the trusted prices of one instant. */
module Valuation {
  import opened Domain
  import opened Sets
  import opened Sorting
  import opened Text
  import opened Trust

  /** One market's trusted prices. Every price is of an asset on record. */
  function Latest(table: map<Pair, TrustedPrice>, assets: map<AssetId, Asset>, market: MarketId): map<AssetId, TrustedPrice> {
    map p | p in table && p.market == market && p.asset in assets :: p.asset := table[p]
  }

  /** What the queries read: one market's prices, which are positive, and the attributes of the cards they are prices of. */
  predicate Readable(latest: map<AssetId, TrustedPrice>, assets: map<AssetId, Asset>) {
    latest.Keys <= assets.Keys && forall a :: a in latest ==> latest[a].price > 0
  }

  // ---------------------------------------------------------------------------
  // The median of a class
  // ---------------------------------------------------------------------------

  /** The join of a card to a bucket. A rating that is NULL equals nothing, not even another NULL. */
  predicate SameClass(a: Asset, b: Asset) {
    a.rarity == b.rarity && a.version == b.version && a.rating.Some? && a.rating == b.rating
  }

  /** The cards a card is measured against: its class, less those resting on the floor. */
  function Bucket(latest: map<AssetId, TrustedPrice>, assets: map<AssetId, Asset>, a: AssetId): set<AssetId>
    requires latest.Keys <= assets.Keys && a in latest
  {
    set b | b in latest && !latest[b].atFloor && SameClass(assets[a], assets[b])
  }

  ghost predicate CheaperFirst(latest: map<AssetId, TrustedPrice>, x: AssetId, y: AssetId)
    requires x in latest && y in latest
  {
    latest[x].price < latest[y].price || (latest[x].price == latest[y].price && x < y)
  }

  ghost function ByPrice(latest: map<AssetId, TrustedPrice>): (AssetId, AssetId) -> bool {
    (x, y) => x in latest && y in latest && CheaperFirst(latest, x, y)
  }

  lemma ByPriceSettles(latest: map<AssetId, TrustedPrice>, s: set<AssetId>)
    requires s <= latest.Keys
    ensures Settles(s, ByPrice(latest))
  {
  }

  ghost function Cheapest(latest: map<AssetId, TrustedPrice>, s: set<AssetId>): (list: seq<AssetId>)
    requires s <= latest.Keys
    ensures |list| == |s| && NoDuplicates(list) && (forall x :: x in list <==> x in s)
    ensures forall i :: 0 <= i < |list| ==> list[i] in s
    ensures forall i, j :: 0 <= i < j < |list| ==> latest[list[i]].price <= latest[list[j]].price
  {
    ByPriceSettles(latest, s);
    var list := Sort(s, ByPrice(latest));
    assert forall i, j :: 0 <= i < j < |list| ==> ByPrice(latest)(list[i], list[j]);
    list
  }

  ghost function Prices(latest: map<AssetId, TrustedPrice>, s: set<AssetId>): (prices: seq<int>)
    requires s <= latest.Keys
    ensures |prices| == |s| && forall i, j :: 0 <= i < j < |prices| ==> prices[i] <= prices[j]
  {
    var list := Cheapest(latest, s);
    seq(|list|, i requires 0 <= i < |list| => latest[list[i]].price)
  }

  /** How far along a list of n + 1 rows a fraction lies. */
  function RowAt(n: nat, fraction: real): (row: real)
    requires 0.0 <= fraction <= 1.0
    ensures 0.0 <= row <= n as real
    ensures row.Floor <= n && (row.Floor == n ==> row == n as real)
  {
    var last := n as real;
    Scaled(fraction, last);
    fraction * last
  }

  lemma Scaled(fraction: real, n: real)
    requires 0.0 <= fraction <= 1.0 && n >= 0.0
    ensures 0.0 <= fraction * n <= n
  {
    assert fraction * n >= 0.0;
    assert (1.0 - fraction) * n >= 0.0;
    assert (1.0 - fraction) * n == n - fraction * n;
  }

  /** PERCENTILE_CONT over an ascending list: linear between the two rows around the one asked for. */
  function PercentileCont(prices: seq<int>, fraction: real): real
    requires prices != [] && 0.0 <= fraction <= 1.0
  {
    var row := RowAt(|prices| - 1, fraction);
    var below := row.Floor;
    var above := if row == below as real then below else below + 1;
    prices[below] as real + (row - below as real) * (prices[above] - prices[below]) as real
  }

  /** Half way along a list: its middle row, or half way between its two middle rows. */
  lemma MedianIsTheMiddle(prices: seq<int>)
    requires prices != []
    ensures PercentileCont(prices, 0.5) == (prices[(|prices| - 1) / 2] + prices[|prices| / 2]) as real / 2.0
  {
    var n := |prices| - 1;
    var row := 0.5 * n as real;
    assert row == n as real / 2.0;
    if n % 2 == 0 {
      assert n == 2 * (n / 2);
      assert row == (n / 2) as real && row.Floor == n / 2;
    } else {
      assert n == 2 * (n / 2) + 1;
      assert row == (n / 2) as real + 0.5 && row.Floor == n / 2;
    }
  }

  ghost function Median(latest: map<AssetId, TrustedPrice>, s: set<AssetId>): real
    requires s <= latest.Keys && s != {}
  {
    PercentileCont(Prices(latest, s), 0.5)
  }

  /** A listing of the cards by price, cheapest first. */
  ghost predicate ListsByPrice(latest: map<AssetId, TrustedPrice>, s: set<AssetId>, list: seq<AssetId>) {
    && NoDuplicates(list) && (forall a :: a in list <==> a in s) && (forall i :: 0 <= i < |list| ==> list[i] in latest)
    && forall i, j :: 0 <= i < j < |list| ==> latest[list[i]].price <= latest[list[j]].price
  }

  /** Half way between the two middle prices of such a listing, or the one in the middle. */
  ghost predicate IsMiddle(latest: map<AssetId, TrustedPrice>, s: set<AssetId>, level: real) {
    exists list :: list != [] && ListsByPrice(latest, s, list)
                   && 2.0 * level == (latest[list[(|list| - 1) / 2]].price + latest[list[|list| / 2]].price) as real
  }

  lemma MedianIsMiddle(latest: map<AssetId, TrustedPrice>, s: set<AssetId>)
    requires s <= latest.Keys && s != {}
    ensures IsMiddle(latest, s, Median(latest, s))
  {
    hide PercentileCont, NoDuplicates;
    var list, prices := Cheapest(latest, s), Prices(latest, s);
    MedianIsTheMiddle(prices);
    var lo, hi := (|s| - 1) / 2, |s| / 2;
    assert prices[lo] == latest[list[lo]].price && prices[hi] == latest[list[hi]].price;
    MiddleOfAListing(latest, s, list, Median(latest, s));
  }

  lemma MiddleOfAListing(latest: map<AssetId, TrustedPrice>, s: set<AssetId>, list: seq<AssetId>, level: real)
    requires list != [] && ListsByPrice(latest, s, list)
    requires level == (latest[list[(|list| - 1) / 2]].price + latest[list[|list| / 2]].price) as real / 2.0
    ensures IsMiddle(latest, s, level)
  {
    hide ListsByPrice;
  }

  function AtMost(latest: map<AssetId, TrustedPrice>, s: set<AssetId>, level: real): set<AssetId> {
    set a | a in s && a in latest && latest[a].price as real <= level
  }

  function AtLeast(latest: map<AssetId, TrustedPrice>, s: set<AssetId>, level: real): set<AssetId> {
    set a | a in s && a in latest && latest[a].price as real >= level
  }

  /** A run of a duplicate-free list has as many members as places. */
  lemma RunOf<T>(list: seq<T>, lo: nat, hi: nat, s: set<T>)
    requires NoDuplicates(list) && lo <= hi <= |list|
    requires forall i :: lo <= i < hi ==> list[i] in s
    ensures hi - lo <= |s|
  {
    DistinctCount(list[lo..hi]);
    forall x | x in list[lo..hi]
      ensures x in s
    {
      var i :| 0 <= i < hi - lo && list[lo..hi][i] == x;
      assert x == list[lo + i];
    }
    SmallerSet(Members(list[lo..hi]), s);
  }

  lemma MedianIsBetween(latest: map<AssetId, TrustedPrice>, s: set<AssetId>)
    requires s <= latest.Keys && s != {}
    ensures var list := Cheapest(latest, s);
            && list[(|s| - 1) / 2] in s && list[|s| / 2] in s
            && latest[list[(|s| - 1) / 2]].price as real <= Median(latest, s) <= latest[list[|s| / 2]].price as real
  {
    hide PercentileCont, NoDuplicates;
    MiddleIsBetween(Prices(latest, s));
  }

  lemma MiddleIsBetween(prices: seq<int>)
    requires prices != [] && forall i, j :: 0 <= i < j < |prices| ==> prices[i] <= prices[j]
    ensures prices[(|prices| - 1) / 2] as real <= PercentileCont(prices, 0.5) <= prices[|prices| / 2] as real
  {
    MedianIsTheMiddle(prices);
    HalfWay(prices[(|prices| - 1) / 2], prices[|prices| / 2]);
  }

  lemma HalfWay(a: int, b: int)
    requires a <= b
    ensures a as real <= (a + b) as real / 2.0 <= b as real
  {
  }

  /** A level between the two middle prices of an ascending list splits it in halves. */
  lemma HalvesOf(latest: map<AssetId, TrustedPrice>, s: set<AssetId>, list: seq<AssetId>, level: real)
    requires s <= latest.Keys && s != {} && |list| == |s| && NoDuplicates(list) && (forall x :: x in list <==> x in s)
    requires forall i :: 0 <= i < |list| ==> list[i] in s
    requires forall i, j :: 0 <= i < j < |list| ==> latest[list[i]].price <= latest[list[j]].price
    requires latest[list[(|s| - 1) / 2]].price as real <= level <= latest[list[|s| / 2]].price as real
    ensures 2 * |AtMost(latest, s, level)| >= |s| && 2 * |AtLeast(latest, s, level)| >= |s|
  {
    RunOf(list, 0, (|s| - 1) / 2 + 1, AtMost(latest, s, level));
    RunOf(list, |s| / 2, |s|, AtLeast(latest, s, level));
  }

  /** Half of the cards cost the median or less, and half cost it or more. */
  lemma HalfOnEachSide(latest: map<AssetId, TrustedPrice>, s: set<AssetId>)
    requires s <= latest.Keys && s != {}
    ensures 2 * |AtMost(latest, s, Median(latest, s))| >= |s|
    ensures 2 * |AtLeast(latest, s, Median(latest, s))| >= |s|
    ensures (forall a :: a in s ==> latest[a].price > 0) ==> Median(latest, s) > 0.0
  {
    MedianIsBetween(latest, s);
    HalvesOf(latest, s, Cheapest(latest, s), Median(latest, s));
  }

  // ---------------------------------------------------------------------------
  // The ranking
  // ---------------------------------------------------------------------------

  /** Fewer than this many cards say nothing about a class. */
  const SMALLEST_CLASS: nat := 5

  datatype ClassValue = ClassValue(
    asset: AssetId, name: string, price: int, median: Option<real>, classSize: Option<nat>, ratio: Option<real>,
    atFloor: bool)

  ghost function ValueOf(latest: map<AssetId, TrustedPrice>, assets: map<AssetId, Asset>, a: AssetId): ClassValue
    requires Readable(latest, assets) && a in latest
  {
    var bucket := Bucket(latest, assets, a);
    var median := if bucket == {} then None else Some(Median(latest, bucket));
    HalfIsPositive(latest, bucket);
    ClassValue(a, assets[a].name, latest[a].price, median, if bucket == {} then None else Some(|bucket|),
               if |bucket| >= SMALLEST_CLASS then Some(latest[a].price as real / median.value) else None,
               latest[a].atFloor)
  }

  lemma HalfIsPositive(latest: map<AssetId, TrustedPrice>, s: set<AssetId>)
    requires s <= latest.Keys && forall a :: a in s ==> latest[a].price > 0
    ensures s != {} ==> Median(latest, s) > 0.0
  {
    if s != {} {
      HalfOnEachSide(latest, s);
    }
  }

  /** NULLS LAST. */
  predicate CheaperRatio(x: Option<real>, y: Option<real>) { x.Some? && (y.Some? ==> x.value < y.value) }

  /** Off the floor first, then by ratio with the missing last, then by name, then by identifier. */
  predicate RankedBefore(x: ClassValue, y: ClassValue) {
    if x.atFloor != y.atFloor then y.atFloor
    else if x.ratio != y.ratio then CheaperRatio(x.ratio, y.ratio)
    else if x.name != y.name then TextLess(x.name, y.name)
    else x.asset < y.asset
  }

  lemma RankingIsTransitive(x: ClassValue, y: ClassValue, z: ClassValue)
    requires RankedBefore(x, y) && RankedBefore(y, z)
    ensures RankedBefore(x, z)
  {
    if x.name != y.name && y.name != z.name && TextLess(x.name, y.name) && TextLess(y.name, z.name) {
      TextOrderIsTransitive(x.name, y.name, z.name);
      TextOrderIsTotal(x.name, z.name);
    }
  }

  lemma RankingIsTotal(x: ClassValue, y: ClassValue)
    ensures x.asset != y.asset ==> RankedBefore(x, y) || RankedBefore(y, x)
    ensures !(RankedBefore(x, y) && RankedBefore(y, x))
  {
    TextOrderIsTotal(x.name, y.name);
  }

  ghost function ByRank(latest: map<AssetId, TrustedPrice>, assets: map<AssetId, Asset>): (AssetId, AssetId) -> bool
    requires Readable(latest, assets)
  {
    (x, y) => x in latest && y in latest && RankedBefore(ValueOf(latest, assets, x), ValueOf(latest, assets, y))
  }

  lemma ByRankSettles(latest: map<AssetId, TrustedPrice>, assets: map<AssetId, Asset>)
    requires Readable(latest, assets)
    ensures Settles(latest.Keys, ByRank(latest, assets))
  {
    forall x, y | x in latest && y in latest
      ensures !ByRank(latest, assets)(x, x)
      ensures x != y ==> ByRank(latest, assets)(x, y) || ByRank(latest, assets)(y, x)
    {
      RankingIsTotal(ValueOf(latest, assets, x), ValueOf(latest, assets, y));
      RankingIsTotal(ValueOf(latest, assets, x), ValueOf(latest, assets, x));
    }
    forall x, y, z | ByRank(latest, assets)(x, y) && ByRank(latest, assets)(y, z)
      ensures ByRank(latest, assets)(x, z)
    {
      RankingIsTransitive(ValueOf(latest, assets, x), ValueOf(latest, assets, y), ValueOf(latest, assets, z));
    }
  }

  function FirstOf<T>(list: seq<T>, limit: nat): seq<T> { if limit < |list| then list[..limit] else list }

  /** The trusted cards in the order of the ranking. */
  ghost function RankedAssets(latest: map<AssetId, TrustedPrice>, assets: map<AssetId, Asset>): (ids: seq<AssetId>)
    requires Readable(latest, assets)
    ensures |ids| == |latest| && NoDuplicates(ids) && forall a :: a in ids <==> a in latest
    ensures forall i :: 0 <= i < |ids| ==> ids[i] in latest
    ensures Ordered(ids, ByRank(latest, assets))
  {
    ByRankSettles(latest, assets);
    assert |latest.Keys| == |latest|;
    Sort(latest.Keys, ByRank(latest, assets))
  }

  ghost function Rows(latest: map<AssetId, TrustedPrice>, assets: map<AssetId, Asset>, ids: seq<AssetId>): (rows: seq<ClassValue>)
    requires Readable(latest, assets) && forall i :: 0 <= i < |ids| ==> ids[i] in latest
    ensures |rows| == |ids|
    ensures forall i :: 0 <= i < |ids| ==> rows[i].asset == ids[i]
  {
    seq(|ids|, i requires 0 <= i < |ids| => ValueOf(latest, assets, ids[i]))
  }

  /** One market's trusted cards, ranked. */
  ghost function Ranking(latest: map<AssetId, TrustedPrice>, assets: map<AssetId, Asset>): seq<ClassValue>
    requires Readable(latest, assets)
  {
    Rows(latest, assets, RankedAssets(latest, assets))
  }

  /** The query: the ranking, cut at the limit. */
  ghost function ClassMedian(latest: map<AssetId, TrustedPrice>, assets: map<AssetId, Asset>, limit: nat): seq<ClassValue>
    requires Readable(latest, assets)
  {
    FirstOf(Ranking(latest, assets), limit)
  }

  lemma RowsAreRanked(latest: map<AssetId, TrustedPrice>, assets: map<AssetId, Asset>, i: nat, j: nat)
    requires Readable(latest, assets) && i < j < |latest|
    ensures var rows := Ranking(latest, assets); RankedBefore(rows[i], rows[j])
  {
    var ids := RankedAssets(latest, assets);
    assert ByRank(latest, assets)(ids[i], ids[j]);
  }

  // ---------------------------------------------------------------------------
  // What the ranking promises
  // ---------------------------------------------------------------------------

  ghost predicate InRankOrder(rows: seq<ClassValue>) {
    forall i, j :: 0 <= i < j < |rows| ==> RankedBefore(rows[i], rows[j])
  }

  lemma RankedCardsAreOnRecord(latest: map<AssetId, TrustedPrice>, assets: map<AssetId, Asset>, limit: nat)
    requires Readable(latest, assets)
    ensures var rows := ClassMedian(latest, assets, limit); forall i :: 0 <= i < |rows| ==> rows[i].asset in assets
  {
    var ids := RankedAssets(latest, assets);
    forall i | 0 <= i < |ClassMedian(latest, assets, limit)|
      ensures ClassMedian(latest, assets, limit)[i].asset in assets
    {
      assert ClassMedian(latest, assets, limit)[i].asset == ids[i];
    }
  }

  lemma RankingIsOrdered(latest: map<AssetId, TrustedPrice>, assets: map<AssetId, Asset>)
    requires Readable(latest, assets)
    ensures InRankOrder(Ranking(latest, assets)) && |Ranking(latest, assets)| == |latest|
  {
    forall i, j | 0 <= i < j < |latest|
      ensures var rows := Ranking(latest, assets); RankedBefore(rows[i], rows[j])
    {
      RowsAreRanked(latest, assets, i, j);
    }
  }

  lemma EveryCardIsRanked(latest: map<AssetId, TrustedPrice>, assets: map<AssetId, Asset>)
    requires Readable(latest, assets)
    ensures var rows := Ranking(latest, assets);
            && (forall i, j :: 0 <= i < j < |rows| ==> rows[i].asset != rows[j].asset)
            && (forall a :: a in latest ==> exists i :: 0 <= i < |rows| && rows[i].asset == a)
  {
    var ids, rows := RankedAssets(latest, assets), Ranking(latest, assets);
    forall a | a in latest
      ensures exists i :: 0 <= i < |rows| && rows[i].asset == a
    {
      assert a in ids;
      var i :| 0 <= i < |ids| && ids[i] == a;
      assert rows[i].asset == a;
    }
  }

  /**
   * Whatever the limit the rows are strictly ordered, no card appears twice, and a
   * floored card is followed only by floored cards; a limit that is not reached
   * leaves no trusted card out.
   */
  lemma RankingIsComplete(latest: map<AssetId, TrustedPrice>, assets: map<AssetId, Asset>, limit: nat)
    requires Readable(latest, assets)
    ensures var rows := ClassMedian(latest, assets, limit);
            && InRankOrder(rows)
            && (forall i, j :: 0 <= i < j < |rows| ==> rows[i].asset != rows[j].asset)
            && (forall i, j :: 0 <= i < j < |rows| && rows[i].atFloor ==> rows[j].atFloor)
            && (|latest| <= limit ==>
                  |rows| == |latest| && forall a :: a in latest ==> exists i :: 0 <= i < |rows| && rows[i].asset == a)
  {
    RankingIsOrdered(latest, assets);
    EveryCardIsRanked(latest, assets);
    CutKeepsOrder(Ranking(latest, assets), limit);
  }

  lemma CutKeepsOrder(all: seq<ClassValue>, limit: nat)
    requires InRankOrder(all) && forall i, j :: 0 <= i < j < |all| ==> all[i].asset != all[j].asset
    ensures var rows := FirstOf(all, limit);
            && InRankOrder(rows)
            && (forall i, j :: 0 <= i < j < |rows| ==> rows[i].asset != rows[j].asset)
            && (forall i, j :: 0 <= i < j < |rows| && rows[i].atFloor ==> rows[j].atFloor)
  {
    var rows := FirstOf(all, limit);
    forall i, j | 0 <= i < j < |rows|
      ensures RankedBefore(rows[i], rows[j]) && rows[i].asset != rows[j].asset
      ensures rows[i].atFloor ==> rows[j].atFloor
    {
      assert rows[i] == all[i] && rows[j] == all[j];
      assert RankedBefore(all[i], all[j]);
    }
  }

  /** The ranking has a row for every trusted card of the market, floored or not, and no other row. */
  lemma RankingCoversTheMarket(table: map<Pair, TrustedPrice>, assets: map<AssetId, Asset>, market: MarketId, a: AssetId)
    requires Readable(Latest(table, assets, market), assets)
    ensures var rows := Ranking(Latest(table, assets, market), assets);
            && ((exists i :: 0 <= i < |rows| && rows[i].asset == a) <==> Pair(a, market) in table && a in assets)
            && forall i :: 0 <= i < |rows| && rows[i].asset == a ==>
                 Pair(a, market) in table
                 && rows[i].price == table[Pair(a, market)].price && rows[i].atFloor == table[Pair(a, market)].atFloor
  {
    hide Ranking, ValueOf;
    var latest := Latest(table, assets, market);
    EveryCardIsRanked(latest, assets);
    forall i | 0 <= i < |Ranking(latest, assets)|
      ensures var v := Ranking(latest, assets)[i];
              v.asset in latest && v.price == latest[v.asset].price && v.atFloor == latest[v.asset].atFloor
    {
      var b := RankedAt(latest, assets, i);
      ValueIsMeasured(latest, assets, b);
    }
    assert Pair(a, market) in table && a in assets <==> a in latest;
  }

  lemma RankedAt(latest: map<AssetId, TrustedPrice>, assets: map<AssetId, Asset>, j: nat) returns (a: AssetId)
    requires Readable(latest, assets) && j < |Ranking(latest, assets)|
    ensures a in latest && Ranking(latest, assets)[j] == ValueOf(latest, assets, a)
  {
    a := RankedAssets(latest, assets)[j];
  }

  /** The members of a card's bucket whose ratio is at most one, and at least one. */
  ghost function CheapMembers(latest: map<AssetId, TrustedPrice>, assets: map<AssetId, Asset>, a: AssetId): set<AssetId>
    requires Readable(latest, assets) && a in latest
  {
    set b | b in Bucket(latest, assets, a)
            && ValueOf(latest, assets, b).ratio.Some? && ValueOf(latest, assets, b).ratio.value <= 1.0
  }

  ghost function DearMembers(latest: map<AssetId, TrustedPrice>, assets: map<AssetId, Asset>, a: AssetId): set<AssetId>
    requires Readable(latest, assets) && a in latest
  {
    set b | b in Bucket(latest, assets, a)
            && ValueOf(latest, assets, b).ratio.Some? && ValueOf(latest, assets, b).ratio.value >= 1.0
  }

  lemma RatioAgainstOne(price: real, median: real)
    requires median > 0.0
    ensures price / median <= 1.0 <==> price <= median
    ensures price / median >= 1.0 <==> price >= median
  {
    assert price == (price / median) * median;
  }

  lemma MemberRatio(latest: map<AssetId, TrustedPrice>, assets: map<AssetId, Asset>, a: AssetId, b: AssetId)
    requires Readable(latest, assets) && a in latest && b in Bucket(latest, assets, a)
    requires |Bucket(latest, assets, a)| >= SMALLEST_CLASS
    ensures var median := Median(latest, Bucket(latest, assets, a));
            && median > 0.0 && ValueOf(latest, assets, b).ratio == Some(latest[b].price as real / median)
  {
    assert Bucket(latest, assets, b) == Bucket(latest, assets, a);
    HalfIsPositive(latest, Bucket(latest, assets, a));
  }

  /** In a class of five or more cards off the floor, at least half have a ratio of one or less, and half of one or more. */
  lemma MiddleOfTheClass(latest: map<AssetId, TrustedPrice>, assets: map<AssetId, Asset>, a: AssetId)
    requires Readable(latest, assets) && a in latest && |Bucket(latest, assets, a)| >= SMALLEST_CLASS
    ensures 2 * |CheapMembers(latest, assets, a)| >= |Bucket(latest, assets, a)|
    ensures 2 * |DearMembers(latest, assets, a)| >= |Bucket(latest, assets, a)|
  {
    var bucket := Bucket(latest, assets, a);
    var median := Median(latest, bucket);
    HalfOnEachSide(latest, bucket);
    forall b | b in bucket
      ensures b in AtMost(latest, bucket, median) ==> b in CheapMembers(latest, assets, a)
      ensures b in AtLeast(latest, bucket, median) ==> b in DearMembers(latest, assets, a)
    {
      MemberRatio(latest, assets, a, b);
      RatioAgainstOne(latest[b].price as real, median);
    }
    SmallerSet(AtMost(latest, bucket, median), CheapMembers(latest, assets, a));
    SmallerSet(AtLeast(latest, bucket, median), DearMembers(latest, assets, a));
  }

  /** The trusted cards off the floor that share a card's rarity, version and rating, the unrated among themselves. */
  function Peers(latest: map<AssetId, TrustedPrice>, assets: map<AssetId, Asset>, a: AssetId): set<AssetId>
    requires latest.Keys <= assets.Keys && a in latest
  {
    set b | b in latest && !latest[b].atFloor && assets[b].rarity == assets[a].rarity
            && assets[b].version == assets[a].version && assets[b].rating == assets[a].rating
  }

  /**
   * A ratio is missing if and only if the card has no rating or fewer than five cards
   * off the floor share its rarity, version and rating; a median if and only if it has
   * no rating or none does.
   */
  lemma RatioMissingIff(latest: map<AssetId, TrustedPrice>, assets: map<AssetId, Asset>, a: AssetId)
    requires Readable(latest, assets) && a in latest
    ensures var v, peers := ValueOf(latest, assets, a), Peers(latest, assets, a);
            && (v.ratio.None? <==> assets[a].rating.None? || |peers| < SMALLEST_CLASS)
            && (v.median.None? <==> assets[a].rating.None? || peers == {})
            && (v.classSize.Some? ==> v.classSize.value == |peers|)
  {
    if assets[a].rating.None? {
      assert Bucket(latest, assets, a) == {};
    } else {
      assert Bucket(latest, assets, a) == Peers(latest, assets, a);
    }
  }

  /**
   * A row says its card's own price and floor; its median is the middle of the prices of
   * the card's peers, and its ratio times that median is the price.
   */
  lemma ValueIsMeasured(latest: map<AssetId, TrustedPrice>, assets: map<AssetId, Asset>, a: AssetId)
    requires Readable(latest, assets) && a in latest
    ensures var v := ValueOf(latest, assets, a);
            && v.asset == a && v.name == assets[a].name
            && v.price == latest[a].price && v.atFloor == latest[a].atFloor
            && (v.median.Some? ==> v.median.value > 0.0 && IsMiddle(latest, Peers(latest, assets, a), v.median.value))
            && (v.ratio.Some? ==> v.median.Some? && v.ratio.value * v.median.value == latest[a].price as real)
  {
    hide IsMiddle, Median, Peers;
    var bucket := Bucket(latest, assets, a);
    if bucket != {} {
      BucketIsPeers(latest, assets, a);
      HalfIsPositive(latest, bucket);
      MedianIsMiddle(latest, bucket);
      TimesDivided(latest[a].price as real, Median(latest, bucket));
    }
  }

  lemma BucketIsPeers(latest: map<AssetId, TrustedPrice>, assets: map<AssetId, Asset>, a: AssetId)
    requires latest.Keys <= assets.Keys && a in latest && Bucket(latest, assets, a) != {}
    ensures Bucket(latest, assets, a) == Peers(latest, assets, a)
  {
  }

  lemma TimesDivided(price: real, median: real)
    requires median > 0.0
    ensures price / median * median == price
  {
  }

  /**
   * The order of the answer, on the cards' own prices and names. Those off the floor come
   * first. Of two on one side of it the smaller ratio comes first and a missing one last,
   * and two of one ratio go by name and then by identifier.
   */
  lemma RankingIsByRatio(latest: map<AssetId, TrustedPrice>, assets: map<AssetId, Asset>, limit: nat, i: nat, j: nat)
    requires Readable(latest, assets) && i < j < |ClassMedian(latest, assets, limit)|
    ensures var rows := ClassMedian(latest, assets, limit);
            var a, b := rows[i].asset, rows[j].asset;
            && a in latest && b in latest
            && (latest[a].atFloor ==> latest[b].atFloor)
            && (latest[a].atFloor == latest[b].atFloor ==>
                  && (rows[j].ratio.Some? ==> rows[i].ratio.Some? && rows[i].ratio.value <= rows[j].ratio.value)
                  && (rows[i].ratio == rows[j].ratio ==>
                        !TextLess(assets[b].name, assets[a].name) && (assets[a].name == assets[b].name ==> a < b)))
  {
    hide Median;
    var ids, rows := RankedAssets(latest, assets), Ranking(latest, assets);
    RowsAreRanked(latest, assets, i, j);
    assert rows[i] == ValueOf(latest, assets, ids[i]) && rows[j] == ValueOf(latest, assets, ids[j]);
    TextOrderIsTotal(rows[i].name, rows[j].name);
  }

  /** Five cards of one rarity and version, all unrated and all off the floor: no ratio, although the class is not thin. */
  lemma FiveUnratedCards(price: TrustedPrice) returns (latest: map<AssetId, TrustedPrice>, assets: map<AssetId, Asset>)
    requires price.price > 0 && !price.atFloor
    ensures Readable(latest, assets) && 0 in latest
    ensures |Peers(latest, assets, 0)| == SMALLEST_CLASS && ValueOf(latest, assets, 0).ratio.None?
  {
    var ids: set<AssetId> := {0, 1, 2, 3, 4};
    latest := map a | a in ids :: price;
    assets := map a | a in ids :: Asset(0, "", None, Rare, BASE_VERSION, None);
    assert Peers(latest, assets, 0) == ids;
    RatioMissingIff(latest, assets, 0);
  }

  /** The ORDER BY settles every tie: the database has one listing to return. */
  lemma RankingIsSettled(latest: map<AssetId, TrustedPrice>, assets: map<AssetId, Asset>, ids: seq<AssetId>)
    requires Readable(latest, assets)
    ensures MayBeReturned(latest.Keys, ByRank(latest, assets), ids) <==> ids == RankedAssets(latest, assets)
  {
    ByRankSettles(latest, assets);
    TheOrderIsSettled(latest.Keys, ByRank(latest, assets), ids);
  }
}
