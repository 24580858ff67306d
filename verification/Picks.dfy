/** The claims a run writes down, and what makes them reproducible. */
module Picks {
  import opened Domain
  import opened Machine
  import opened Trust
  import opened Valuation

  /** Off the floor, and measured against a class. */
  predicate Eligible(v: ClassValue) { !v.atFloor && v.ratio.Some? }

  function Eligibles(rows: seq<ClassValue>): (kept: seq<ClassValue>)
    ensures forall v :: v in kept <==> v in rows && Eligible(v)
  {
    if rows == [] then []
    else Eligibles(rows[..|rows| - 1]) + (if Eligible(rows[|rows| - 1]) then [rows[|rows| - 1]] else [])
  }

  function PicksOf(rows: seq<ClassValue>, topN: nat): seq<ClassValue> { FirstOf(Eligibles(rows), topN) }

  /** How many rows the ranking is asked for. */
  const ROWS_PER_PICK: nat := 20

  // ---------------------------------------------------------------------------
  // The row cap
  // ---------------------------------------------------------------------------

  /** In rank order the eligible cards come first. */
  lemma {:induction false} EligiblesAreAPrefix(rows: seq<ClassValue>)
    requires InRankOrder(rows)
    ensures var kept := Eligibles(rows); |kept| <= |rows| && kept == rows[..|kept|]
  {
    if rows != [] {
      var init, last := rows[..|rows| - 1], rows[|rows| - 1];
      EligiblesAreAPrefix(init);
      if Eligible(last) {
        EligibleBefore(rows);
        AllEligible(rows);
      }
    }
  }

  lemma EligibleBefore(rows: seq<ClassValue>)
    requires InRankOrder(rows) && rows != [] && Eligible(rows[|rows| - 1])
    ensures forall i :: 0 <= i < |rows| ==> Eligible(rows[i])
  {
    forall i | 0 <= i < |rows| - 1
      ensures Eligible(rows[i])
    {
      assert RankedBefore(rows[i], rows[|rows| - 1]);
    }
  }

  lemma {:induction false} AllEligible(rows: seq<ClassValue>)
    requires forall i :: 0 <= i < |rows| ==> Eligible(rows[i])
    ensures Eligibles(rows) == rows
  {
    if rows != [] {
      AllEligible(rows[..|rows| - 1]);
      assert rows == rows[..|rows| - 1] + [rows[|rows| - 1]];
    }
  }

  lemma EligiblesOfAPrefix(rows: seq<ClassValue>, cap: nat)
    requires InRankOrder(rows)
    ensures Eligibles(FirstOf(rows, cap)) == FirstOf(Eligibles(rows), cap)
  {
    EligiblesAreAPrefix(rows);
    if cap < |rows| {
      var all, some := Eligibles(rows), Eligibles(rows[..cap]);
      EligiblesAreAPrefix(rows[..cap]);
      if |all| < |rows| {
        assert !Eligible(rows[|all|]) by { NextIsNotEligible(rows); }
      }
      if |some| < cap {
        assert !Eligible(rows[..cap][|some|]) by { NextIsNotEligible(rows[..cap]); }
      }
      PrefixMembers(rows, |all|);
      PrefixMembers(rows[..cap], |some|);
    }
  }

  lemma PrefixMembers(rows: seq<ClassValue>, n: nat)
    requires n <= |rows| && Eligibles(rows) == rows[..n]
    ensures forall i :: 0 <= i < n ==> Eligible(rows[i])
  {
    forall i | 0 <= i < n
      ensures Eligible(rows[i])
    {
      assert rows[..n][i] in Eligibles(rows);
    }
  }

  lemma {:induction false} NextIsNotEligible(rows: seq<ClassValue>)
    requires InRankOrder(rows) && |Eligibles(rows)| < |rows|
    ensures !Eligible(rows[|Eligibles(rows)|])
  {
    var init, last := rows[..|rows| - 1], rows[|rows| - 1];
    EligiblesAreAPrefix(rows);
    EligiblesAreAPrefix(init);
    if |Eligibles(init)| < |init| {
      NextIsNotEligible(init);
      assert RankedBefore(init[|Eligibles(init)|], last);
    }
  }

  /** Cutting an ordered list no shorter than the picks wanted leaves the picks. */
  lemma CutThenPick(rows: seq<ClassValue>, cap: nat, topN: nat)
    requires InRankOrder(rows) && topN <= cap
    ensures PicksOf(FirstOf(rows, cap), topN) == PicksOf(rows, topN)
  {
    EligiblesOfAPrefix(rows, cap);
  }

  /** The cap on the rows read never costs a pick. */
  lemma TheCapCostsNothing(latest: map<AssetId, TrustedPrice>, assets: map<AssetId, Asset>, topN: nat)
    requires Readable(latest, assets)
    ensures PicksOf(ClassMedian(latest, assets, topN * ROWS_PER_PICK), topN) == PicksOf(Ranking(latest, assets), topN)
  {
    RankingIsOrdered(latest, assets);
    CutThenPick(Ranking(latest, assets), topN * ROWS_PER_PICK, topN);
  }

  // ---------------------------------------------------------------------------
  // What is picked
  // ---------------------------------------------------------------------------

  /** Off the floor, rated, and with four peers off the floor besides: a card whose price can be set against its class. */
  predicate Comparable(latest: map<AssetId, TrustedPrice>, assets: map<AssetId, Asset>, a: AssetId)
    requires latest.Keys <= assets.Keys && a in latest
  {
    !latest[a].atFloor && assets[a].rating.Some? && |Peers(latest, assets, a)| >= 5
  }

  predicate Picked(picks: seq<ClassValue>, a: AssetId) { exists i :: 0 <= i < |picks| && picks[i].asset == a }

  lemma EligibleIffComparable(latest: map<AssetId, TrustedPrice>, assets: map<AssetId, Asset>, a: AssetId)
    requires Readable(latest, assets) && a in latest
    ensures Eligible(ValueOf(latest, assets, a)) <==> Comparable(latest, assets, a)
  {
    hide Median, Peers;
    RatioMissingIff(latest, assets, a);
  }

  /** Where a card stands in the ranking, and whether it is picked from there. */
  lemma PlaceOf(latest: map<AssetId, TrustedPrice>, assets: map<AssetId, Asset>, topN: nat, a: AssetId) returns (i: nat)
    requires Readable(latest, assets) && a in latest
    ensures var rows, picks := Ranking(latest, assets), PicksOf(Ranking(latest, assets), topN);
            && i < |rows| && rows[i] == ValueOf(latest, assets, a)
            && (Picked(picks, a) <==> i < |picks|) && |picks| <= topN
            && (Comparable(latest, assets, a) <==> i < |Eligibles(rows)|)
            && |picks| == (if topN < |Eligibles(rows)| then topN else |Eligibles(rows)|)
  {
    hide ValueOf, Comparable, RankedBefore, Eligible, Eligibles, Ranking, Readable;
    var rows := Ranking(latest, assets);
    RankingIsOrdered(latest, assets);
    i := RowOf(latest, assets, a);
    EligibleIffComparable(latest, assets, a);
    EligibleIffEarly(rows, i);
    PickedIffEarly(rows, topN, i);
  }

  lemma RowOf(latest: map<AssetId, TrustedPrice>, assets: map<AssetId, Asset>, a: AssetId) returns (i: nat)
    requires Readable(latest, assets) && a in latest
    ensures var rows := Ranking(latest, assets);
            && i < |rows| && rows[i] == ValueOf(latest, assets, a) && rows[i].asset == a
            && forall j, k :: 0 <= j < k < |rows| ==> rows[j].asset != rows[k].asset
  {
    hide ValueOf, RankedAssets;
    EveryCardIsRanked(latest, assets);
    var rows := Ranking(latest, assets);
    i :| 0 <= i < |rows| && rows[i].asset == a;
    assert RankedAssets(latest, assets)[i] == a;
  }

  lemma PickedIffEarly(rows: seq<ClassValue>, topN: nat, i: nat)
    requires InRankOrder(rows) && i < |rows|
    requires forall j, k :: 0 <= j < k < |rows| ==> rows[j].asset != rows[k].asset
    ensures var picks := PicksOf(rows, topN);
            && (Picked(picks, rows[i].asset) <==> i < |picks|)
            && |picks| == (if topN < |Eligibles(rows)| then topN else |Eligibles(rows)|)
  {
    EligiblesAreAPrefix(rows);
    var picks := PicksOf(rows, topN);
    assert forall j :: 0 <= j < |picks| ==> picks[j] == rows[j];
    if i < |picks| {
      assert picks[i].asset == rows[i].asset;
    }
  }

  lemma EligibleIffEarly(rows: seq<ClassValue>, i: nat)
    requires InRankOrder(rows) && i < |rows|
    ensures Eligible(rows[i]) <==> i < |Eligibles(rows)|
  {
    EligiblesAreAPrefix(rows);
    PrefixMembers(rows, |Eligibles(rows)|);
    if i >= |Eligibles(rows)| {
      NextIsNotEligible(rows);
      assert i == |Eligibles(rows)| || RankedBefore(rows[|Eligibles(rows)|], rows[i]);
    }
  }

  lemma CrossMultiply(x: real, m: real, y: real, n: real, p: real, q: real)
    requires m > 0.0 && n > 0.0 && x * m == p && y * n == q && x <= y
    ensures p * n <= q * m
  {
    assert p * n == x * (m * n) && q * m == y * (m * n);
    assert m * n > 0.0;
  }

  /**
   * Every pick can be set against its class, and a card that can be is left out only when
   * there are as many picks as were asked for and none of them costs more, each
   * measured by what its peers cost.
   */
  lemma PicksAreTheCheapest(latest: map<AssetId, TrustedPrice>, assets: map<AssetId, Asset>, topN: nat, a: AssetId, b: AssetId)
    requires Readable(latest, assets) && a in latest && b in latest
    ensures var picks := PicksOf(ClassMedian(latest, assets, topN * ROWS_PER_PICK), topN);
            && |picks| <= topN
            && (Picked(picks, a) ==> Comparable(latest, assets, a))
            && (Comparable(latest, assets, b) && !Picked(picks, b) ==> |picks| == topN)
            && (Picked(picks, a) && Comparable(latest, assets, a) && Comparable(latest, assets, b) && !Picked(picks, b) ==>
                  latest[a].price as real * Median(latest, Peers(latest, assets, b))
                  <= latest[b].price as real * Median(latest, Peers(latest, assets, a)))
  {
    hide Median, ClassMedian, Ranking, PicksOf, Eligibles, ValueOf, Peers;
    TheCapCostsNothing(latest, assets, topN);
    var i := PlaceOf(latest, assets, topN, a);
    var j := PlaceOf(latest, assets, topN, b);
    var picks := PicksOf(Ranking(latest, assets), topN);
    if Picked(picks, a) && Comparable(latest, assets, b) && !Picked(picks, b) {
      CheaperOf(latest, assets, a, b, i, j);
    }
  }

  /** Of two comparable cards the one ranked first costs no more against its class. */
  lemma CheaperOf(latest: map<AssetId, TrustedPrice>, assets: map<AssetId, Asset>, a: AssetId, b: AssetId, i: nat, j: nat)
    requires Readable(latest, assets) && a in latest && b in latest
    requires Comparable(latest, assets, a) && Comparable(latest, assets, b)
    requires var rows := Ranking(latest, assets);
             i < j < |rows| && rows[i] == ValueOf(latest, assets, a) && rows[j] == ValueOf(latest, assets, b)
    ensures latest[a].price as real * Median(latest, Peers(latest, assets, b))
            <= latest[b].price as real * Median(latest, Peers(latest, assets, a))
  {
    hide Median, Ranking;
    var rows := Ranking(latest, assets);
    assert ClassMedian(latest, assets, |rows|) == rows;
    RankingIsByRatio(latest, assets, |rows|, i, j);
    var x := RatioOfComparable(latest, assets, a);
    var y := RatioOfComparable(latest, assets, b);
    CrossMultiply(x, Median(latest, Peers(latest, assets, a)), y, Median(latest, Peers(latest, assets, b)),
                  latest[a].price as real, latest[b].price as real);
  }

  lemma RatioOfComparable(latest: map<AssetId, TrustedPrice>, assets: map<AssetId, Asset>, a: AssetId) returns (ratio: real)
    requires Readable(latest, assets) && a in latest && Comparable(latest, assets, a)
    ensures ValueOf(latest, assets, a).ratio == Some(ratio)
    ensures Median(latest, Peers(latest, assets, a)) > 0.0
    ensures ratio * Median(latest, Peers(latest, assets, a)) == latest[a].price as real
  {
    hide Median;
    assert Bucket(latest, assets, a) == Peers(latest, assets, a);
    HalfIsPositive(latest, Bucket(latest, assets, a));
    ratio := latest[a].price as real / Median(latest, Peers(latest, assets, a));
  }

  // ---------------------------------------------------------------------------
  // The claims table
  // ---------------------------------------------------------------------------

  datatype ClaimKey = ClaimKey(market: MarketId, asset: AssetId, claim: string, madeAt: Instant)

  datatype ClaimRow = ClaimRow(
    game: GameId, horizon: int, price: int, median: Option<real>, ratio: Option<real>, band: string, version: string)

  const UNDERVALUED: string := "undervalued"

  function RatingBand(rating: Option<int>): string {
    if rating.None? then "unrated"
    else if rating.value >= 90 then "90+"
    else if rating.value >= 86 then "86-89"
    else if rating.value >= 83 then "83-85"
    else if rating.value >= 80 then "80-82"
    else if rating.value >= 75 then "75-79"
    else "under-75"
  }

  /** Each name spells the ratings it covers, and every rating is covered once. */
  lemma RatingBandIs(rating: Option<int>)
    ensures var band := RatingBand(rating);
            && (band == "unrated" <==> rating.None?)
            && (band == "under-75" <==> rating.Some? && rating.value < 75)
            && (band == "75-79" <==> rating.Some? && 75 <= rating.value <= 79)
            && (band == "80-82" <==> rating.Some? && 80 <= rating.value <= 82)
            && (band == "83-85" <==> rating.Some? && 83 <= rating.value <= 85)
            && (band == "86-89" <==> rating.Some? && 86 <= rating.value <= 89)
            && (band == "90+" <==> rating.Some? && 90 <= rating.value)
  {
    assert |"unrated"| == 7 && |"under-75"| == 8 && |"75-79"| == 5 && |"90+"| == 3;
    assert "75-79"[0] == '7' && "80-82"[1] == '0' && "83-85"[1] == '3' && "86-89"[1] == '6';
    assert "80-82"[0] == "83-85"[0] == "86-89"[0] == '8';
  }

  /** One call of `record_picks`. */
  datatype Call = Call(game: GameId, market: MarketId, madeAt: Instant, horizon: int, topN: nat)

  function KeyOfPick(call: Call, v: ClassValue): ClaimKey { ClaimKey(call.market, v.asset, UNDERVALUED, call.madeAt) }

  function RowOfPick(call: Call, assets: map<AssetId, Asset>, v: ClassValue): ClaimRow
    requires v.asset in assets
  {
    var a := assets[v.asset];
    ClaimRow(call.game, call.horizon, v.price, v.median, v.ratio, RatingBand(a.rating), a.version)
  }

  predicate OnRecord(assets: map<AssetId, Asset>, rows: seq<ClassValue>) {
    forall i :: 0 <= i < |rows| ==> rows[i].asset in assets
  }

  /** INSERT ... ON CONFLICT DO NOTHING for each pick in turn. */
  function WithClaims(call: Call, assets: map<AssetId, Asset>, picks: seq<ClassValue>, table: map<ClaimKey, ClaimRow>)
    : map<ClaimKey, ClaimRow>
    requires OnRecord(assets, picks)
  {
    if picks == [] then table
    else
      var last := picks[|picks| - 1];
      var before := WithClaims(call, assets, picks[..|picks| - 1], table);
      if KeyOfPick(call, last) in before then before
      else before[KeyOfPick(call, last) := RowOfPick(call, assets, last)]
  }

  /** An old claim stays as it is, every pick has a claim, and a new claim is the row of a pick. */
  lemma {:induction false} WithClaimsIs(call: Call, assets: map<AssetId, Asset>, picks: seq<ClassValue>,
                                        table: map<ClaimKey, ClaimRow>)
    requires OnRecord(assets, picks)
    ensures var after := WithClaims(call, assets, picks, table);
            && (forall k :: k in table ==> k in after && after[k] == table[k])
            && (forall i :: 0 <= i < |picks| ==> KeyOfPick(call, picks[i]) in after)
            && (forall k :: k in after && k !in table ==>
                  exists i :: 0 <= i < |picks| && KeyOfPick(call, picks[i]) == k && after[k] == RowOfPick(call, assets, picks[i]))
  {
    if picks != [] {
      WithClaimsIs(call, assets, picks[..|picks| - 1], table);
    }
  }

  /** Recording picks that all have a claim changes nothing. */
  lemma {:induction false} NothingToRecord(call: Call, assets: map<AssetId, Asset>, picks: seq<ClassValue>,
                                           table: map<ClaimKey, ClaimRow>)
    requires OnRecord(assets, picks)
    ensures WithClaims(call, assets, picks, table) == table <==>
            forall i :: 0 <= i < |picks| ==> KeyOfPick(call, picks[i]) in table
  {
    WithClaimsIs(call, assets, picks, table);
    if picks != [] {
      NothingToRecord(call, assets, picks[..|picks| - 1], table);
    }
  }

  /** The append-only table of claims. */
  class Claims {
    var rows: map<ClaimKey, ClaimRow>

    constructor ()
      ensures rows == map[]
    {
      rows := map[];
    }

    /**
     * Records the picks of one ranking. `ranked` is what the class median answered.
     * The database refuses a horizon that is not positive, at the first insert.
     */
    method RecordPicks(call: Call, assets: map<AssetId, Asset>, ranked: seq<ClassValue>) returns (r: Result<nat, ()>)
      requires OnRecord(assets, ranked)
      modifies this
      ensures r.Err? <==> PicksOf(ranked, call.topN) != [] && call.horizon <= 0
      ensures r.Err? ==> rows == old(rows)
      ensures r.Ok? ==> OnRecord(assets, PicksOf(ranked, call.topN))
      ensures r.Ok? ==> rows == WithClaims(call, assets, PicksOf(ranked, call.topN), old(rows))
      ensures r.Ok? ==> r.value == |rows| - |old(rows)|
    {
      var picks := PicksOf(ranked, call.topN);
      PicksAreOnRecord(assets, ranked, call.topN);
      if picks == [] {
        return Ok(0);
      }
      if call.horizon <= 0 {
        return Err(());
      }
      var written := 0;
      for i := 0 to |picks|
        invariant rows == WithClaims(call, assets, picks[..i], old(rows))
        invariant written == |rows| - |old(rows)|
      {
        var key := KeyOfPick(call, picks[i]);
        assert picks[..i + 1][..i] == picks[..i];
        if key !in rows {
          rows := rows[key := RowOfPick(call, assets, picks[i])];
          written := written + 1;
        }
      }
      assert picks[..|picks|] == picks;
      return Ok(written);
    }
  }

  lemma PicksAreOnRecord(assets: map<AssetId, Asset>, ranked: seq<ClassValue>, topN: nat)
    requires OnRecord(assets, ranked)
    ensures OnRecord(assets, PicksOf(ranked, topN))
  {
    var picks, kept := PicksOf(ranked, topN), Eligibles(ranked);
    forall i | 0 <= i < |picks|
      ensures picks[i].asset in assets
    {
      assert picks[i] == kept[i] && kept[i] in kept;
    }
  }

  // ---------------------------------------------------------------------------
  // Retries
  // ---------------------------------------------------------------------------

  /** The picks of one call, on a table the trust query may return. */
  ghost function PicksOn(call: Call, assets: map<AssetId, Asset>, table: map<Pair, TrustedPrice>): (picks: seq<ClassValue>)
    requires Readable(Latest(table, assets, call.market), assets)
    ensures OnRecord(assets, picks)
  {
    var ranked := ClassMedian(Latest(table, assets, call.market), assets, call.topN * ROWS_PER_PICK);
    RankedCardsAreOnRecord(Latest(table, assets, call.market), assets, call.topN * ROWS_PER_PICK);
    PicksAreOnRecord(assets, ranked, call.topN);
    PicksOf(ranked, call.topN)
  }

  /**
   * What a new claim says. It is filed under the call's market, instant and wording for a
   * card off the floor; its price is the card's trusted price, its median the middle of
   * the prices of the card's peers, its ratio the one over the other; and it remembers the
   * version and the rating band the card had.
   */
  lemma NewClaimSays(call: Call, assets: map<AssetId, Asset>, table: map<Pair, TrustedPrice>,
                     claims: map<ClaimKey, ClaimRow>, k: ClaimKey)
    requires Readable(Latest(table, assets, call.market), assets)
    requires k in WithClaims(call, assets, PicksOn(call, assets, table), claims) && k !in claims
    ensures k.market == call.market && k.madeAt == call.madeAt && k.claim == "undervalued"
    ensures k.asset in assets && Pair(k.asset, k.market) in table && !table[Pair(k.asset, k.market)].atFloor
    ensures var row := WithClaims(call, assets, PicksOn(call, assets, table), claims)[k];
            var latest := Latest(table, assets, call.market);
            && row.game == call.game && row.horizon == call.horizon
            && row.version == assets[k.asset].version && row.band == RatingBand(assets[k.asset].rating)
            && row.price == table[Pair(k.asset, k.market)].price
            && row.median.Some? && k.asset in latest
            && IsMiddle(latest, Peers(latest, assets, k.asset), row.median.value)
            && row.ratio.Some? && row.ratio.value * row.median.value == row.price as real
  {
    hide IsMiddle, RatingBand, Peers, PicksOn, Readable, WithClaims, ValueOf;
    var latest := Latest(table, assets, call.market);
    var i := NewClaimIsAPick(call, assets, PicksOn(call, assets, table), claims, k);
    var a := PickIsAValue(call, assets, table, i);
    ValueIsMeasured(latest, assets, a);
  }

  lemma NewClaimIsAPick(call: Call, assets: map<AssetId, Asset>, picks: seq<ClassValue>, claims: map<ClaimKey, ClaimRow>,
                        k: ClaimKey) returns (i: nat)
    requires OnRecord(assets, picks) && k in WithClaims(call, assets, picks, claims) && k !in claims
    ensures i < |picks| && KeyOfPick(call, picks[i]) == k
    ensures WithClaims(call, assets, picks, claims)[k] == RowOfPick(call, assets, picks[i])
  {
    hide WithClaims, RowOfPick, KeyOfPick;
    WithClaimsIs(call, assets, picks, claims);
    i :| 0 <= i < |picks| && KeyOfPick(call, picks[i]) == k
         && WithClaims(call, assets, picks, claims)[k] == RowOfPick(call, assets, picks[i]);
  }

  lemma PickIsAValue(call: Call, assets: map<AssetId, Asset>, table: map<Pair, TrustedPrice>, i: nat) returns (a: AssetId)
    requires Readable(Latest(table, assets, call.market), assets) && i < |PicksOn(call, assets, table)|
    ensures var v := PicksOn(call, assets, table)[i];
            a in Latest(table, assets, call.market) && Eligible(v)
            && v == ValueOf(Latest(table, assets, call.market), assets, a)
  {
    hide ValueOf, Eligible, Latest, Ranking;
    var latest := Latest(table, assets, call.market);
    var rows := ClassMedian(latest, assets, call.topN * ROWS_PER_PICK);
    var v := PicksOn(call, assets, table)[i];
    assert v == Eligibles(rows)[i] && v in Eligibles(rows);
    var j :| 0 <= j < |rows| && rows[j] == v;
    assert rows[j] == Ranking(latest, assets)[j];
    a := RankedAt(latest, assets, j);
  }

  /** In every reachable state the trusted prices of a market can be ranked. */
  lemma EveryAnswerIsReadable(c: Setting, s: State, asOf: Instant, maxAge: int, table: map<Pair, TrustedPrice>,
                              assets: map<AssetId, Asset>, market: MarketId)
    requires Reachable(c, s) && IsTrusted(s.t, asOf, maxAge, table)
    ensures Readable(Latest(table, assets, market), assets)
  {
    TrustedPricesArePositive(c, s, asOf, maxAge, table);
    assert forall a :: a in Latest(table, assets, market) ==> Pair(a, market) in table;
  }

  /**
   * A claim cannot be improved afterwards. Whatever is ingested after the claims of
   * an instant were first recorded, recording them again writes nothing, provided no
   * source stated two prices for one pair at its newest instant.
   */
  lemma RetryRecordsNothing(c: Setting, s: State, actions: seq<Action>, call: Call, assets: map<AssetId, Asset>, maxAge: int,
                            first: map<Pair, TrustedPrice>, again: map<Pair, TrustedPrice>,
                            table: map<ClaimKey, ClaimRow>, later: map<ClaimKey, ClaimRow>)
    requires Legal(c, s, actions) && (forall a :: a in actions ==> !a.Swap?) && call.madeAt <= s.clock
    requires IsTrusted(s.t, call.madeAt, maxAge, first) && IsTrusted(After(c, s, actions).t, call.madeAt, maxAge, again)
    requires forall p :: p in first ==> NoTieAtTheTop(s.t, call.madeAt, p)
    requires Readable(Latest(first, assets, call.market), assets) && Readable(Latest(again, assets, call.market), assets)
    requires forall k :: k in WithClaims(call, assets, PicksOn(call, assets, first), table) ==> k in later
    ensures again == first
    ensures WithClaims(call, assets, PicksOn(call, assets, again), later) == later
  {
    AsOfStability(c, s, actions, call.madeAt, maxAge);
    WithoutATieOneAnswer(s.t, call.madeAt, maxAge, first, again);
    WithClaimsIs(call, assets, PicksOn(call, assets, first), table);
    NothingToRecord(call, assets, PicksOn(call, assets, again), later);
  }

  /** The claims a run records are those it would have recorded before it read anything. */
  lemma ClaimsIgnoreTheirOwnRun(c: Setting, s: State, open: Action, actions: seq<Action>, call: Call,
                                assets: map<AssetId, Asset>, maxAge: int,
                                before: map<Pair, TrustedPrice>, after: map<Pair, TrustedPrice>)
    requires open.Open? && Enabled(c, s, open) && call.madeAt == open.now
    requires Legal(c, Next(c, s, open), actions) && (forall a :: a in actions ==> !a.Swap?)
    requires IsTrusted(s.t, call.madeAt, maxAge, before)
    requires IsTrusted(After(c, Next(c, s, open), actions).t, call.madeAt, maxAge, after)
    requires forall p :: p in before ==> NoTieAtTheTop(s.t, call.madeAt, p)
    requires Readable(Latest(before, assets, call.market), assets)
    ensures Latest(after, assets, call.market) == Latest(before, assets, call.market)
    ensures PicksOn(call, assets, after) == PicksOn(call, assets, before)
  {
    ClaimsCannotSeeTheirOwnRun(c, s, open, actions, maxAge);
    WithoutATieOneAnswer(s.t, call.madeAt, maxAge, before, after);
  }
}
