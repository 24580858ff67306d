/** The market in bands, and how the claims made about it turned out. */
module Scores {
  import opened Domain
  import opened Ledger
  import opened Machine
  import opened Trust
  import opened Sets
  import opened Sorting
  import opened Valuation
  import opened Picks

  // ---------------------------------------------------------------------------
  // Cohorts
  // ---------------------------------------------------------------------------

  datatype Cohort = Cohort(version: string, band: string)

  function CohortOf(a: Asset): Cohort { Cohort(a.version, RatingBand(a.rating)) }

  function MembersOf(latest: map<AssetId, TrustedPrice>, assets: map<AssetId, Asset>, cohort: Cohort): set<AssetId>
    requires latest.Keys <= assets.Keys
  {
    set a | a in latest && CohortOf(assets[a]) == cohort
  }

  function FlooredOf(latest: map<AssetId, TrustedPrice>, s: set<AssetId>): set<AssetId> {
    set a | a in s && a in latest && latest[a].atFloor
  }

  /** The groups of the snapshot: the cohorts that have a member. */
  function Cohorts(latest: map<AssetId, TrustedPrice>, assets: map<AssetId, Asset>): set<Cohort>
    requires latest.Keys <= assets.Keys
  {
    set a | a in latest :: CohortOf(assets[a])
  }

  /** The `members` column summed over some groups. */
  ghost function Counted(latest: map<AssetId, TrustedPrice>, assets: map<AssetId, Asset>, groups: set<Cohort>): nat
    requires latest.Keys <= assets.Keys
    decreases |groups|
  {
    if groups == {} then 0
    else
      var g :| g in groups;
      |MembersOf(latest, assets, g)| + Counted(latest, assets, groups - {g})
  }

  function InGroups(latest: map<AssetId, TrustedPrice>, assets: map<AssetId, Asset>, groups: set<Cohort>): set<AssetId>
    requires latest.Keys <= assets.Keys
  {
    set a | a in latest && CohortOf(assets[a]) in groups
  }

  lemma {:induction false} GroupsAddUp(latest: map<AssetId, TrustedPrice>, assets: map<AssetId, Asset>, groups: set<Cohort>)
    requires latest.Keys <= assets.Keys
    ensures Counted(latest, assets, groups) == |InGroups(latest, assets, groups)|
    decreases |groups|
  {
    if groups == {} {
      assert InGroups(latest, assets, groups) == {};
    } else {
      var g :| g in groups
               && Counted(latest, assets, groups)
                  == |MembersOf(latest, assets, g)| + Counted(latest, assets, groups - {g});
      GroupsAddUp(latest, assets, groups - {g});
      var own, others := MembersOf(latest, assets, g), InGroups(latest, assets, groups - {g});
      assert InGroups(latest, assets, groups) == own + others && own !! others;
    }
  }

  /** The cohorts partition the trusted prices: their sizes add up to the market, and no card is in two. */
  lemma CohortsPartitionTheMarket(latest: map<AssetId, TrustedPrice>, assets: map<AssetId, Asset>)
    requires latest.Keys <= assets.Keys
    ensures Counted(latest, assets, Cohorts(latest, assets)) == |latest|
    ensures forall a :: a in latest ==> exists g :: g in Cohorts(latest, assets) && a in MembersOf(latest, assets, g)
    ensures forall g, h :: g != h ==> MembersOf(latest, assets, g) !! MembersOf(latest, assets, h)
  {
    GroupsAddUp(latest, assets, Cohorts(latest, assets));
    assert InGroups(latest, assets, Cohorts(latest, assets)) == latest.Keys;
    assert |latest.Keys| == |latest|;
    forall a | a in latest
      ensures a in MembersOf(latest, assets, CohortOf(assets[a]))
    {
    }
  }

  /** The median of the members off the floor; NULL when there are none, or no such cohort. */
  ghost function CohortMedian(latest: map<AssetId, TrustedPrice>, assets: map<AssetId, Asset>, cohort: Cohort): Option<real>
    requires latest.Keys <= assets.Keys
  {
    var members := MembersOf(latest, assets, cohort);
    var priced := members - FlooredOf(latest, members);
    if priced == {} then None else Some(Median(latest, priced))
  }

  /** The priced cards off the floor of one version and band. */
  function OffTheFloor(latest: map<AssetId, TrustedPrice>, assets: map<AssetId, Asset>, version: string, band: string)
    : set<AssetId>
    requires latest.Keys <= assets.Keys
  {
    set a | a in latest && !latest[a].atFloor && assets[a].version == version && RatingBand(assets[a].rating) == band
  }

  /** A cohort's median is the middle of the prices of its cards off the floor, and missing exactly when it has none. */
  lemma CohortMedianIs(latest: map<AssetId, TrustedPrice>, assets: map<AssetId, Asset>, version: string, band: string)
    requires latest.Keys <= assets.Keys
    ensures var median, cards := CohortMedian(latest, assets, Cohort(version, band)), OffTheFloor(latest, assets, version, band);
            && (median.None? <==> cards == {})
            && (median.Some? ==> IsMiddle(latest, cards, median.value))
  {
    hide Median, IsMiddle, RatingBand;
    var members := MembersOf(latest, assets, Cohort(version, band));
    var cards := OffTheFloor(latest, assets, version, band);
    assert members - FlooredOf(latest, members) == cards;
    if cards != {} {
      MedianIsMiddle(latest, cards);
    }
  }

  // ---------------------------------------------------------------------------
  // Scores
  // ---------------------------------------------------------------------------

  function CohortMove(before: Option<real>, after: Option<real>): (move: Option<real>)
    ensures move.Some? ==> after.Some? && before.Some? && before.value * (1.0 + move.value) == after.value
    ensures move.None? <==> before.None? || after.None? || before.value <= 0.0
  {
    if before.Some? && after.Some? && before.value > 0.0 then Some((after.value - before.value) / before.value) else None
  }

  /** A claim as the table holds it: numbered as it was recorded. */
  datatype Claim = Claim(id: nat, key: ClaimKey, row: ClaimRow)

  datatype Score = Score(
    claim: Claim, priceThen: int, priceNow: int, assetReturn: real, cohortReturn: Option<real>, excess: Option<real>)

  predicate Matured(claim: Claim, game: GameId, asOf: Instant) {
    claim.row.game == game && claim.key.madeAt + claim.row.horizon <= asOf
  }

  predicate Scorable(claim: Claim, now: map<Pair, TrustedPrice>) { Pair(claim.key.asset, claim.key.market) in now }

  /** The excess is what the card's own return has beyond its cohort's. */
  function ScoreOf(claim: Claim, now: map<Pair, TrustedPrice>, move: Option<real>): (s: Score)
    requires Scorable(claim, now) && claim.row.price > 0
    ensures s.claim == claim && s.priceThen == claim.row.price && s.cohortReturn == move
    ensures s.priceNow == now[Pair(claim.key.asset, claim.key.market)].price
    ensures s.priceThen as real * (1.0 + s.assetReturn) == s.priceNow as real
    ensures s.excess.Some? <==> s.cohortReturn.Some?
    ensures s.excess.Some? ==> s.cohortReturn.value + s.excess.value == s.assetReturn
  {
    var price := now[Pair(claim.key.asset, claim.key.market)].price;
    var own := (price - claim.row.price) as real / claim.row.price as real;
    Score(claim, claim.row.price, price, own, move, if move.Some? then Some(own - move.value) else None)
  }

  /** What the cohort of a claim did between the claim and the scoring. */
  ghost function MoveSince(trusted: Instant -> map<Pair, TrustedPrice>, assets: map<AssetId, Asset>, claim: Claim, asOf: Instant)
    : Option<real>
  {
    var cohort := Cohort(claim.row.version, claim.row.band);
    CohortMove(CohortMedian(Latest(trusted(claim.key.madeAt), assets, claim.key.market), assets, cohort),
               CohortMedian(Latest(trusted(asOf), assets, claim.key.market), assets, cohort))
  }

  lemma GrewMore(price: real, median: real, x: real, y: real, priceNow: real, medianNow: real)
    requires price > 0.0 && median > 0.0 && price * x == priceNow && median * y == medianNow
    ensures priceNow * median > price * medianNow <==> x > y
    ensures priceNow * median == price * medianNow <==> x == y
  {
    assert priceNow * median - price * medianNow == (price * median) * (x - y);
    assert price * median > 0.0;
  }

  /**
   * A claim wins when the card's price grew by more than the median of its cohort did
   * between the claim and the scoring, is level when both grew alike, and is not judged
   * exactly when one of the two medians is missing.
   */
  lemma WinsIff(trusted: Instant -> map<Pair, TrustedPrice>, assets: map<AssetId, Asset>, claim: Claim, asOf: Instant)
    requires claim.row.price > 0 && Scorable(claim, trusted(asOf))
    requires Readable(Latest(trusted(claim.key.madeAt), assets, claim.key.market), assets)
    ensures var s := ScoreOf(claim, trusted(asOf), MoveSince(trusted, assets, claim, asOf));
            var cohort, market := Cohort(claim.row.version, claim.row.band), claim.key.market;
            var before := CohortMedian(Latest(trusted(claim.key.madeAt), assets, market), assets, cohort);
            var after := CohortMedian(Latest(trusted(asOf), assets, market), assets, cohort);
            && s.priceThen == claim.row.price && s.priceNow == trusted(asOf)[Pair(claim.key.asset, market)].price
            && (s.excess.Some? <==> before.Some? && after.Some?)
            && (s.excess.Some? ==>
                  && (s.excess.value > 0.0 <==> s.priceNow as real * before.value > s.priceThen as real * after.value)
                  && (s.excess.value == 0.0 <==> s.priceNow as real * before.value == s.priceThen as real * after.value))
  {
    hide CohortMedian;
    var s := ScoreOf(claim, trusted(asOf), MoveSince(trusted, assets, claim, asOf));
    var cohort := Cohort(claim.row.version, claim.row.band);
    var latest := Latest(trusted(claim.key.madeAt), assets, claim.key.market);
    CohortMedianIsPositive(latest, assets, cohort);
    if s.excess.Some? {
      var before, after := CohortMedian(latest, assets, cohort).value,
                           CohortMedian(Latest(trusted(asOf), assets, claim.key.market), assets, cohort).value;
      var move := s.cohortReturn.value;
      assert before * (1.0 + move) == after;
      GrewMore(s.priceThen as real, before, 1.0 + s.assetReturn, 1.0 + move, s.priceNow as real, after);
      assert s.excess.value == (1.0 + s.assetReturn) - (1.0 + move);
    }
  }

  lemma CohortMedianIsPositive(latest: map<AssetId, TrustedPrice>, assets: map<AssetId, Asset>, cohort: Cohort)
    requires Readable(latest, assets)
    ensures CohortMedian(latest, assets, cohort).Some? ==> CohortMedian(latest, assets, cohort).value > 0.0
  {
    hide Median;
    var members := MembersOf(latest, assets, cohort);
    HalfIsPositive(latest, members - FlooredOf(latest, members));
  }

  // ---------------------------------------------------------------------------
  // The claims that are due, oldest first
  // ---------------------------------------------------------------------------

  predicate UniqueIds(claims: set<Claim>) { forall x, y :: x in claims && y in claims && x.id == y.id ==> x == y }

  predicate PricedClaims(claims: set<Claim>) { forall x :: x in claims ==> x.row.price > 0 }

  /** ORDER BY made_at, id. */
  predicate MadeBefore(x: Claim, y: Claim) {
    x.key.madeAt < y.key.madeAt || (x.key.madeAt == y.key.madeAt && x.id < y.id)
  }

  function MaturedAmong(claims: set<Claim>, game: GameId, asOf: Instant): set<Claim> {
    set x | x in claims && Matured(x, game, asOf)
  }

  lemma MadeBeforeSettles(claims: set<Claim>)
    requires UniqueIds(claims)
    ensures Settles(claims, MadeBefore)
  {
  }

  /** `due` was drawn from `all` in order, and `left` is the rest, each made after all that were drawn. */
  ghost predicate DrawnInOrder(all: set<Claim>, left: set<Claim>, due: seq<Claim>) {
    && left <= all && NoDuplicates(due) && (forall x :: x in due <==> x in all && x !in left)
    && Ordered(due, MadeBefore) && forall x, y :: x in due && y in left ==> MadeBefore(x, y)
  }

  lemma DrawOne(all: set<Claim>, left: set<Claim>, due: seq<Claim>, first: Claim)
    requires DrawnInOrder(all, left, due) && ComesFirst(left, MadeBefore, first)
    ensures DrawnInOrder(all, left - {first}, due + [first])
  {
    var longer := due + [first];
    forall i, j | 0 <= i < j < |longer|
      ensures MadeBefore(longer[i], longer[j]) && longer[i] != longer[j]
    {
      assert longer[i] in due;
    }
  }

  lemma AllDrawn(all: set<Claim>, due: seq<Claim>)
    requires UniqueIds(all) && DrawnInOrder(all, {}, due)
    ensures due == Sort(all, MadeBefore)
  {
    MadeBeforeSettles(all);
    TheOrderIsSettled(all, MadeBefore, due);
  }

  method FirstMade(claims: set<Claim>) returns (first: Claim)
    requires claims != {} && UniqueIds(claims)
    ensures ComesFirst(claims, MadeBefore, first)
  {
    first :| first in claims;
    var left := claims - {first};
    while left != {}
      invariant left <= claims && first in claims && first !in left
      invariant forall y :: y in claims && y !in left && y != first ==> MadeBefore(first, y)
      decreases |left|
    {
      var y :| y in left;
      left := left - {y};
      if MadeBefore(y, first) {
        first := y;
      }
    }
  }

  /** The query: the claims of the game whose horizon has passed, in the one order it settles. */
  method DueClaims(claims: set<Claim>, game: GameId, asOf: Instant) returns (due: seq<Claim>)
    requires UniqueIds(claims)
    ensures UniqueIds(MaturedAmong(claims, game, asOf)) && Settles(MaturedAmong(claims, game, asOf), MadeBefore)
    ensures due == Sort(MaturedAmong(claims, game, asOf), MadeBefore)
  {
    var all := MaturedAmong(claims, game, asOf);
    var left := all;
    due := [];
    while left != {}
      invariant DrawnInOrder(all, left, due)
      decreases |left|
    {
      var first := FirstMade(left);
      DrawOne(all, left, due, first);
      due, left := due + [first], left - {first};
    }
    MadeBeforeSettles(all);
    AllDrawn(all, due);
  }

  // ---------------------------------------------------------------------------
  // What the cohort did
  // ---------------------------------------------------------------------------

  /** The columns of a cohort's row that a scoring reads. */
  datatype Snapshot = Snapshot(cohort: Cohort, median: Option<real>)

  /** The rows of a market's snapshot: one for each cohort that has a member, with its median. */
  ghost predicate IsSnapshot(latest: map<AssetId, TrustedPrice>, assets: map<AssetId, Asset>, rows: seq<Snapshot>)
    requires latest.Keys <= assets.Keys
  {
    && (forall g :: g in Cohorts(latest, assets) ==> exists i :: 0 <= i < |rows| && rows[i].cohort == g)
    && forall i :: 0 <= i < |rows| ==> rows[i].median == CohortMedian(latest, assets, rows[i].cohort)
  }

  ghost predicate AreSnapshots(trusted: Instant -> map<Pair, TrustedPrice>, assets: map<AssetId, Asset>,
                               snapshot: (MarketId, Instant) -> seq<Snapshot>) {
    forall market, at :: IsSnapshot(Latest(trusted(at), assets, market), assets, snapshot(market, at))
  }

  lemma NoRowNoMedian(latest: map<AssetId, TrustedPrice>, assets: map<AssetId, Asset>, cohort: Cohort)
    requires latest.Keys <= assets.Keys && cohort !in Cohorts(latest, assets)
    ensures CohortMedian(latest, assets, cohort) == None
  {
    assert MembersOf(latest, assets, cohort) == {};
  }

  /** The median of the cohort's row, or none when the cohort has no row. */
  method MedianIn(rows: seq<Snapshot>, cohort: Cohort, ghost latest: map<AssetId, TrustedPrice>,
                  ghost assets: map<AssetId, Asset>) returns (median: Option<real>)
    requires latest.Keys <= assets.Keys && IsSnapshot(latest, assets, rows)
    ensures median == CohortMedian(latest, assets, cohort)
  {
    for i := 0 to |rows|
      invariant forall j :: 0 <= j < i ==> rows[j].cohort != cohort
    {
      if rows[i].cohort == cohort {
        return rows[i].median;
      }
    }
    NoRowNoMedian(latest, assets, cohort);
    median := None;
  }

  method MoveOf(claim: Claim, asOf: Instant, snapshot: (MarketId, Instant) -> seq<Snapshot>,
                ghost trusted: Instant -> map<Pair, TrustedPrice>, ghost assets: map<AssetId, Asset>)
    returns (move: Option<real>)
    requires AreSnapshots(trusted, assets, snapshot)
    ensures move == MoveSince(trusted, assets, claim, asOf)
  {
    var market, cohort := claim.key.market, Cohort(claim.row.version, claim.row.band);
    var before := MedianIn(snapshot(market, claim.key.madeAt), cohort,
                           Latest(trusted(claim.key.madeAt), assets, market), assets);
    var after := MedianIn(snapshot(market, asOf), cohort, Latest(trusted(asOf), assets, market), assets);
    move := CohortMove(before, after);
  }

  // ---------------------------------------------------------------------------
  // The scoring
  // ---------------------------------------------------------------------------

  /** The scores of a list of claims, in its order; a claim whose card has no trusted price is dropped. */
  ghost function ScoresOf(due: seq<Claim>, asOf: Instant, trusted: Instant -> map<Pair, TrustedPrice>,
                          assets: map<AssetId, Asset>): seq<Score>
    requires forall x :: x in due ==> x.row.price > 0
  {
    if due == [] then []
    else
      var claim := due[|due| - 1];
      ScoresOf(due[..|due| - 1], asOf, trusted, assets)
      + if Scorable(claim, trusted(asOf)) then [ScoreOf(claim, trusted(asOf), MoveSince(trusted, assets, claim, asOf))] else []
  }

  method ScoreEach(due: seq<Claim>, asOf: Instant, trusted: Instant -> map<Pair, TrustedPrice>,
                   snapshot: (MarketId, Instant) -> seq<Snapshot>, ghost assets: map<AssetId, Asset>)
    returns (scored: seq<Score>)
    requires AreSnapshots(trusted, assets, snapshot) && forall x :: x in due ==> x.row.price > 0
    ensures scored == ScoresOf(due, asOf, trusted, assets)
  {
    hide MoveSince, AreSnapshots;
    scored := [];
    for i := 0 to |due|
      invariant scored == ScoresOf(due[..i], asOf, trusted, assets)
    {
      assert due[..i + 1][..i] == due[..i] && due[i] in due;
      if Scorable(due[i], trusted(asOf)) {
        var move := MoveOf(due[i], asOf, snapshot, trusted, assets);
        scored := scored + [ScoreOf(due[i], trusted(asOf), move)];
      }
    }
    assert due[..|due|] == due;
  }

  /** Scores every matured claim that can still be priced, oldest first, and drops the rest. */
  method ScoreMatured(claims: set<Claim>, game: GameId, asOf: Instant, trusted: Instant -> map<Pair, TrustedPrice>,
                      snapshot: (MarketId, Instant) -> seq<Snapshot>, ghost assets: map<AssetId, Asset>)
    returns (scored: seq<Score>, due: seq<Claim>)
    requires UniqueIds(claims) && PricedClaims(claims) && AreSnapshots(trusted, assets, snapshot)
    ensures Settles(MaturedAmong(claims, game, asOf), MadeBefore)
    ensures due == Sort(MaturedAmong(claims, game, asOf), MadeBefore)
    ensures forall x :: x in due <==> x in claims && x.row.game == game && x.key.madeAt + x.row.horizon <= asOf
    ensures forall i, j :: 0 <= i < j < |due| ==>
              due[i].key.madeAt <= due[j].key.madeAt && (due[i].key.madeAt == due[j].key.madeAt ==> due[i].id < due[j].id)
    ensures scored == ScoresOf(due, asOf, trusted, assets)
  {
    due := DueClaims(claims, game, asOf);
    scored := ScoreEach(due, asOf, trusted, snapshot, assets);
  }

  ghost function ScoredAmong(due: seq<Claim>, asOf: Instant, trusted: Instant -> map<Pair, TrustedPrice>): set<Claim> {
    set x | x in due && Scorable(x, trusted(asOf))
  }

  lemma {:induction false} ScoresAreCounted(due: seq<Claim>, asOf: Instant, trusted: Instant -> map<Pair, TrustedPrice>,
                                            assets: map<AssetId, Asset>)
    requires (forall x :: x in due ==> x.row.price > 0) && NoDuplicates(due)
    ensures |ScoresOf(due, asOf, trusted, assets)| == |ScoredAmong(due, asOf, trusted)|
  {
    hide MoveSince, ScoreOf, Scorable, NoDuplicates;
    if due != [] {
      var init, last := due[..|due| - 1], due[|due| - 1];
      LastIsNew(due);
      ScoresAreCounted(init, asOf, trusted, assets);
      var few, many := ScoredAmong(init, asOf, trusted), ScoredAmong(due, asOf, trusted);
      if Scorable(last, trusted(asOf)) {
        assert many == few + {last} && last !in few;
      } else {
        assert many == few;
      }
    }
  }

  lemma LastIsNew(due: seq<Claim>)
    requires due != [] && NoDuplicates(due)
    ensures var init, last := due[..|due| - 1], due[|due| - 1];
            NoDuplicates(init) && last !in init && forall x :: x in due <==> x in init || x == last
  {
    var init, last := due[..|due| - 1], due[|due| - 1];
    assert due == init + [last];
  }

  /** Exactly the claims of the list that can be priced. */
  lemma {:induction false} ScoresOfTheList(due: seq<Claim>, asOf: Instant, trusted: Instant -> map<Pair, TrustedPrice>,
                                           assets: map<AssetId, Asset>, s: Score)
    requires forall x :: x in due ==> x.row.price > 0
    ensures s in ScoresOf(due, asOf, trusted, assets) <==>
              s.claim in due && Scorable(s.claim, trusted(asOf))
              && s == ScoreOf(s.claim, trusted(asOf), MoveSince(trusted, assets, s.claim, asOf))
  {
    hide MoveSince;
    if due != [] {
      var init, last := due[..|due| - 1], due[|due| - 1];
      ScoresOfTheList(init, asOf, trusted, assets, s);
      assert due == init + [last];
    }
  }

  lemma {:induction false} ScoresKeepTheOrder(due: seq<Claim>, asOf: Instant, trusted: Instant -> map<Pair, TrustedPrice>,
                                              assets: map<AssetId, Asset>)
    requires (forall x :: x in due ==> x.row.price > 0) && Ordered(due, MadeBefore)
    ensures var scored := ScoresOf(due, asOf, trusted, assets);
            forall i, j :: 0 <= i < j < |scored| ==> MadeBefore(scored[i].claim, scored[j].claim)
  {
    hide MoveSince, MadeBefore;
    if due != [] {
      var init, last := due[..|due| - 1], due[|due| - 1];
      var before, scored := ScoresOf(init, asOf, trusted, assets), ScoresOf(due, asOf, trusted, assets);
      ScoresKeepTheOrder(init, asOf, trusted, assets);
      forall i | 0 <= i < |before|
        ensures MadeBefore(before[i].claim, last)
      {
        ScoresOfTheList(init, asOf, trusted, assets, before[i]);
        assert before[i] in before;
        var m :| 0 <= m < |init| && init[m] == before[i].claim;
        assert due[m] == init[m];
      }
    }
  }

  /**
   * One score for each claim of the game whose horizon has passed and whose card has a
   * trusted price, and no other; they come in the order the claims were made.
   */
  lemma ScoresAre(claims: set<Claim>, game: GameId, asOf: Instant, trusted: Instant -> map<Pair, TrustedPrice>,
                  assets: map<AssetId, Asset>, s: Score)
    requires UniqueIds(claims) && PricedClaims(claims) && Settles(MaturedAmong(claims, game, asOf), MadeBefore)
    ensures var due := Sort(MaturedAmong(claims, game, asOf), MadeBefore);
            var scored := ScoresOf(due, asOf, trusted, assets);
            && |scored| == |set x | x in claims && x.row.game == game && x.key.madeAt + x.row.horizon <= asOf
                                    && Pair(x.key.asset, x.key.market) in trusted(asOf)|
            && (forall i, j :: 0 <= i < j < |scored| ==> scored[i].claim.key.madeAt <= scored[j].claim.key.madeAt)
            && (s in scored <==> s.claim in claims && s.claim.row.game == game
                                 && s.claim.key.madeAt + s.claim.row.horizon <= asOf
                                 && Pair(s.claim.key.asset, s.claim.key.market) in trusted(asOf)
                                 && s == ScoreOf(s.claim, trusted(asOf), MoveSince(trusted, assets, s.claim, asOf)))
  {
    var due := Sort(MaturedAmong(claims, game, asOf), MadeBefore);
    ScoresAreCounted(due, asOf, trusted, assets);
    ScoresOfTheList(due, asOf, trusted, assets, s);
    ScoresKeepTheOrder(due, asOf, trusted, assets);
    assert ScoredAmong(due, asOf, trusted)
        == set x | x in claims && x.row.game == game && x.key.madeAt + x.row.horizon <= asOf
                   && Pair(x.key.asset, x.key.market) in trusted(asOf);
  }

  /** One answer of the trust query for every instant. */
  ghost predicate Answers(t: Tables, maxAge: int, trusted: Instant -> map<Pair, TrustedPrice>) {
    forall at :: IsTrusted(t, at, maxAge, trusted(at))
  }

  /**
   * A score is never revised. Whatever is ingested after the instant a claim is
   * scored at, its price and its cohort's move at that instant stay what they were.
   */
  lemma ScoresAreStable(c: Setting, s: State, actions: seq<Action>, assets: map<AssetId, Asset>, maxAge: int, asOf: Instant,
                        claim: Claim, first: Instant -> map<Pair, TrustedPrice>, again: Instant -> map<Pair, TrustedPrice>)
    requires Legal(c, s, actions) && (forall a :: a in actions ==> !a.Swap?)
    requires claim.key.madeAt <= asOf <= s.clock
    requires Answers(s.t, maxAge, first) && Answers(After(c, s, actions).t, maxAge, again)
    requires forall p :: p in first(claim.key.madeAt) ==> NoTieAtTheTop(s.t, claim.key.madeAt, p)
    requires forall p :: p in first(asOf) ==> NoTieAtTheTop(s.t, asOf, p)
    ensures Scorable(claim, again(asOf)) <==> Scorable(claim, first(asOf))
    ensures Scorable(claim, first(asOf)) && claim.row.price > 0 ==>
              ScoreOf(claim, again(asOf), MoveSince(again, assets, claim, asOf))
              == ScoreOf(claim, first(asOf), MoveSince(first, assets, claim, asOf))
  {
    forall at | at == asOf || at == claim.key.madeAt
      ensures again(at) == first(at)
    {
      AsOfStability(c, s, actions, at, maxAge);
      WithoutATieOneAnswer(s.t, at, maxAge, first(at), again(at));
    }
  }
}
