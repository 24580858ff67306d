/** Which price a pair is taken to have at an instant, and when that answer is stable. */
module Trust {
  import opened Domain
  import opened Text
  import opened ObjectKeys
  import opened Ledger
  import opened Machine
  import opened Provenance
  import opened PollCache

  // ---------------------------------------------------------------------------
  // What was known
  // ---------------------------------------------------------------------------

  /** The rows imported by an instant, whatever instant their prices are of. */
  function KnownAt(observations: map<ObsKey, ObsRow>, asOf: Instant): map<ObsKey, ObsRow> {
    map k | k in observations && observations[k].ingestedAt <= asOf :: observations[k]
  }

  function PolledBy(polls: map<PollKey, PollRow>, asOf: Instant): map<PollKey, PollRow> {
    map k | k in polls && k.at <= asOf :: polls[k]
  }

  // ---------------------------------------------------------------------------
  // trusted_latest_prices(as_of, max_age)
  // ---------------------------------------------------------------------------

  /** The newest poll of a pair inside the window. The poll key makes it unique. */
  predicate LatestPoll(polls: map<PollKey, PollRow>, p: Pair, asOf: Instant, maxAge: int, at: Instant) {
    && PollKey(p, at) in polls && asOf - maxAge < at <= asOf
    && forall k :: k in polls && k.pair == p && k.at <= asOf ==> k.at <= at
  }

  /** Live: the newest poll inside the window produced a price. */
  ghost predicate Live(polls: map<PollKey, PollRow>, p: Pair, asOf: Instant, maxAge: int) {
    exists at :: LatestPoll(polls, p, asOf, maxAge, at) && Succeeded(polls[PollKey(p, at)].outcome)
  }

  /** Newest price first, and sources in text order: whether x is listed strictly before y. */
  predicate ListedBefore(x: ObsKey, y: ObsKey) {
    x.observedAt > y.observedAt || (x.observedAt == y.observedAt && TextLess(x.source, y.source))
  }

  function PairOf(k: ObsKey): Pair { Pair(k.asset, k.market) }

  /** A row LIMIT 1 may return: nothing of the pair is listed strictly before it. */
  predicate Newest(known: map<ObsKey, ObsRow>, p: Pair, k: ObsKey) {
    k in known && PairOf(k) == p && forall k' :: k' in known && PairOf(k') == p ==> !ListedBefore(k', k)
  }

  /** One row of the answer. */
  datatype TrustedPrice = TrustedPrice(price: int, observedAt: Instant, minPrice: Option<int>, atFloor: bool)

  function PriceOf(k: ObsKey, row: ObsRow): TrustedPrice {
    TrustedPrice(k.price, k.observedAt, row.detail.minPrice,
                 row.detail.minPrice.Some? && k.price <= row.detail.minPrice.value)
  }

  /**
   * A table the query may return. The order does not settle two prices one source
   * states at one instant, so there may be more than one.
   */
  ghost predicate IsTrusted(t: Tables, asOf: Instant, maxAge: int, table: map<Pair, TrustedPrice>) {
    var known := KnownAt(t.observations, asOf);
    && (forall p :: p in table <==>
          Live(PolledBy(t.polls, asOf), p, asOf, maxAge) && exists k :: k in known && PairOf(k) == p)
    && (forall p :: p in table ==> exists k :: Newest(known, p, k) && table[p] == PriceOf(k, known[k]))
  }

  /** No source states two prices for one pair at its newest instant. */
  ghost predicate NoTieAtTheTop(t: Tables, asOf: Instant, p: Pair) {
    var known := KnownAt(t.observations, asOf);
    forall k, k' :: Newest(known, p, k) && Newest(known, p, k') ==> k == k'
  }

  /** Restatements tie exactly when they agree on everything but the price. */
  lemma TiesDifferInPriceAlone(known: map<ObsKey, ObsRow>, p: Pair, k: ObsKey, k': ObsKey)
    requires Newest(known, p, k) && Newest(known, p, k')
    ensures k' == k.(price := k'.price)
  {
    TextOrderIsTotal(k.source, k'.source);
  }

  lemma WithoutATieOneAnswer(t: Tables, asOf: Instant, maxAge: int, a: map<Pair, TrustedPrice>, b: map<Pair, TrustedPrice>)
    requires IsTrusted(t, asOf, maxAge, a) && IsTrusted(t, asOf, maxAge, b)
    requires forall p :: p in a ==> NoTieAtTheTop(t, asOf, p)
    ensures a == b
  {
    forall p | p in a
      ensures p in b && a[p] == b[p]
    {
      assert NoTieAtTheTop(t, asOf, p);
    }
    forall p | p in b
      ensures p in a
    {
    }
  }

  /** With a tie, the query may answer either price. */
  lemma ATieIsNotSettled(t: Tables, asOf: Instant, maxAge: int, table: map<Pair, TrustedPrice>, p: Pair, k: ObsKey)
    requires IsTrusted(t, asOf, maxAge, table) && p in table
    requires Newest(KnownAt(t.observations, asOf), p, k)
    ensures IsTrusted(t, asOf, maxAge, table[p := PriceOf(k, KnownAt(t.observations, asOf)[k])])
  {
  }

  lemma ATieGivesTwoAnswers(t: Tables, asOf: Instant, maxAge: int, table: map<Pair, TrustedPrice>, p: Pair)
    returns (other: map<Pair, TrustedPrice>)
    requires IsTrusted(t, asOf, maxAge, table) && p in table && !NoTieAtTheTop(t, asOf, p)
    ensures IsTrusted(t, asOf, maxAge, other) && other != table
  {
    var known := KnownAt(t.observations, asOf);
    var k, k' :| Newest(known, p, k) && Newest(known, p, k') && k != k';
    TiesDifferInPriceAlone(known, p, k, k');
    assert k.price != k'.price;
    var top := if table[p].price == k.price then k' else k;
    ATieIsNotSettled(t, asOf, maxAge, table, p, top);
    other := table[p := PriceOf(top, known[top])];
    assert other[p].price == top.price;
  }

  /** The answer is one table, whenever and however often it is asked for, exactly when no pair in it has a tie at the top. */
  lemma TrustedIsDeterminedIff(t: Tables, asOf: Instant, maxAge: int, table: map<Pair, TrustedPrice>)
    requires IsTrusted(t, asOf, maxAge, table)
    ensures (forall other :: IsTrusted(t, asOf, maxAge, other) ==> other == table)
            <==> forall p :: p in table ==> NoTieAtTheTop(t, asOf, p)
  {
    if forall p :: p in table ==> NoTieAtTheTop(t, asOf, p) {
      forall other | IsTrusted(t, asOf, maxAge, other)
        ensures other == table
      {
        WithoutATieOneAnswer(t, asOf, maxAge, table, other);
      }
    } else {
      var p :| p in table && !NoTieAtTheTop(t, asOf, p);
      var other := ATieGivesTwoAnswers(t, asOf, maxAge, table, p);
    }
  }

  // ---------------------------------------------------------------------------
  // The past does not change
  // ---------------------------------------------------------------------------

  predicate SamePast(t: Tables, t': Tables, asOf: Instant) {
    KnownAt(t'.observations, asOf) == KnownAt(t.observations, asOf) && PolledBy(t'.polls, asOf) == PolledBy(t.polls, asOf)
  }

  lemma TrustReadsThePastAlone(t: Tables, t': Tables, asOf: Instant, maxAge: int, table: map<Pair, TrustedPrice>)
    requires SamePast(t, t', asOf)
    ensures IsTrusted(t', asOf, maxAge, table) <==> IsTrusted(t, asOf, maxAge, table)
  {
  }

  lemma ClockNeverRunsBack(c: Setting, s: State, a: Action)
    requires Enabled(c, s, a)
    ensures s.clock <= Next(c, s, a).clock
  {
  }

  lemma InsertKeepsKnown(table: map<ObsKey, ObsRow>, os: seq<Observation>, run: RunId, now: Instant, asOf: Instant)
    requires asOf < now
    ensures KnownAt(InsertAll(table, os, run, now), asOf) == KnownAt(table, asOf)
  {
    var after := InsertAll(table, os, run, now);
    forall k
      ensures k in KnownAt(after, asOf) <==> k in KnownAt(table, asOf)
      ensures k in KnownAt(table, asOf) ==> k in after && after[k] == table[k]
    {
      InsertAllRow(table, os, run, now, k);
    }
  }

  lemma StoringKeepsThePast(t: Tables, polls: seq<Poll>, at: Instant, now: Instant, run: RunId, asOf: Instant)
    requires asOf < at < now
    ensures SamePast(t, StorePolls(t, polls, at, now, run), asOf)
  {
    var t' := StorePolls(t, polls, at, now, run);
    StorePollsFrame(t, polls, at, now, run);
    StorePollsRecord(t, polls, at, now, run);
    InsertKeepsKnown(t.observations, PricedOf(polls), run, now, asOf);
    assert PolledBy(t'.polls, asOf) == PolledBy(t.polls, asOf);
  }

  lemma OneActionKeepsThePast(c: Setting, s: State, a: Action, asOf: Instant)
    requires Enabled(c, s, a) && !a.Swap? && asOf <= s.clock
    ensures SamePast(s.t, Next(c, s, a).t, asOf)
  {
    if a.Store? {
      StoringKeepsThePast(s.t, BatchPolls(c, s, s.process.stage.key, a.targets), a.at, a.now, s.process.run, asOf);
    } else {
      OtherActionsLeavePolls(c, s, a);
      OthersLeaveObservations(c, s, a);
    }
  }

  lemma {:induction false} IngestKeepsThePast(c: Setting, s: State, actions: seq<Action>, asOf: Instant)
    requires Legal(c, s, actions) && (forall a :: a in actions ==> !a.Swap?) && asOf <= s.clock
    ensures SamePast(s.t, After(c, s, actions).t, asOf) && s.clock <= After(c, s, actions).clock
  {
    if actions != [] {
      var before := actions[..|actions| - 1];
      IngestKeepsThePast(c, s, before, asOf);
      OneActionKeepsThePast(c, After(c, s, before), actions[|actions| - 1], asOf);
      ClockNeverRunsBack(c, After(c, s, before), actions[|actions| - 1]);
    }
  }

  /**
   * As-of stability: whatever is ingested after an instant, by any number of runs
   * killed anywhere, the tables the query may return for that instant are the same.
   */
  lemma AsOfStability(c: Setting, s: State, actions: seq<Action>, asOf: Instant, maxAge: int)
    requires Legal(c, s, actions) && (forall a :: a in actions ==> !a.Swap?) && asOf <= s.clock
    ensures forall table :: IsTrusted(After(c, s, actions).t, asOf, maxAge, table) <==> IsTrusted(s.t, asOf, maxAge, table)
  {
    IngestKeepsThePast(c, s, actions, asOf);
    forall table {
      TrustReadsThePastAlone(s.t, After(c, s, actions).t, asOf, maxAge, table);
    }
  }

  /** A run's claims are dated at its start, so nothing the run itself stores can reach them. */
  lemma ClaimsCannotSeeTheirOwnRun(c: Setting, s: State, open: Action, actions: seq<Action>, maxAge: int)
    requires open.Open? && Enabled(c, s, open)
    requires Legal(c, Next(c, s, open), actions) && (forall a :: a in actions ==> !a.Swap?)
    ensures forall table :: IsTrusted(After(c, Next(c, s, open), actions).t, open.now, maxAge, table)
                            <==> IsTrusted(s.t, open.now, maxAge, table)
  {
    var began := Next(c, s, open);
    AsOfStability(c, began, actions, open.now, maxAge);
    forall table {
      TrustReadsThePastAlone(s.t, began.t, open.now, maxAge, table);
    }
  }

  // ---------------------------------------------------------------------------
  // Replay does change the past
  // ---------------------------------------------------------------------------

  /** A swap keeps what was known at an earlier instant exactly when its original owned none of it. */
  lemma SwapKeepsThePastIff(table: map<ObsKey, ObsRow>, original: RunId, replacement: RunId, os: seq<Observation>,
                            now: Instant, asOf: Instant)
    requires asOf < now && original != replacement
    ensures KnownAt(Swapped(table, original, replacement, os, now), asOf) == KnownAt(table, asOf)
            <==> forall k :: k in KnownAt(table, asOf) ==> table[k].run != original
  {
    var after := Swapped(table, original, replacement, os, now);
    forall k
      ensures k in KnownAt(after, asOf) <==> k in KnownAt(table, asOf) && table[k].run != original
      ensures k in KnownAt(after, asOf) ==> after[k] == table[k]
    {
      InsertAllRow(WithoutRun(table, original), os, replacement, now, k);
    }
  }

  /** A pair all of whose known prices the original had stored has no trusted price at that instant after the swap. */
  lemma ReplayForgets(t: Tables, original: RunId, replacement: RunId, os: seq<Observation>, now: Instant,
                      asOf: Instant, maxAge: int, p: Pair, before: map<Pair, TrustedPrice>, after: map<Pair, TrustedPrice>)
    requires asOf < now && IsTrusted(t, asOf, maxAge, before) && p in before
    requires forall k :: k in KnownAt(t.observations, asOf) && PairOf(k) == p ==> t.observations[k].run == original
    requires IsTrusted(t.(observations := Swapped(t.observations, original, replacement, os, now)), asOf, maxAge, after)
    ensures p !in after
  {
    var swapped := Swapped(t.observations, original, replacement, os, now);
    forall k | k in KnownAt(swapped, asOf)
      ensures PairOf(k) != p
    {
      InsertAllRow(WithoutRun(t.observations, original), os, replacement, now, k);
    }
  }

  // ---------------------------------------------------------------------------
  // When a replay changes a past answer
  // ---------------------------------------------------------------------------

  /** A row not listed after one other is not listed after everything that one is. */
  lemma ListedBetween(x: ObsKey, y: ObsKey, z: ObsKey)
    requires ListedBefore(x, z)
    ensures ListedBefore(x, y) || ListedBefore(y, z)
  {
    TextOrderIsTotal(x.source, y.source);
    TextOrderIsTotal(y.source, z.source);
    if TextLess(y.source, x.source) && TextLess(x.source, z.source) {
      TextOrderIsTransitive(y.source, x.source, z.source);
    }
  }

  lemma NotListedBeforeItself(x: ObsKey)
    ensures !ListedBefore(x, x)
  {
    TextOrderIsTotal(x.source, x.source);
  }

  lemma {:induction false} SomethingIsFirst(s: set<ObsKey>) returns (first: ObsKey)
    requires s != {}
    ensures first in s && forall x :: x in s ==> !ListedBefore(x, first)
    decreases |s|
  {
    first :| first in s;
    NotListedBeforeItself(first);
    if y :| y in s && y != first {
      var rest := SomethingIsFirst(s - {first});
      TextOrderIsTotal(first.source, rest.source);
      if ListedBefore(first, rest) {
        forall x | x in s
          ensures !ListedBefore(x, first)
        {
          if ListedBefore(x, first) {
            ListedBetween(x, rest, first);
          }
        }
      } else {
        first := rest;
      }
    }
  }

  /** A pair with a known price has a newest one. */
  lemma SomePriceIsNewest(known: map<ObsKey, ObsRow>, p: Pair, k: ObsKey) returns (newest: ObsKey)
    requires k in known && PairOf(k) == p
    ensures Newest(known, p, newest)
  {
    var s := set x | x in known && PairOf(x) == p;
    assert k in s;
    newest := SomethingIsFirst(s);
  }

  ghost function TheNewest(known: map<ObsKey, ObsRow>, p: Pair): (k: ObsKey)
    requires exists k :: k in known && PairOf(k) == p
    ensures Newest(known, p, k)
  {
    var some :| some in known && PairOf(some) == p;
    assert exists k :: Newest(known, p, k) by {
      var k := SomePriceIsNewest(known, p, some);
    }
    var k :| Newest(known, p, k);
    k
  }

  /** The query has an answer at every instant. */
  lemma SomeAnswer(t: Tables, asOf: Instant, maxAge: int) returns (table: map<Pair, TrustedPrice>)
    ensures IsTrusted(t, asOf, maxAge, table)
  {
    var known := KnownAt(t.observations, asOf);
    var priced := set k | k in known :: PairOf(k);
    table := map p | p in priced && Live(PolledBy(t.polls, asOf), p, asOf, maxAge) ::
      PriceOf(TheNewest(known, p), known[TheNewest(known, p)]);
  }

  predicate OneSource(observations: map<ObsKey, ObsRow>, source: string) {
    forall k :: k in observations ==> k.source == source
  }

  /** Some live pair has, among its newest prices known at an instant, one that a run owns. */
  ghost predicate OwnsANewestPrice(t: Tables, run: RunId, asOf: Instant, maxAge: int) {
    exists p, k :: Live(PolledBy(t.polls, asOf), p, asOf, maxAge) && Newest(KnownAt(t.observations, asOf), p, k)
                   && t.observations[k].run == run
  }

  function AfterSwap(t: Tables, original: RunId, replacement: RunId, os: seq<Observation>, now: Instant): Tables {
    t.(observations := Swapped(t.observations, original, replacement, os, now))
  }

  /** What is known after a swap of an instant before it: what was, less what the original owned. */
  lemma KnownAfterSwap(t: Tables, original: RunId, replacement: RunId, os: seq<Observation>, now: Instant, asOf: Instant)
    requires asOf < now && original != replacement
    ensures KnownAt(AfterSwap(t, original, replacement, os, now).observations, asOf)
         == WithoutRun(KnownAt(t.observations, asOf), original)
  {
    var after := Swapped(t.observations, original, replacement, os, now);
    forall k
      ensures k in KnownAt(after, asOf) <==> k in WithoutRun(KnownAt(t.observations, asOf), original)
      ensures k in KnownAt(after, asOf) ==> after[k] == t.observations[k]
    {
      InsertAllRow(WithoutRun(t.observations, original), os, replacement, now, k);
    }
  }

  /** For an instant before a swap the query answers as if the original had stored nothing, whatever was written again. */
  lemma SwapAnswersWithoutTheOriginal(t: Tables, original: RunId, replacement: RunId, os: seq<Observation>, now: Instant,
                                      asOf: Instant, maxAge: int, table: map<Pair, TrustedPrice>)
    requires asOf < now && original != replacement
    ensures IsTrusted(AfterSwap(t, original, replacement, os, now), asOf, maxAge, table)
            <==> IsTrusted(t.(observations := WithoutRun(t.observations, original)), asOf, maxAge, table)
  {
    hide IsTrusted;
    KnownAfterSwap(t, original, replacement, os, now, asOf);
    assert KnownAt(WithoutRun(t.observations, original), asOf) == WithoutRun(KnownAt(t.observations, asOf), original);
    TrustReadsThePastAlone(AfterSwap(t, original, replacement, os, now),
                           t.(observations := WithoutRun(t.observations, original)), asOf, maxAge, table);
  }

  /** A pair none of whose newest prices go keeps them, and gains none. */
  lemma NewestStays(known: map<ObsKey, ObsRow>, run: RunId, p: Pair)
    requires forall k :: Newest(known, p, k) ==> known[k].run != run
    ensures forall k :: Newest(WithoutRun(known, run), p, k) <==> Newest(known, p, k)
  {
    var left := WithoutRun(known, run);
    forall k | Newest(left, p, k)
      ensures Newest(known, p, k)
    {
      var m := SomePriceIsNewest(known, p, k);
      forall x | x in known && PairOf(x) == p
        ensures !ListedBefore(x, k)
      {
        if ListedBefore(x, k) {
          ListedBetween(x, m, k);
        }
      }
    }
  }

  lemma SameNewestSameAnswers(t: Tables, t': Tables, run: RunId, asOf: Instant, maxAge: int, table: map<Pair, TrustedPrice>)
    requires t'.polls == t.polls && KnownAt(t'.observations, asOf) == WithoutRun(KnownAt(t.observations, asOf), run)
    requires !OwnsANewestPrice(t, run, asOf, maxAge)
    ensures IsTrusted(t', asOf, maxAge, table) <==> IsTrusted(t, asOf, maxAge, table)
  {
    var known, left := KnownAt(t.observations, asOf), KnownAt(t'.observations, asOf);
    forall p | Live(PolledBy(t.polls, asOf), p, asOf, maxAge)
      ensures forall k :: Newest(left, p, k) <==> Newest(known, p, k)
      ensures (exists k :: k in left && PairOf(k) == p) <==> exists k :: k in known && PairOf(k) == p
    {
      NewestStays(known, run, p);
      if k :| k in known && PairOf(k) == p {
        var newest := SomePriceIsNewest(known, p, k);
        assert newest in left;
      }
    }
  }

  /** An answer that states a price the original owned is no answer after the swap. */
  lemma AnOwnedPriceIsLost(t: Tables, t': Tables, run: RunId, source: string, asOf: Instant, maxAge: int,
                           table: map<Pair, TrustedPrice>, p: Pair, k: ObsKey)
    requires t'.polls == t.polls && KnownAt(t'.observations, asOf) == WithoutRun(KnownAt(t.observations, asOf), run)
    requires OneSource(t.observations, source) && IsTrusted(t, asOf, maxAge, table) && p in table
    requires Newest(KnownAt(t.observations, asOf), p, k) && t.observations[k].run == run
    requires table[p] == PriceOf(k, KnownAt(t.observations, asOf)[k])
    ensures !IsTrusted(t', asOf, maxAge, table)
  {
    var left := KnownAt(t'.observations, asOf);
    forall m | m in left && PairOf(m) == p
      ensures PriceOf(m, left[m]) != table[p]
    {
      assert m in t.observations && m.source == k.source && m != k;
    }
  }

  /**
   * Whatever a swap inserts, the answers for an instant before it stay the same if and
   * only if the original owned no newest known price of a live pair at that instant.
   */
  lemma SwapKeepsTheAnswersIff(t: Tables, source: string, original: RunId, replacement: RunId, os: seq<Observation>,
                               now: Instant, asOf: Instant, maxAge: int)
    requires asOf < now && original != replacement && OneSource(t.observations, source)
    ensures (forall table :: IsTrusted(AfterSwap(t, original, replacement, os, now), asOf, maxAge, table)
                             <==> IsTrusted(t, asOf, maxAge, table))
            <==> !OwnsANewestPrice(t, original, asOf, maxAge)
  {
    var t' := AfterSwap(t, original, replacement, os, now);
    KnownAfterSwap(t, original, replacement, os, now, asOf);
    if OwnsANewestPrice(t, original, asOf, maxAge) {
      var known := KnownAt(t.observations, asOf);
      var p, k :| Live(PolledBy(t.polls, asOf), p, asOf, maxAge) && Newest(known, p, k) && t.observations[k].run == original;
      var some := SomeAnswer(t, asOf, maxAge);
      var table := some[p := PriceOf(k, known[k])];
      ATieIsNotSettled(t, asOf, maxAge, some, p, k);
      AnOwnedPriceIsLost(t, t', original, source, asOf, maxAge, table, p, k);
    } else {
      forall table {
        SameNewestSameAnswers(t, t', original, asOf, maxAge, table);
      }
    }
  }

  /** Every row of a reachable state is of the one source the ledger reads. */
  lemma ReachableRowsAreOfOneSource(c: Setting, s: State)
    requires Reachable(c, s)
    ensures OneSource(s.t.observations, c.source)
  {
    ReachableIsSound(c, s);
    forall k | k in s.t.observations
      ensures k.source == c.source
    {
      assert Traced(c, s, k, s.t.observations[k]);
    }
  }

  /** The same of the replays a process can have open: what a replay does to every earlier answer. */
  lemma ReplayKeepsTheAnswersIff(c: Setting, s: State, listings: seq<seq<PollTarget>>, now: Instant, asOf: Instant,
                                 maxAge: int)
    requires Reachable(c, s) && Enabled(c, s, Swap(listings, now)) && asOf < now
    ensures (forall table :: IsTrusted(Next(c, s, Swap(listings, now)).t, asOf, maxAge, table)
                             <==> IsTrusted(s.t, asOf, maxAge, table))
            <==> !OwnsANewestPrice(s.t, s.process.original, asOf, maxAge)
  {
    hide IsTrusted, OwnsANewestPrice;
    var original := s.t.runs[s.process.original];
    var os := ReplayReadings(c, s.archive, original.priceKeys, listings, original.startedAt);
    ReachableRowsAreOfOneSource(c, s);
    assert s.process.original != s.process.replacement by {
      ReachableIsSound(c, s);
    }
    SwapKeepsTheAnswersIff(s.t, c.source, s.process.original, s.process.replacement, os, now, asOf, maxAge);
  }

  // ---------------------------------------------------------------------------
  // Prices are positive
  // ---------------------------------------------------------------------------

  /** Prices are positive, and so are the bounds a row states. */
  predicate PricesArePositive(observations: map<ObsKey, ObsRow>) {
    forall k :: k in observations ==>
      && k.price > 0
      && (observations[k].detail.minPrice.Some? ==> observations[k].detail.minPrice.value > 0)
      && (observations[k].detail.maxPrice.Some? ==> observations[k].detail.maxPrice.value > 0)
  }

  /** Only rows that satisfy the constraints of the table are ever inserted. */
  lemma InsertKeepsPositive(table: map<ObsKey, ObsRow>, os: seq<Observation>, run: RunId, now: Instant)
    requires PricesArePositive(table) && AllStorable(os)
    ensures PricesArePositive(InsertAll(table, os, run, now))
  {
    hide InsertAll, KeysOf;
    forall k | k in InsertAll(table, os, run, now)
      ensures k in table ==> InsertAll(table, os, run, now)[k] == table[k]
      ensures k !in table ==> Storable(Observation(k, InsertAll(table, os, run, now)[k].detail))
    {
      InsertAllRow(table, os, run, now, k);
    }
  }

  lemma PositiveKept(c: Setting, s: State, a: Action)
    requires PricesArePositive(s.t.observations) && Enabled(c, s, a)
    ensures PricesArePositive(Next(c, s, a).t.observations)
  {
    if a.Store? {
      var polls := BatchPolls(c, s, s.process.stage.key, a.targets);
      StorePollsInserts(s.t, polls, a.at, a.now, s.process.run);
      InsertKeepsPositive(s.t.observations, PricedOf(polls), s.process.run, a.now);
    } else if a.Swap? {
      var original := s.t.runs[s.process.original];
      var os := ReplayReadings(c, s.archive, original.priceKeys, a.listings, original.startedAt);
      InsertKeepsPositive(WithoutRun(s.t.observations, s.process.original), os, s.process.replacement, a.now);
    }
  }

  lemma {:induction false} PositiveAlways(c: Setting, s: State, actions: seq<Action>)
    requires PricesArePositive(s.t.observations) && Legal(c, s, actions)
    ensures PricesArePositive(After(c, s, actions).t.observations)
  {
    if actions != [] {
      var before := actions[..|actions| - 1];
      PositiveAlways(c, s, before);
      PositiveKept(c, After(c, s, before), actions[|actions| - 1]);
    }
  }

  // ---------------------------------------------------------------------------
  // Column by column
  // ---------------------------------------------------------------------------

  /** The newest poll of the pair by an instant was inside the window and brought a price, new or known. */
  predicate PricedInTheWindow(polls: map<PollKey, PollRow>, p: Pair, asOf: Instant, maxAge: int) {
    exists k :: k in polls && k.pair == p && k.at <= asOf && asOf - k.at < maxAge
                && (polls[k].outcome == Written || polls[k].outcome == Unchanged)
                && forall k' :: k' in polls && k'.pair == p && k'.at <= asOf ==> k'.at <= k.at
  }

  /**
   * A pair has a trusted price exactly when its newest poll by then was inside the window
   * and brought a price, and some price of it had been imported by then.
   */
  lemma TrustedIff(t: Tables, asOf: Instant, maxAge: int, table: map<Pair, TrustedPrice>, p: Pair)
    requires IsTrusted(t, asOf, maxAge, table)
    ensures p in table <==>
              && PricedInTheWindow(t.polls, p, asOf, maxAge)
              && exists k :: k in t.observations && k.asset == p.asset && k.market == p.market
                             && t.observations[k].ingestedAt <= asOf
  {
    var known, polls := KnownAt(t.observations, asOf), PolledBy(t.polls, asOf);
    if Live(polls, p, asOf, maxAge) {
      var at :| LatestPoll(polls, p, asOf, maxAge, at) && Succeeded(polls[PollKey(p, at)].outcome);
      assert PollKey(p, at) in t.polls;
    }
    if PricedInTheWindow(t.polls, p, asOf, maxAge) {
      var k :| k in t.polls && k.pair == p && k.at <= asOf && asOf - k.at < maxAge
               && (t.polls[k].outcome == Written || t.polls[k].outcome == Unchanged)
               && forall k' :: k' in t.polls && k'.pair == p && k'.at <= asOf ==> k'.at <= k.at;
      assert PollKey(p, k.at) == k;
      assert LatestPoll(polls, p, asOf, maxAge, k.at);
    }
    if k :| k in t.observations && k.asset == p.asset && k.market == p.market && t.observations[k].ingestedAt <= asOf {
      assert k in known && PairOf(k) == p;
    }
  }

  /** The row behind a trusted price: imported by then, none of the pair's newer, and its columns are the answer's. */
  lemma RowBehind(t: Tables, asOf: Instant, maxAge: int, table: map<Pair, TrustedPrice>, p: Pair) returns (k: ObsKey)
    requires IsTrusted(t, asOf, maxAge, table) && p in table
    ensures k in t.observations && k.asset == p.asset && k.market == p.market && t.observations[k].ingestedAt <= asOf
    ensures forall k' :: k' in t.observations && k'.asset == p.asset && k'.market == p.market ==>
              t.observations[k'].ingestedAt <= asOf ==> k'.observedAt <= k.observedAt
    ensures table[p].price == k.price && table[p].observedAt == k.observedAt
    ensures var floor := t.observations[k].detail.minPrice;
            table[p].minPrice == floor && (table[p].atFloor <==> floor.Some? && k.price <= floor.value)
  {
    var known := KnownAt(t.observations, asOf);
    k :| Newest(known, p, k) && table[p] == PriceOf(k, known[k]);
    forall k' | k' in t.observations && k'.asset == p.asset && k'.market == p.market
                && t.observations[k'].ingestedAt <= asOf
      ensures k'.observedAt <= k.observedAt
    {
      assert k' in known && PairOf(k') == p;
      assert !ListedBefore(k', k);
    }
  }

  lemma ReachablePricesArePositive(c: Setting, s: State)
    requires Reachable(c, s)
    ensures PricesArePositive(s.t.observations)
  {
    var start, actions :| Fresh(start) && Legal(c, start, actions) && s == After(c, start, actions);
    PositiveAlways(c, start, actions);
  }

  /** In every reachable state every trusted price is positive, and every floor, as of any instant. */
  lemma TrustedPricesArePositive(c: Setting, s: State, asOf: Instant, maxAge: int, table: map<Pair, TrustedPrice>)
    requires Reachable(c, s) && IsTrusted(s.t, asOf, maxAge, table)
    ensures forall p :: p in table ==> table[p].price > 0
    ensures forall p :: p in table ==> table[p].minPrice.Some? ==> table[p].minPrice.value > 0
  {
    hide Reachable, IsTrusted;
    ReachablePricesArePositive(c, s);
    forall p | p in table
      ensures table[p].price > 0 && (table[p].minPrice.Some? ==> table[p].minPrice.value > 0)
    {
      var k := RowBehind(s.t, asOf, maxAge, table, p);
    }
  }

  /**
   * A trusted price is what an archived payload says last of the card on that platform:
   * its price, instant and floor are the quote's, and it rests on the floor exactly when
   * the quote's price does. No price of the pair imported by then is newer.
   */
  lemma TrustedPriceIsItsQuote(c: Setting, s: State, asOf: Instant, maxAge: int, table: map<Pair, TrustedPrice>, p: Pair)
    returns (key: ObjectKey, q: Quote)
    requires Reachable(c, s) && IsTrusted(s.t, asOf, maxAge, table) && p in table
    ensures LastSaid(c, s.archive, key, q) && IsOfPair(c, s.t, q, p)
    ensures q.price == Some(table[p].price) && q.observedAt == Some(table[p].observedAt)
    ensures table[p].minPrice == q.minPrice
    ensures table[p].atFloor <==> q.minPrice.Some? && q.price.value <= q.minPrice.value
    ensures table[p].price > 0
    ensures forall k :: k in s.t.observations && k.asset == p.asset && k.market == p.market ==>
              s.t.observations[k].ingestedAt <= asOf ==> k.observedAt <= table[p].observedAt
  {
    hide IsTrusted, Reachable, LastSaid, IsOfPair;
    var k := RowBehind(s.t, asOf, maxAge, table, p);
    key, q := StoredRowIsItsQuote(c, s, k);
  }

  // ---------------------------------------------------------------------------
  // Against the earlier view
  // ---------------------------------------------------------------------------

  /** The earlier view's notion of live, read from mutable poll state. */
  predicate LiveByState(schedule: map<Pair, PollState>, p: Pair, now: Instant, maxAge: int) {
    && p in schedule && schedule[p].failures == 0
    && schedule[p].lastPolled.Some? && schedule[p].lastPolled.value > now - maxAge
  }

  /** What a faithful row says is the newest poll is, and it has no failures exactly when that poll succeeded. */
  lemma RowStatesTheNewest(polls: map<PollKey, PollRow>, p: Pair, row: PollState, since: Instant)
    requires Faithful(polls, p, row, since) && row.lastPolled.Some?
    ensures PollKey(p, row.lastPolled.value) in polls
    ensures forall k :: k in polls && k.pair == p ==> k.at <= row.lastPolled.value
    ensures row.failures == 0 <==> Succeeded(polls[PollKey(p, row.lastPolled.value)].outcome)
  {
    var t := row.lastPolled.value;
    assert PollKey(p, t) in polls;
    assert forall k :: k in polls && k.pair == p && k.at > since ==> k.at in PollsSince(polls, p, since);
    assert t in TrailingFailures(polls, p, since) <==> !Succeeded(polls[PollKey(p, t)].outcome);
    if row.failures == 0 {
      assert TrailingFailures(polls, p, since) == {};
    } else {
      var u :| u in TrailingFailures(polls, p, since);
    }
  }

  /**
   * Asked about the present, the view's live pairs are live to the function too, and
   * on pairs polled since their schedule row was created the two agree.
   */
  lemma ViewAndFunctionAgree(c: Setting, s: State, now: Instant, maxAge: int, p: Pair)
    requires CacheIsFaithful(s) && s.clock <= now && p in s.t.schedule
    ensures LiveByState(s.t.schedule, p, now, maxAge) ==> Live(PolledBy(s.t.polls, now), p, now, maxAge)
    ensures s.t.schedule[p].lastPolled.Some? ==>
              (LiveByState(s.t.schedule, p, now, maxAge) <==> Live(PolledBy(s.t.polls, now), p, now, maxAge))
  {
    hide Faithful;
    var polls, row := s.t.polls, s.t.schedule[p];
    assert PolledBy(polls, now) == polls;
    if row.lastPolled.Some? {
      RowStatesTheNewest(polls, p, row, s.since[p]);
      if row.lastPolled.value > now - maxAge {
        assert LatestPoll(polls, p, now, maxAge, row.lastPolled.value);
      }
    }
  }
}
