/** Short executions of the machine that reach the inputs the failed properties fail on. */
module Examples {
  import opened Domain
  import opened Quotes
  import opened ObjectKeys
  import opened Ledger
  import opened Reading
  import opened Spend
  import opened Coverage
  import opened Machine
  import opened Trust
  import opened Text
  import opened StrandedRows

  // ---------------------------------------------------------------------------
  // One card on two markets
  // ---------------------------------------------------------------------------

  const PC: Pair := Pair(0, 0)
  const CONSOLE: Pair := Pair(0, 1)

  /** A quote that names the card, and one that does not. */
  function PcQuote(price: int, at: Instant): Quote { Quote("1", Pc, Some(price), None, None, Some(at), Some("X")) }

  function ConsoleQuote(): Quote { Quote("1", Playstation, Some(100), None, None, Some(0), None) }

  /** Three payloads: one price, another of the same instant, another of a later one. */
  function PriceIn(body: string): int { if body == "restated" || body == "newer" then 200 else 100 }

  function InstantIn(body: string): Instant { if body == "newer" then 1 else 0 }

  function QuotesIn(body: string): seq<Quote> { [PcQuote(PriceIn(body), InstantIn(body)), ConsoleQuote()] }

  function Provider(): Setting {
    Setting("p", 0, 0, 10, (e: Envelope) => Some(QuotesIn(e.body)), (name: string) => name)
  }

  function Markets(): map<MarketId, Market> { map[0 := Market(0, Pc), 1 := Market(0, Playstation)] }

  function Card(name: string): Asset { Asset(0, name, None, Rare, BASE_VERSION, None) }

  function Identifiers(): map<SourceKey, AssetId> { map[SourceKey(0, "p", "1") := 0] }

  function Targets(name: string): seq<PollTarget> {
    [PollTarget(0, 0, "1", Pc, name), PollTarget(0, 1, "1", Playstation, name)]
  }

  /** A price of the instant 0. */
  function KeyAt(market: MarketId, price: int): ObsKey { ObsKey(0, market, "p", 0, price) }

  function PcKey(body: string): ObsKey { ObsKey(0, 0, "p", InstantIn(body), PriceIn(body)) }

  function Read(key: ObsKey): Observation { Observation(key, Detail(None, None, "1")) }

  /** What the payload reads: the named quote drops out once the card is known by another name. */
  function Reads(name: string, body: string): seq<Observation> {
    if name == "" then [Read(PcKey(body)), Read(KeyAt(1, 100))] else [Read(KeyAt(1, 100))]
  }

  /** The tables around one card, its two markets scheduled. */
  predicate OneCard(t: Tables, name: string) {
    && 0 in t.assets && t.assets.Keys == {0} && t.assets[0].game == 0 && t.assets[0].name == name
    && t.sourceIds == Identifiers() && t.markets == Markets() && t.schedule.Keys == {PC, CONSOLE}
  }

  // ---------------------------------------------------------------------------
  // What one payload reads
  // ---------------------------------------------------------------------------

  lemma QuotesOfTheCard(body: string)
    ensures LastQuote(QuotesIn(body), QuoteKey("1", Pc)) == Some(PcQuote(PriceIn(body), InstantIn(body)))
    ensures LastQuote(QuotesIn(body), QuoteKey("1", Playstation)) == Some(ConsoleQuote())
  {
    assert QuotesIn(body)[..1] == [PcQuote(PriceIn(body), InstantIn(body))];
  }

  lemma TwoPolls(polls: seq<Poll>)
    requires |polls| == 2 && polls[1].result.Priced?
    ensures PricedOf(polls) == (if polls[0].result.Priced? then [polls[0].result.observation] else [])
                               + [polls[1].result.observation]
    ensures PairsOf(polls) == {polls[0].pair, polls[1].pair}
  {
    assert polls[..1] == [polls[0]] && [polls[0]][..0] == [];
    assert PricedOf([polls[0]]) == (if polls[0].result.Priced? then [polls[0].result.observation] else []);
    assert PairsOf([polls[0]]) == {polls[0].pair};
  }

  lemma PayloadReads(name: string, body: string, startedAt: Instant)
    requires name in {"", "Y"} && startedAt >= 0
    ensures Readings(Provider(), Targets(name), QuotesIn(body), startedAt) == Reads(name, body)
    ensures PairsOf(PollsFor(Provider(), Targets(name), QuotesIn(body), startedAt)) == {PC, CONSOLE}
  {
    QuotesOfTheCard(body);
    TwoPolls(PollsFor(Provider(), Targets(name), QuotesIn(body), startedAt));
  }

  lemma TargetsAre(t: Tables, name: string)
    requires OneCard(t, name)
    ensures ListsPollTargets(Provider(), t, ["1"], Targets(name)) && ListsResolved(Provider(), t, ["1"], Targets(name))
  {
    var targets := Targets(name);
    assert SourceKey(0, "p", "1") in t.sourceIds;
    forall x
      ensures x in targets <==> IsPollTarget(Provider(), t, ["1"], x)
      ensures x in targets <==> IsResolved(Provider(), t, ["1"], x)
    {
      assert x in targets <==> x == targets[0] || x == targets[1];
    }
  }

  lemma TwoRows(table: map<ObsKey, ObsRow>, a: Observation, b: Observation, run: RunId, now: Instant)
    ensures InsertAll(table, [a, b], run, now) == Insert(Insert(table, a, run, now), b, run, now)
    ensures InsertAll(table, [b], run, now) == Insert(table, b, run, now)
  {
    assert [a, b][..1] == [a] && [a][..0] == [] && [b][..0] == [];
    assert InsertAll(table, [a], run, now) == Insert(table, a, run, now);
  }

  // ---------------------------------------------------------------------------
  // Executions
  // ---------------------------------------------------------------------------

  lemma ReachableOn(c: Setting, s: State, a: Action)
    requires Reachable(c, s) && Enabled(c, s, a)
    ensures Reachable(c, Next(c, s, a))
  {
    var start, actions :| Fresh(start) && Legal(c, start, actions) && s == After(c, start, actions);
    Extend(c, start, actions, a);
    assert Fresh(start) && Legal(c, start, actions + [a]) && Next(c, s, a) == After(c, start, actions + [a]);
  }

  /** A run asks about the card, archives the answer under its own key and stores what it reads. */
  lemma OneBatch(s: State, run: RunId, body: string, at: Instant, now: Instant) returns (s': State)
    requires Reachable(Provider(), s) && OneCard(s.t, "") && run in s.t.runs && run in s.issued
    requires s.process.Ingesting? && s.process == Ingesting(run, s.process.remaining, 0, {}, Ready) && s.process.remaining > 0
    requires 0 <= s.t.runs[run].startedAt && s.clock < at < now && forall k :: k in s.t.polls ==> k.at < at
    ensures Reachable(Provider(), s') && OneCard(s'.t, "") && InRun(s', Ready) && s'.clock == now
    ensures s'.process.run == run && s'.issued.Keys == s.issued.Keys
    ensures s'.t.observations == InsertAll(s.t.observations, Reads("", body), run, now)
    ensures forall k :: k in s'.t.polls <==> k in s.t.polls || (k.at == at && k.pair in {PC, CONSOLE})
    ensures Succeeded(s'.t.polls[PollKey(PC, at)].outcome) && Succeeded(s'.t.polls[PollKey(CONSOLE, at)].outcome)
    ensures var key := ObjectKey(Prices, run, 0);
            && s'.archive == s.archive[key := Envelope(["1"], body)]
            && s'.t.runs == s.t.runs[run := s.t.runs[run].(requests := s.t.runs[run].requests + 1,
                                                           priceKeys := s.t.runs[run].priceKeys + [key])]
  {
    var keyed := OnePayload(s, run, body);
    s' := StoreThePayload(keyed, run, body, at, now);
  }

  lemma OnePayload(s: State, run: RunId, body: string) returns (s': State)
    requires Reachable(Provider(), s) && run in s.t.runs && run in s.issued
    requires s.process.Ingesting? && s.process == Ingesting(run, s.process.remaining, 0, {}, Ready) && s.process.remaining > 0
    ensures Reachable(Provider(), s') && s'.clock == s.clock && s'.issued.Keys == s.issued.Keys
    ensures var key := ObjectKey(Prices, run, 0);
            && s'.archive == s.archive[key := Envelope(["1"], body)]
            && s'.process.Ingesting? && s'.process.run == run && s'.process.stage == Keyed(key)
            && s'.t == s.t.(runs := s.t.runs[run := s.t.runs[run].(requests := s.t.runs[run].requests + 1,
                                                                   priceKeys := s.t.runs[run].priceKeys + [key])])
  {
    hide Reachable;
    var c := Provider();
    var asked := Next(c, s, Ask(["1"]));
    ReachableOn(c, s, Ask(["1"]));
    var put := Next(c, asked, Put(body));
    ReachableOn(c, asked, Put(body));
    s' := Next(c, put, RecordKey);
    ReachableOn(c, put, RecordKey);
  }

  /** What a stored batch leaves when every one of its polls is priced. */
  lemma StoredPolls(t: Tables, polls: seq<Poll>, at: Instant, now: Instant, run: RunId)
    requires WellFormedPolls(polls) && |polls| == 2 && polls[0].result.Priced? && polls[1].result.Priced?
    requires polls[0].pair == PC && polls[1].pair == CONSOLE && forall k :: k in t.polls ==> k.at < at
    ensures var t' := StorePolls(t, polls, at, now, run);
            && t' == t.(observations := t'.observations, polls := t'.polls, schedule := t'.schedule)
            && t'.observations == InsertAll(t.observations, PricedOf(polls), run, now)
            && t'.schedule.Keys == t.schedule.Keys
            && (forall k :: k in t'.polls <==> k in t.polls || (k.at == at && k.pair in {PC, CONSOLE}))
            && Succeeded(t'.polls[PollKey(PC, at)].outcome) && Succeeded(t'.polls[PollKey(CONSOLE, at)].outcome)
  {
    StorePollsFrame(t, polls, at, now, run);
    StorePollsRecord(t, polls, at, now, run);
    TwoPolls(polls);
    StorePollsEffect(t, polls, at, now, run, 0);
    StorePollsEffect(t, polls, at, now, run, 1);
  }

  /** The run has its payload archived and recorded, and not yet stored. */
  predicate KeyedPayload(s: State, run: RunId, body: string) {
    && var key := ObjectKey(Prices, run, 0);
    && s.process.Ingesting? && s.process.run == run && s.process.stage == Keyed(key)
    && key in s.archive && s.archive[key] == Envelope(["1"], body)
  }

  lemma ThePayloadIsABatch(s: State, run: RunId, body: string)
    requires OneCard(s.t, "") && run in s.t.runs && KeyedPayload(s, run, body) && 0 <= s.t.runs[run].startedAt
    ensures var polls := BatchPolls(Provider(), s, ObjectKey(Prices, run, 0), Targets(""));
            && WellFormedPolls(polls) && |polls| == 2 && polls[0].result.Priced? && polls[1].result.Priced?
            && polls[0].pair == PC && polls[1].pair == CONSOLE && PricedOf(polls) == Reads("", body)
  {
    PayloadReads("", body, s.t.runs[run].startedAt);
    QuotesOfTheCard(body);
  }

  lemma ThePayloadCanBeStored(s: State, run: RunId, body: string, at: Instant, now: Instant)
    requires OneCard(s.t, "") && run in s.t.runs && KeyedPayload(s, run, body)
    requires 0 <= s.t.runs[run].startedAt && s.clock < at < now
    ensures CanStore(Provider(), s, Targets(""), at, now)
  {
    hide Reads, OneCard, Targets, AllStorable, BatchPolls;
    TargetsAre(s.t, "");
    ThePayloadIsABatch(s, run, body);
    StorableReads("", body);
  }

  lemma StoreThePayload(s: State, run: RunId, body: string, at: Instant, now: Instant) returns (s': State)
    requires Reachable(Provider(), s) && OneCard(s.t, "") && run in s.t.runs && run in s.issued
    requires KeyedPayload(s, run, body)
    requires 0 <= s.t.runs[run].startedAt && s.clock < at < now && forall k :: k in s.t.polls ==> k.at < at
    ensures Reachable(Provider(), s') && OneCard(s'.t, "") && InRun(s', Ready) && s'.clock == now
    ensures s'.process.run == run && s'.issued == s.issued && s'.archive == s.archive && s'.t.runs == s.t.runs
    ensures s'.t.observations == InsertAll(s.t.observations, Reads("", body), run, now)
    ensures forall k :: k in s'.t.polls <==> k in s.t.polls || (k.at == at && k.pair in {PC, CONSOLE})
    ensures Succeeded(s'.t.polls[PollKey(PC, at)].outcome) && Succeeded(s'.t.polls[PollKey(CONSOLE, at)].outcome)
  {
    hide Reachable, CanStore, Reads, InsertAll, StorePolls, BatchPolls;
    ThePayloadCanBeStored(s, run, body, at, now);
    ThePayloadIsABatch(s, run, body);
    StoredPolls(s.t, BatchPolls(Provider(), s, ObjectKey(Prices, run, 0), Targets("")), at, now, run);
    ReachableOn(Provider(), s, Store(Targets(""), at, now));
    s' := Next(Provider(), s, Store(Targets(""), at, now));
  }

  lemma FreshMarkets() returns (s: State)
    ensures Fresh(s) && s.clock == 0 && s.t.markets == Markets() && Reachable(Provider(), s)
  {
    s := State(Tables(map[], map[], Markets(), map[], map[], map[], map[]), map[], Idle, 0, map[], map[], map[]);
    assert Legal(Provider(), s, []) && s == After(Provider(), s, []);
  }

  lemma FirstOpened(first: RunId) returns (s: State)
    ensures Reachable(Provider(), s) && s.process == Ingesting(first, 10, 0, {}, Ready) && s.clock == 1
    ensures s.t == Tables(map[], map[], Markets(), map[], map[], map[], map[first := Run(1, 0, [])])
    ensures s.issued == map[first := 0] && s.archive == map[] && s.since == map[]
  {
    hide Reachable;
    var start := FreshMarkets();
    NothingSpent(map[first := Run(1, 0, [])], Window(0, None));
    s := Next(Provider(), start, Open(first, 1, 1));
    ReachableOn(Provider(), start, Open(first, 1, 1));
  }

  lemma FirstDiscovered(first: RunId) returns (s: State)
    ensures Reachable(Provider(), s) && s.process == Ingesting(first, 10, 0, {}, Ready) && s.clock == 1
    ensures s.t == Tables(map[0 := Card("")], Identifiers(), Markets(), map[], map[], map[], map[first := Run(1, 0, [])])
    ensures s.issued == map[first := 0] && s.archive == map[] && s.since == map[]
  {
    hide Reachable;
    var began := FirstOpened(first);
    s := Next(Provider(), began, Discover(0, "1", ""));
    ReachableOn(Provider(), began, Discover(0, "1", ""));
  }

  /** The first run finds the card under no name and puts its two markets on the schedule. */
  lemma CardFound(first: RunId) returns (s: State)
    ensures Reachable(Provider(), s) && OneCard(s.t, "") && s.clock == 2 && s.t.observations == map[] && s.t.polls == map[]
    ensures s.process == Ingesting(first, 10, 0, {}, Ready) && s.issued == map[first := 0] && s.archive == map[]
    ensures s.t.runs == map[first := Run(1, 0, [])]
  {
    hide Reachable;
    var c := Provider();
    var found := FirstDiscovered(first);
    CardIsCovered(found.t);
    s := Next(c, found, Ensure(1, 2));
    ReachableOn(c, found, Ensure(1, 2));
  }

  lemma CardIsCovered(t: Tables)
    requires t.assets == map[0 := Card("")] && t.markets == Markets() && t.schedule == map[]
    ensures Covered(t.assets, 0, 1) == {0}
    ensures Ensured(t, 0, {0}).Keys == {PC, CONSOLE}
  {
    assert Above(t.assets, 0, 0) == {};
    assert CoveredPairs(t, 0, {0}) == {PC, CONSOLE} by {
      assert 0 in t.markets && 1 in t.markets;
    }
  }

  function FirstRows(first: RunId): map<ObsKey, ObsRow> {
    map[KeyAt(0, 100) := ObsRow(Detail(None, None, "1"), first, 4), KeyAt(1, 100) := ObsRow(Detail(None, None, "1"), first, 4)]
  }

  /** Two prices stored by the first run, at the instant 4. */
  predicate FirstRunStored(s: State, first: RunId) {
    && OneCard(s.t, "") && InRun(s, Ready) && s.process.run == first && s.clock == 4 && s.issued.Keys == {first}
    && s.t.observations == FirstRows(first)
    && s.t.runs == map[first := Run(1, 1, [ObjectKey(Prices, first, 0)])]
    && s.archive == map[ObjectKey(Prices, first, 0) := Envelope(["1"], "")]
  }

  /** Both pairs were read at an instant, with success, and never since. */
  ghost predicate PolledAt(polls: map<PollKey, PollRow>, at: Instant) {
    && PollKey(PC, at) in polls && Succeeded(polls[PollKey(PC, at)].outcome)
    && PollKey(CONSOLE, at) in polls && Succeeded(polls[PollKey(CONSOLE, at)].outcome)
    && forall k :: k in polls ==> k.pair in {PC, CONSOLE} && k.at <= at
  }

  lemma FirstRowsAre(first: RunId)
    ensures InsertAll(map[], Reads("", ""), first, 4) == FirstRows(first)
  {
    TwoRows(map[], Read(KeyAt(0, 100)), Read(KeyAt(1, 100)), first, 4);
  }

  lemma FirstRun(first: RunId) returns (s: State)
    ensures Reachable(Provider(), s) && FirstRunStored(s, first) && PolledAt(s.t.polls, 3)
  {
    hide Reachable, Reads, InsertAll, OneCard;
    var found := CardFound(first);
    s := OneBatch(found, first, "", 3, 4);
    FirstRowsAre(first);
    assert [] + [ObjectKey(Prices, first, 0)] == [ObjectKey(Prices, first, 0)];
  }

  // ---------------------------------------------------------------------------
  // Two prices at one instant
  // ---------------------------------------------------------------------------

  lemma BothAreLive(polls: map<PollKey, PollRow>, at: Instant, asOf: Instant, maxAge: int, p: Pair)
    requires PolledAt(polls, at) && at <= asOf < at + maxAge
    ensures Live(PolledBy(polls, asOf), p, asOf, maxAge) <==> p in {PC, CONSOLE}
  {
    if p in {PC, CONSOLE} {
      assert LatestPoll(PolledBy(polls, asOf), p, asOf, maxAge, at);
    }
  }

  lemma RunClosed(s: State) returns (s': State)
    requires Reachable(Provider(), s) && InRun(s, Ready)
    ensures Reachable(Provider(), s') && s' == s.(process := Idle)
  {
    hide Reachable;
    s' := Next(Provider(), s, Close);
    ReachableOn(Provider(), s, Close);
  }

  lemma SecondOpened(s: State, first: RunId, second: RunId) returns (s': State)
    requires Reachable(Provider(), s) && FirstRunStored(s, first) && first != second
    ensures Reachable(Provider(), s') && s'.process == Ingesting(second, 9, 0, {}, Ready) && s'.clock == 5
    ensures s'.t == s.t.(runs := s.t.runs[second := Run(5, 0, [])]) && second in s'.issued
  {
    hide Reachable, OneCard;
    var closed := RunClosed(s);
    OneRequestSpent(first, second, s.t.runs);
    s' := Next(Provider(), closed, Open(second, 5, 5));
    ReachableOn(Provider(), closed, Open(second, 5, 5));
  }

  lemma OneRequestSpent(first: RunId, second: RunId, runs: map<RunId, Run>)
    requires first != second && runs == map[first := Run(1, 1, [ObjectKey(Prices, first, 0)])]
    ensures Spent(runs[second := Run(5, 0, [])], Window(0, None)) == 1
  {
    var one := Run(1, 1, [ObjectKey(Prices, first, 0)]);
    SpentUpdate(map[], first, one, Window(0, None));
    assert map[][first := one] == runs;
    SpentUpdate(runs, second, Run(5, 0, []), Window(0, None));
  }

  /** A second run asks about the card again and stores what it reads beside the first run's rows. */
  lemma SecondRun(first: RunId, second: RunId, body: string) returns (s: State)
    requires first != second
    ensures Reachable(Provider(), s) && PolledAt(s.t.polls, 6) && s.clock == 7 && InRun(s, Ready) && OneCard(s.t, "")
    ensures s.t.observations == InsertAll(FirstRows(first), Reads("", body), second, 7)
    ensures var key := ObjectKey(Prices, second, 0);
            && s.t.runs.Keys == {first, second} && s.t.runs[second] == Run(5, 1, [key])
            && key in s.archive && s.archive[key] == Envelope(["1"], body)
  {
    hide Reachable, Reads, InsertAll, OneCard;
    var stored := FirstRun(first);
    var reopened := SecondOpened(stored, first, second);
    SameCard(stored.t, reopened.t, "");
    s := OneBatch(reopened, second, body, 6, 7);
    assert [] + [ObjectKey(Prices, second, 0)] == [ObjectKey(Prices, second, 0)];
  }

  /** The rows after a second run: the first run's, and the second's for the other price. */
  lemma SecondRows(first: RunId, second: RunId, body: string)
    requires first != second && body in {"restated", "newer"}
    ensures var table := InsertAll(FirstRows(first), Reads("", body), second, 7);
            && table.Keys == {KeyAt(0, 100), PcKey(body), KeyAt(1, 100)}
            && table[KeyAt(0, 100)] == table[KeyAt(1, 100)] == ObsRow(Detail(None, None, "1"), first, 4)
            && table[PcKey(body)] == ObsRow(Detail(None, None, "1"), second, 7)
  {
    TwoRows(FirstRows(first), Read(PcKey(body)), Read(KeyAt(1, 100)), second, 7);
  }

  /** One source restates a price of the instant 0, and a second run stores it beside the first. */
  lemma Restated(first: RunId, second: RunId) returns (s: State)
    requires first != second
    ensures Reachable(Provider(), s) && PolledAt(s.t.polls, 6) && s.clock == 7
    ensures s.t.observations.Keys == {KeyAt(0, 100), KeyAt(0, 200), KeyAt(1, 100)}
    ensures forall k :: k in s.t.observations ==> s.t.observations[k].ingestedAt <= 7
  {
    hide Reachable, PolledAt, OneCard, Reads, InsertAll;
    s := SecondRun(first, second, "restated");
    SecondRows(first, second, "restated");
    assert PcKey("restated") == KeyAt(0, 200);
  }

  lemma TiedAtTheTop(t: Tables, asOf: Instant)
    requires t.observations.Keys == {KeyAt(0, 100), KeyAt(0, 200), KeyAt(1, 100)}
    requires forall k :: k in t.observations ==> t.observations[k].ingestedAt <= asOf
    ensures !NoTieAtTheTop(t, asOf, PC) && KeyAt(0, 100) in KnownAt(t.observations, asOf)
  {
    var known := KnownAt(t.observations, asOf);
    assert forall k :: k in known <==> k in {KeyAt(0, 100), KeyAt(0, 200), KeyAt(1, 100)};
    SameTextIsNotLess("p");
    assert Newest(known, PC, KeyAt(0, 100)) && Newest(known, PC, KeyAt(0, 200));
  }

  lemma SameTextIsNotLess(text: string)
    ensures !TextLess(text, text)
  {
    TextOrderIsTotal(text, text);
  }

  /** A live pair with a known price is in every answer. */
  lemma PcIsAnswered(t: Tables, at: Instant, asOf: Instant, maxAge: int, k: ObsKey, table: map<Pair, TrustedPrice>)
    requires PolledAt(t.polls, at) && at <= asOf < at + maxAge && IsTrusted(t, asOf, maxAge, table)
    requires k in KnownAt(t.observations, asOf) && PairOf(k) == PC
    ensures PC in table
  {
    BothAreLive(t.polls, at, asOf, maxAge, PC);
  }

  /** In a reachable state the trust query may answer two different tables for one instant. */
  lemma TwoAnswersAreReachable(first: RunId, second: RunId)
    returns (s: State, asOf: Instant, one: map<Pair, TrustedPrice>, other: map<Pair, TrustedPrice>)
    requires first != second
    ensures Reachable(Provider(), s) && s.clock == asOf
    ensures IsTrusted(s.t, asOf, TRUSTED_PRICE_MAX_AGE_SECONDS * SECOND, one)
    ensures IsTrusted(s.t, asOf, TRUSTED_PRICE_MAX_AGE_SECONDS * SECOND, other) && one != other
  {
    hide Reachable, IsTrusted, NoTieAtTheTop, PolledAt;
    var maxAge := TRUSTED_PRICE_MAX_AGE_SECONDS * SECOND;
    s := Restated(first, second);
    asOf := 7;
    TiedAtTheTop(s.t, asOf);
    one := SomeAnswer(s.t, asOf, maxAge);
    PcIsAnswered(s.t, 6, asOf, maxAge, KeyAt(0, 100), one);
    other := ATieGivesTwoAnswers(s.t, asOf, maxAge, one, PC);
  }

  // ---------------------------------------------------------------------------
  // One replay
  // ---------------------------------------------------------------------------

  /** A run's one payload is on record, no process is running and the card is under a name. */
  predicate Replayable(s: State, run: RunId, name: string, body: string) {
    && OneCard(s.t, name) && s.process.Idle?
    && var key := ObjectKey(Prices, run, 0);
    && run in s.t.runs && s.t.runs[run].startedAt >= 0 && s.t.runs[run].priceKeys == [key]
    && key in s.archive && s.archive[key] == Envelope(["1"], body)
  }

  /** The first run's rows, key and payload, and no other. */
  predicate BeforeReplay(s: State, first: RunId, name: string) {
    Replayable(s, first, name, "") && s.t.observations == FirstRows(first) && s.t.runs.Keys == {first}
  }

  /** The replay's one listing and what it is about to write. */
  lemma OneListing(t: Tables, archive: map<ObjectKey, Envelope>, run: RunId, name: string, body: string, startedAt: Instant)
    requires OneCard(t, name) && name in {"", "Y"} && startedAt >= 0
    requires ObjectKey(Prices, run, 0) in archive && archive[ObjectKey(Prices, run, 0)] == Envelope(["1"], body)
    ensures var key := ObjectKey(Prices, run, 0);
            && ListsEachPayload(Provider(), t, archive, [key], [Targets(name)])
            && ReplayReadings(Provider(), archive, [key], [Targets(name)], startedAt) == Reads(name, body)
  {
    var key := ObjectKey(Prices, run, 0);
    TargetsAre(t, name);
    PayloadReads(name, body, startedAt);
    assert [key][..0] == [] && [Targets(name)][..0] == [];
    assert ReplayReadings(Provider(), archive, [], [], startedAt) == [];
  }

  lemma RewrittenRows(first: RunId, second: RunId, name: string, now: Instant)
    requires name in {"", "Y"}
    ensures var table := FirstRows(first);
            var after := Swapped(table, first, second, Reads(name, ""), now);
            && after.Keys == (if name == "" then {KeyAt(0, 100), KeyAt(1, 100)} else {KeyAt(1, 100)})
            && (forall k :: k in after ==> after[k].run == second && after[k].ingestedAt == now)
            && WrittenCount(table, first, second, Reads(name, ""), now) > 0
  {
    var table := FirstRows(first);
    assert WithoutRun(table, first) == map[];
    TwoRows(map[], Read(KeyAt(0, 100)), Read(KeyAt(1, 100)), second, now);
    TwoRows(map[], Read(KeyAt(1, 100)), Read(KeyAt(1, 100)), second, now);
    var after := Swapped(table, first, second, Reads(name, ""), now);
    assert KeyAt(1, 100) in after && |after| == |after.Keys|;
  }

  lemma ReplayOpened(s: State, run: RunId, replacement: RunId, name: string, body: string) returns (s': State)
    requires Reachable(Provider(), s) && Replayable(s, run, name, body) && replacement !in s.t.runs
    ensures Reachable(Provider(), s') && s'.process == Replaying(run, replacement, false) && s'.clock == s.clock + 1
    ensures s'.t == s.t.(runs := s.t.runs[replacement := Run(s.clock + 1, 0, [])]) && s'.archive == s.archive
  {
    hide Reachable;
    s' := Next(Provider(), s, OpenReplay(run, replacement, s.clock + 1));
    ReachableOn(Provider(), s, OpenReplay(run, replacement, s.clock + 1));
  }

  lemma ReplaySwapped(s: State, first: RunId, second: RunId, os: seq<Observation>, listings: seq<seq<PollTarget>>)
    returns (s': State)
    requires Reachable(Provider(), s) && s.process == Replaying(first, second, false)
    requires first in s.t.runs && ListsEachPayload(Provider(), s.t, s.archive, s.t.runs[first].priceKeys, listings)
    requires ReplayReadings(Provider(), s.archive, s.t.runs[first].priceKeys, listings, s.t.runs[first].startedAt) == os
    requires AllStorable(os) && WrittenCount(s.t.observations, first, second, os, s.clock + 1) > 0
    ensures Reachable(Provider(), s') && s'.process == Replaying(first, second, true) && s'.clock == s.clock + 1
    ensures s'.t == s.t.(observations := Swapped(s.t.observations, first, second, os, s.clock + 1))
  {
    hide Reachable, Swapped, ReplayReadings, ListsEachPayload, AllStorable, WrittenCount, DeletedCount;
    s' := Next(Provider(), s, Swap(listings, s.clock + 1));
    ReachableOn(Provider(), s, Swap(listings, s.clock + 1));
  }

  /** Replaying a run: opened, then swapped. */
  lemma OneReplay(s: State, run: RunId, replacement: RunId, name: string, body: string) returns (s': State)
    requires Reachable(Provider(), s) && Replayable(s, run, name, body) && name in {"", "Y"}
    requires replacement !in s.t.runs && WrittenCount(s.t.observations, run, replacement, Reads(name, body), s.clock + 2) > 0
    ensures Reachable(Provider(), s') && s'.process == Replaying(run, replacement, true) && s'.clock == s.clock + 2
    ensures s'.t == s.t.(observations := Swapped(s.t.observations, run, replacement, Reads(name, body), s.clock + 2),
                         runs := s.t.runs[replacement := Run(s.clock + 1, 0, [])])
  {
    hide Reachable, Reads, Swapped, Targets, ReplayReadings, ListsEachPayload, AllStorable, WrittenCount, OneCard;
    var began := ReplayOpened(s, run, replacement, name, body);
    SameCard(s.t, began.t, name);
    OneListing(began.t, s.archive, run, name, body, s.t.runs[run].startedAt);
    StorableReads(name, body);
    s' := ReplaySwapped(began, run, replacement, Reads(name, body), [Targets(name)]);
  }

  lemma SameCard(t: Tables, t': Tables, name: string)
    requires OneCard(t, name) && t' == t.(runs := t'.runs)
    ensures OneCard(t', name)
  {
  }

  lemma StorableReads(name: string, body: string)
    ensures AllStorable(Reads(name, body))
  {
  }

  lemma FirstRunClosed(first: RunId) returns (s: State)
    ensures Reachable(Provider(), s) && BeforeReplay(s, first, "") && s.clock == 4 && PolledAt(s.t.polls, 3)
  {
    hide Reachable;
    var stored := FirstRun(first);
    s := RunClosed(stored);
  }

  lemma FirstRowsAreKnown(first: RunId)
    ensures KeyAt(0, 100) in KnownAt(FirstRows(first), 4)
    ensures forall k :: k in KnownAt(FirstRows(first), 4) ==> k in FirstRows(first) && FirstRows(first)[k].run == first
  {
  }

  /** A replay after which a pair that was trusted at an instant is not trusted at that instant. */
  lemma AForgottenPastIsReachable(first: RunId, second: RunId)
    returns (s: State, s': State, asOf: Instant, before: map<Pair, TrustedPrice>)
    requires first != second
    ensures Reachable(Provider(), s) && Reachable(Provider(), s') && s'.process == Replaying(first, second, true)
    ensures s'.t.observations == Swapped(s.t.observations, first, second, Reads("", ""), s'.clock)
    ensures IsTrusted(s.t, asOf, TRUSTED_PRICE_MAX_AGE_SECONDS * SECOND, before) && PC in before
    ensures forall after :: IsTrusted(s'.t, asOf, TRUSTED_PRICE_MAX_AGE_SECONDS * SECOND, after) ==> PC !in after
  {
    hide Reachable, IsTrusted, PolledAt, Reads, Swapped, OneCard, FirstRows, KnownAt, WrittenCount;
    var maxAge := TRUSTED_PRICE_MAX_AGE_SECONDS * SECOND;
    s := FirstRunClosed(first);
    RewrittenRows(first, second, "", s.clock + 2);
    s' := OneReplay(s, first, second, "", "");
    asOf := 4;
    before := SomeAnswer(s.t, asOf, maxAge);
    FirstRowsAreKnown(first);
    PcIsAnswered(s.t, 3, asOf, maxAge, KeyAt(0, 100), before);
    forall after | IsTrusted(s'.t, asOf, maxAge, after)
      ensures PC !in after
    {
      TrustReadsThePastAlone(s'.t, s.t.(observations := s'.t.observations), asOf, maxAge, after);
      ReplayForgets(s.t, first, second, Reads("", ""), s'.clock, asOf, maxAge, PC, before, after);
    }
  }

  /** A replay killed after its swap: a row whose run has no keys, in a reachable state. */
  lemma AStrandedRowIsReachable(first: RunId, second: RunId) returns (s: State, k: ObsKey)
    requires first != second
    ensures Reachable(Provider(), s) && k in s.t.observations && s.t.observations[k].run == second && Stranded(s, second)
  {
    hide Reachable, PolledAt, OneCard, Swapped, Reads, FirstRows, WrittenCount;
    var closed := FirstRunClosed(first);
    RewrittenRows(first, second, "", closed.clock + 2);
    var swapped := OneReplay(closed, first, second, "", "");
    s, k := Next(Provider(), swapped, Crash), KeyAt(0, 100);
    ReachableOn(Provider(), swapped, Crash);
  }

  // ---------------------------------------------------------------------------
  // An older price in place of a newer one
  // ---------------------------------------------------------------------------

  /** What a replay of the second run leaves known at an instant before it: the first run's rows. */
  lemma NewerIsForgotten(first: RunId, second: RunId, third: RunId, now: Instant)
    requires first != second && third != second && now > 7
    ensures var table := InsertAll(FirstRows(first), Reads("", "newer"), second, 7);
            && WithoutRun(KnownAt(table, 7), second) == FirstRows(first)
            && WrittenCount(table, second, third, Reads("", "newer"), now) > 0
  {
    var table := InsertAll(FirstRows(first), Reads("", "newer"), second, 7);
    SecondRows(first, second, "newer");
    assert WithoutRun(table, second) == FirstRows(first);
    TwoRows(FirstRows(first), Read(PcKey("newer")), Read(KeyAt(1, 100)), third, now);
    assert Swapped(table, second, third, Reads("", "newer"), now).Keys == FirstRows(first).Keys + {PcKey("newer")};
    assert |FirstRows(first).Keys + {PcKey("newer")}| == |FirstRows(first).Keys| + 1;
  }

  /** Where one row of the pair is newest, every answer states its price. */
  lemma StatesTheNewest(t: Tables, asOf: Instant, maxAge: int, k: ObsKey, table: map<Pair, TrustedPrice>)
    requires IsTrusted(t, asOf, maxAge, table) && PC in table && k.source == "p" && PairOf(k) == PC
    requires k in KnownAt(t.observations, asOf)
    requires forall x :: x in KnownAt(t.observations, asOf) && PairOf(x) == PC && x != k ==> x.observedAt < k.observedAt
    ensures table[PC].price == k.price
  {
  }

  lemma BothRunsClosed(first: RunId, second: RunId) returns (s: State)
    requires first != second
    ensures Reachable(Provider(), s) && PolledAt(s.t.polls, 6) && s.clock == 7 && Replayable(s, second, "", "newer")
    ensures s.t.observations == InsertAll(FirstRows(first), Reads("", "newer"), second, 7) && s.t.runs.Keys == {first, second}
  {
    hide Reachable, PolledAt, OneCard, Reads, InsertAll;
    var stored := SecondRun(first, second, "newer");
    s := RunClosed(stored);
  }

  /**
   * One run stored a price of 100 and a later one a newer price of 200, which the query
   * answers at the instant 7. Replaying the later run makes it answer 100 for that instant.
   */
  lemma AnOlderPriceIsReachable(first: RunId, second: RunId, third: RunId) returns (s: State, s': State, asOf: Instant)
    requires first != second && first != third && second != third
    ensures Reachable(Provider(), s) && Reachable(Provider(), s') && s.clock == asOf
    ensures s'.process == Replaying(second, third, true)
    ensures s'.t.observations == Swapped(s.t.observations, second, third, Reads("", "newer"), s'.clock)
    ensures forall table: map<Pair, TrustedPrice> :: IsTrusted(s.t, asOf, TRUSTED_PRICE_MAX_AGE_SECONDS * SECOND, table) ==>
              PC in table && table[PC].price == 200
    ensures forall table: map<Pair, TrustedPrice> :: IsTrusted(s'.t, asOf, TRUSTED_PRICE_MAX_AGE_SECONDS * SECOND, table) ==>
              PC in table && table[PC].price == 100
  {
    hide Reachable, IsTrusted, PolledAt, OneCard, Reads, Swapped, InsertAll, WrittenCount;
    s := BothRunsClosed(first, second);
    NewerIsForgotten(first, second, third, s.clock + 2);
    s' := OneReplay(s, second, third, "", "newer");
    asOf := 7;
    NewerIsAnswered(s.t, first, second);
    KnownAfterSwap(s.t, second, third, Reads("", "newer"), s'.clock, asOf);
    OlderIsAnswered(s'.t, first);
  }

  lemma NewerIsAnswered(t: Tables, first: RunId, second: RunId)
    requires first != second && PolledAt(t.polls, 6)
    requires t.observations == InsertAll(FirstRows(first), Reads("", "newer"), second, 7)
    ensures forall table: map<Pair, TrustedPrice> :: IsTrusted(t, 7, TRUSTED_PRICE_MAX_AGE_SECONDS * SECOND, table) ==>
              PC in table && table[PC].price == 200
  {
    hide IsTrusted, PolledAt, Reads, InsertAll;
    var maxAge := TRUSTED_PRICE_MAX_AGE_SECONDS * SECOND;
    SecondRows(first, second, "newer");
    forall table: map<Pair, TrustedPrice> | IsTrusted(t, 7, maxAge, table)
      ensures PC in table && table[PC].price == 200
    {
      PcIsAnswered(t, 6, 7, maxAge, PcKey("newer"), table);
      StatesTheNewest(t, 7, maxAge, PcKey("newer"), table);
    }
  }

  lemma OlderIsAnswered(t: Tables, first: RunId)
    requires PolledAt(t.polls, 6) && KnownAt(t.observations, 7) == FirstRows(first)
    ensures forall table: map<Pair, TrustedPrice> :: IsTrusted(t, 7, TRUSTED_PRICE_MAX_AGE_SECONDS * SECOND, table) ==>
              PC in table && table[PC].price == 100
  {
    hide IsTrusted, PolledAt;
    var maxAge := TRUSTED_PRICE_MAX_AGE_SECONDS * SECOND;
    forall table: map<Pair, TrustedPrice> | IsTrusted(t, 7, maxAge, table)
      ensures PC in table && table[PC].price == 100
    {
      PcIsAnswered(t, 6, 7, maxAge, KeyAt(0, 100), table);
      StatesTheNewest(t, 7, maxAge, KeyAt(0, 100), table);
    }
  }

  // ---------------------------------------------------------------------------
  // A card that was given another name
  // ---------------------------------------------------------------------------

  lemma Renamed(first: RunId) returns (s: State)
    ensures Reachable(Provider(), s) && BeforeReplay(s, first, "Y")
  {
    hide Reachable;
    var c, attributes := Provider(), Attributes("Y", None, Rare, BASE_VERSION);
    var stored := FirstRun(first);
    var described := Next(c, stored, Describe("1", attributes, 5));
    ReachableOn(c, stored, Describe("1", attributes, 5));
    s := RunClosed(described);
  }

  /**
   * Nothing was held, so a quote that names the card X was stored, and so was a
   * description that names it Y. A replay of the run validates against Y: it goes
   * through, and the row it stored under the other name is gone.
   */
  lemma ARowLostToANameIsReachable(first: RunId, second: RunId) returns (s: State, s': State, k: ObsKey)
    requires first != second
    ensures Reachable(Provider(), s) && Reachable(Provider(), s') && s'.process == Replaying(first, second, true)
    ensures k in s.t.observations && s.t.observations[k].run == first && k !in s'.t.observations
  {
    hide Reachable;
    s := Renamed(first);
    RewrittenRows(first, second, "Y", s.clock + 2);
    s' := OneReplay(s, first, second, "Y", "");
    k := KeyAt(0, 100);
  }
}
