/** The tables of the ledger, and what each write makes of them. */
module Ledger {
  import opened Domain
  import opened ObjectKeys
  import opened Sets

  datatype SourceKey = SourceKey(game: GameId, source: string, externalId: string)

  /** What makes two observations the same one. Two prices of one instant are two observations. */
  datatype ObsKey = ObsKey(asset: AssetId, market: MarketId, source: string, observedAt: Instant, price: int)

  datatype Detail = Detail(minPrice: Option<int>, maxPrice: Option<int>, sourceRef: string)

  datatype Observation = Observation(key: ObsKey, detail: Detail)

  datatype ObsRow = ObsRow(detail: Detail, run: RunId, ingestedAt: Instant)

  datatype PollKey = PollKey(pair: Pair, at: Instant)

  datatype PollOutcome = Written | Unchanged | Rejected | NoPrice

  datatype PollRow = PollRow(sourceObservedAt: Option<Instant>, outcome: PollOutcome, run: RunId)

  datatype PollState = PollState(intervalSeconds: int, lastPolled: Option<Instant>, failures: nat)

  datatype Run = Run(startedAt: Instant, requests: nat, priceKeys: seq<ObjectKey>)

  datatype PollResult = Priced(observation: Observation) | Failed(outcome: PollOutcome)

  datatype Poll = Poll(pair: Pair, sourceObservedAt: Option<Instant>, result: PollResult)

  datatype Tables = Tables(
    assets: map<AssetId, Asset>,
    sourceIds: map<SourceKey, AssetId>,
    markets: map<MarketId, Market>,
    schedule: map<Pair, PollState>,
    observations: map<ObsKey, ObsRow>,
    polls: map<PollKey, PollRow>,
    runs: map<RunId, Run>)

  // Progress on a run row.

  function WithRequest(t: Tables, run: RunId): Tables
    requires run in t.runs
  {
    t.(runs := t.runs[run := t.runs[run].(requests := t.runs[run].requests + 1)])
  }

  function WithKey(t: Tables, run: RunId, key: ObjectKey): Tables
    requires run in t.runs
  {
    t.(runs := t.runs[run := t.runs[run].(priceKeys := t.runs[run].priceKeys + [key])])
  }

  predicate Succeeded(outcome: PollOutcome) { outcome.Written? || outcome.Unchanged? }

  // ---------------------------------------------------------------------------
  // Observations
  // ---------------------------------------------------------------------------

  predicate PositiveOrNull(bound: Option<int>) { bound.Some? ==> bound.value > 0 }

  /** The CHECK constraints of `market_observations`. A row that breaks one fails its whole transaction. */
  predicate Storable(o: Observation) {
    o.key.price > 0 && PositiveOrNull(o.detail.minPrice) && PositiveOrNull(o.detail.maxPrice)
  }

  predicate AllStorable(os: seq<Observation>) { forall o :: o in os ==> Storable(o) }

  function KeysOf(os: seq<Observation>): set<ObsKey> {
    if os == [] then {} else KeysOf(os[..|os| - 1]) + {os[|os| - 1].key}
  }

  lemma {:induction false} KeysOfMembers(os: seq<Observation>)
    ensures forall o :: o in os ==> o.key in KeysOf(os)
    ensures forall k :: k in KeysOf(os) ==> exists o :: o in os && o.key == k
  {
    if os != [] {
      KeysOfMembers(os[..|os| - 1]);
      assert os == os[..|os| - 1] + [os[|os| - 1]];
    }
  }

  /** The detail a list gives a key: that of the first observation to carry it. */
  function FirstDetail(os: seq<Observation>, key: ObsKey): (d: Detail)
    requires key in KeysOf(os)
    ensures Observation(key, d) in os
  {
    var init, last := os[..|os| - 1], os[|os| - 1];
    if key in KeysOf(init) then FirstDetail(init, key) else last.detail
  }

  function Insert(table: map<ObsKey, ObsRow>, o: Observation, run: RunId, now: Instant): map<ObsKey, ObsRow> {
    if o.key in table then table else table[o.key := ObsRow(o.detail, run, now)]
  }

  /** INSERT ... ON CONFLICT DO NOTHING for a whole list. */
  function InsertAll(table: map<ObsKey, ObsRow>, os: seq<Observation>, run: RunId, now: Instant)
    : (after: map<ObsKey, ObsRow>)
  {
    if os == [] then table
    else Insert(InsertAll(table, os[..|os| - 1], run, now), os[|os| - 1], run, now)
  }

  lemma {:induction false} InsertAllKeys(table: map<ObsKey, ObsRow>, os: seq<Observation>, run: RunId, now: Instant)
    ensures InsertAll(table, os, run, now).Keys == table.Keys + KeysOf(os)
    ensures |table| <= |InsertAll(table, os, run, now)| <= |table| + |os|
  {
    if os != [] {
      InsertAllKeys(table, os[..|os| - 1], run, now);
    }
  }

  /** What the list makes of one key: an old row stays as it is, and the first of the list wins an absent key. */
  ghost predicate InsertedRow(table: map<ObsKey, ObsRow>, os: seq<Observation>, run: RunId, now: Instant, k: ObsKey) {
    var after := InsertAll(table, os, run, now);
    if k in table then k in after && after[k] == table[k]
    else if k in KeysOf(os) then k in after && after[k] == ObsRow(FirstDetail(os, k), run, now)
    else k !in after
  }

  lemma {:induction false} InsertAllRow(table: map<ObsKey, ObsRow>, os: seq<Observation>, run: RunId, now: Instant, k: ObsKey)
    ensures InsertedRow(table, os, run, now, k)
  {
    if os != [] {
      InsertAllRow(table, os[..|os| - 1], run, now, k);
    }
  }

  // ---------------------------------------------------------------------------
  // The write path
  // ---------------------------------------------------------------------------

  /** The observations the priced polls carry, in order. */
  function PricedOf(polls: seq<Poll>): (os: seq<Observation>)
    ensures |os| <= |polls|
  {
    if polls == [] then []
    else
      var init, last := polls[..|polls| - 1], polls[|polls| - 1];
      if last.result.Priced? then PricedOf(init) + [last.result.observation] else PricedOf(init)
  }

  lemma {:induction false} PricedOfMembers(polls: seq<Poll>)
    ensures forall o :: o in PricedOf(polls) ==> exists i :: 0 <= i < |polls| && polls[i].result == Priced(o)
    ensures forall i :: 0 <= i < |polls| && polls[i].result.Priced? ==> polls[i].result.observation in PricedOf(polls)
  {
    if polls != [] {
      PricedOfMembers(polls[..|polls| - 1]);
    }
  }

  function PairsOf(polls: seq<Poll>): set<Pair> {
    if polls == [] then {} else PairsOf(polls[..|polls| - 1]) + {polls[|polls| - 1].pair}
  }

  lemma {:induction false} PairsOfMembers(polls: seq<Poll>)
    ensures forall i :: 0 <= i < |polls| ==> polls[i].pair in PairsOf(polls)
    ensures forall p :: p in PairsOf(polls) ==> exists i :: 0 <= i < |polls| && polls[i].pair == p
  {
    if polls != [] {
      PairsOfMembers(polls[..|polls| - 1]);
    }
  }

  /** A poll state after one more poll: its instant, and one failure more or none at all. */
  function Touch(s: PollState, at: Instant, failed: bool): PollState {
    s.(lastPolled := Some(at), failures := if failed then s.failures + 1 else 0)
  }

  /** A price is new or known already depending on whether its key is taken. */
  function OutcomeOf(observations: map<ObsKey, ObsRow>, poll: Poll): PollOutcome {
    match poll.result
    case Failed(why) => why
    case Priced(o) => if o.key in observations then Unchanged else Written
  }

  /** One poll written: its price if new, its poll row if absent, and the state of its schedule row if any. */
  function StorePoll(t: Tables, poll: Poll, at: Instant, now: Instant, run: RunId): Tables {
    var outcome := OutcomeOf(t.observations, poll);
    var key := PollKey(poll.pair, at);
    t.(observations := if poll.result.Priced? then Insert(t.observations, poll.result.observation, run, now)
                       else t.observations,
       polls := if key in t.polls then t.polls else t.polls[key := PollRow(poll.sourceObservedAt, outcome, run)],
       schedule := if poll.pair in t.schedule
                   then t.schedule[poll.pair := Touch(t.schedule[poll.pair], at, !Succeeded(outcome))] else t.schedule)
  }

  function StorePolls(t: Tables, polls: seq<Poll>, at: Instant, now: Instant, run: RunId): Tables {
    if polls == [] then t
    else StorePoll(StorePolls(t, polls[..|polls| - 1], at, now, run), polls[|polls| - 1], at, now, run)
  }

  /** Each pair once, prices filed under their own pair, and no failure that calls itself a success. */
  predicate WellFormedPolls(polls: seq<Poll>) {
    && (forall i, j :: 0 <= i < j < |polls| ==> polls[i].pair != polls[j].pair)
    && (forall i :: 0 <= i < |polls| && polls[i].result.Failed? ==> !Succeeded(polls[i].result.outcome))
    && (forall i :: 0 <= i < |polls| && polls[i].result.Priced? ==>
          var key := polls[i].result.observation.key; Pair(key.asset, key.market) == polls[i].pair)
  }

  lemma {:induction false} StorePollsInserts(t: Tables, polls: seq<Poll>, at: Instant, now: Instant, run: RunId)
    ensures var t' := StorePolls(t, polls, at, now, run);
            && t' == t.(observations := t'.observations, polls := t'.polls, schedule := t'.schedule)
            && t'.observations == InsertAll(t.observations, PricedOf(polls), run, now)
  {
    if polls != [] {
      var init, last := polls[..|polls| - 1], polls[|polls| - 1];
      StorePollsInserts(t, init, at, now, run);
      if last.result.Priced? {
        var os := PricedOf(polls);
        assert os[..|os| - 1] == PricedOf(init);
      }
    }
  }

  lemma {:induction false} StorePollsSchedule(t: Tables, polls: seq<Poll>, at: Instant, now: Instant, run: RunId)
    ensures var t' := StorePolls(t, polls, at, now, run);
            && t'.schedule.Keys == t.schedule.Keys
            && (forall p :: p in t.schedule ==> t'.schedule[p].intervalSeconds == t.schedule[p].intervalSeconds)
            && (forall p :: p in t.schedule && p !in PairsOf(polls) ==> t'.schedule[p] == t.schedule[p])
  {
    if polls != [] {
      StorePollsSchedule(t, polls[..|polls| - 1], at, now, run);
    }
  }

  /** Whatever the batch: observations are the plain insert of its prices, and nothing outside its pairs moves. */
  lemma StorePollsFrame(t: Tables, polls: seq<Poll>, at: Instant, now: Instant, run: RunId)
    ensures var t' := StorePolls(t, polls, at, now, run);
            && t' == t.(observations := t'.observations, polls := t'.polls, schedule := t'.schedule)
            && t'.observations == InsertAll(t.observations, PricedOf(polls), run, now)
            && t'.schedule.Keys == t.schedule.Keys
            && (forall p :: p in t.schedule ==> t'.schedule[p].intervalSeconds == t.schedule[p].intervalSeconds)
            && (forall p :: p in t.schedule && p !in PairsOf(polls) ==> t'.schedule[p] == t.schedule[p])
  {
    StorePollsInserts(t, polls, at, now, run);
    StorePollsSchedule(t, polls, at, now, run);
  }

  /** Every scheduled pair of the batch now says it was read at the batch's instant. */
  lemma {:induction false} StorePollsTouch(t: Tables, polls: seq<Poll>, at: Instant, now: Instant, run: RunId, p: Pair)
    requires p in t.schedule && p in PairsOf(polls)
    ensures var t' := StorePolls(t, polls, at, now, run); p in t'.schedule && t'.schedule[p].lastPolled == Some(at)
  {
    var init, last := polls[..|polls| - 1], polls[|polls| - 1];
    StorePollsFrame(t, init, at, now, run);
    if p != last.pair {
      StorePollsTouch(t, init, at, now, run, p);
    }
  }

  /** The coverage record gains exactly one row per pair asked about, and never loses or changes one. */
  lemma {:induction false} StorePollsRecord(t: Tables, polls: seq<Poll>, at: Instant, now: Instant, run: RunId)
    ensures var t' := StorePolls(t, polls, at, now, run);
            && (forall k :: k in t'.polls <==> k in t.polls || (k.at == at && k.pair in PairsOf(polls)))
            && (forall k :: k in t.polls ==> t'.polls[k] == t.polls[k])
  {
    if polls != [] {
      StorePollsRecord(t, polls[..|polls| - 1], at, now, run);
    }
  }

  /** The last poll of a batch names a pair, and a price key, that no earlier poll of it does. */
  lemma PairIsNew(polls: seq<Poll>)
    requires polls != [] && WellFormedPolls(polls)
    ensures var init, last := polls[..|polls| - 1], polls[|polls| - 1];
            && last.pair !in PairsOf(init)
            && (last.result.Priced? ==> last.result.observation.key !in KeysOf(PricedOf(init)))
  {
    var init, last := polls[..|polls| - 1], polls[|polls| - 1];
    PairsOfMembers(init);
    PricedOfMembers(init);
    KeysOfMembers(PricedOf(init));
  }

  /** One pair's poll row and poll state after a batch that read it. */
  predicate Landed(t: Tables, t': Tables, poll: Poll, at: Instant, run: RunId) {
    && PollKey(poll.pair, at) in t'.polls
    && t'.polls[PollKey(poll.pair, at)] == PollRow(poll.sourceObservedAt, OutcomeOf(t.observations, poll), run)
    && (poll.pair in t.schedule ==>
          poll.pair in t'.schedule
          && t'.schedule[poll.pair] == Touch(t.schedule[poll.pair], at, poll.result.Failed?))
  }

  lemma StorePollKeeps(t: Tables, mid: Tables, poll: Poll, other: Poll, at: Instant, now: Instant, run: RunId)
    requires other.pair != poll.pair && Landed(t, mid, other, at, run)
    ensures Landed(t, StorePoll(mid, poll, at, now, run), other, at, run)
  {
  }

  lemma LastPollLands(t: Tables, polls: seq<Poll>, at: Instant, now: Instant, run: RunId)
    requires polls != [] && WellFormedPolls(polls)
    requires PollKey(polls[|polls| - 1].pair, at) !in t.polls
    ensures Landed(t, StorePolls(t, polls, at, now, run), polls[|polls| - 1], at, run)
  {
    var init, last := polls[..|polls| - 1], polls[|polls| - 1];
    var mid := StorePolls(t, init, at, now, run);
    PairIsNew(polls);
    StorePollsFrame(t, init, at, now, run);
    StorePollsRecord(t, init, at, now, run);
    InsertAllKeys(t.observations, PricedOf(init), run, now);
    assert OutcomeOf(mid.observations, last) == OutcomeOf(t.observations, last);
    assert Landed(mid, StorePoll(mid, last, at, now, run), last, at, run);
  }

  /**
   * A batch that names each pair once, at an instant not used before, leaves for
   * every pair one poll row with the outcome the idempotency index dictates and a
   * poll state that says when it was read and whether that failed.
   */
  lemma {:induction false} StorePollsEffect(t: Tables, polls: seq<Poll>, at: Instant, now: Instant, run: RunId, i: nat)
    requires WellFormedPolls(polls) && i < |polls|
    requires PollKey(polls[i].pair, at) !in t.polls
    ensures Landed(t, StorePolls(t, polls, at, now, run), polls[i], at, run)
  {
    var init, last := polls[..|polls| - 1], polls[|polls| - 1];
    if i < |init| {
      assert WellFormedPolls(init) && init[i] == polls[i];
      StorePollsEffect(t, init, at, now, run, i);
      StorePollKeeps(t, StorePolls(t, init, at, now, run), last, polls[i], at, now, run);
    } else {
      LastPollLands(t, polls, at, now, run);
    }
  }

  // ---------------------------------------------------------------------------
  // The replay swap
  // ---------------------------------------------------------------------------

  /** The rows one run does not own: what its DELETE leaves. */
  function WithoutRun(table: map<ObsKey, ObsRow>, run: RunId): map<ObsKey, ObsRow> {
    map k | k in table && table[k].run != run :: table[k]
  }

  function OwnedBy(table: map<ObsKey, ObsRow>, run: RunId): set<ObsKey> {
    set k | k in table && table[k].run == run
  }

  lemma OwnedAndKept(table: map<ObsKey, ObsRow>, run: RunId)
    ensures table.Keys == OwnedBy(table, run) + WithoutRun(table, run).Keys
    ensures |table| == |OwnedBy(table, run)| + |WithoutRun(table, run)|
  {
    var owned, kept := OwnedBy(table, run), WithoutRun(table, run);
    assert table.Keys == owned + kept.Keys && owned !! kept.Keys;
    assert |table.Keys| == |owned| + |kept.Keys|;
  }

  // ---------------------------------------------------------------------------
  // Identity
  // ---------------------------------------------------------------------------

  /** The mapping and asset behind one external identifier of this source and game. */
  predicate Maps(c: Setting, t: Tables, externalId: string, asset: AssetId) {
    && var key := SourceKey(c.game, c.source, externalId);
    && key in t.sourceIds && t.sourceIds[key] == asset && asset in t.assets
  }

  /** A row of `poll_targets_for`: identity joined to the schedule. */
  predicate IsPollTarget(c: Setting, t: Tables, ids: seq<string>, target: PollTarget) {
    && target.externalId in ids
    && Maps(c, t, target.externalId, target.asset)
    && t.assets[target.asset].game == c.game
    && Pair(target.asset, target.market) in t.schedule
    && target.market in t.markets
    && target.platform == t.markets[target.market].platform
    && target.name == t.assets[target.asset].name
  }

  /** A row of `resolve_targets`: identity joined to every market of the game, scheduled or not. */
  predicate IsResolved(c: Setting, t: Tables, ids: seq<string>, target: PollTarget) {
    && target.externalId in ids
    && Maps(c, t, target.externalId, target.asset)
    && target.market in t.markets && t.markets[target.market].game == c.game
    && target.platform == t.markets[target.market].platform
    && target.name == t.assets[target.asset].name
  }

  /** SQL gives the rows in no stated order, so a result is any duplicate-free listing of them. */
  ghost predicate ListsPollTargets(c: Setting, t: Tables, ids: seq<string>, targets: seq<PollTarget>) {
    NoDuplicates(targets) && forall x :: x in targets <==> IsPollTarget(c, t, ids, x)
  }

  ghost predicate ListsResolved(c: Setting, t: Tables, ids: seq<string>, targets: seq<PollTarget>) {
    NoDuplicates(targets) && forall x :: x in targets <==> IsResolved(c, t, ids, x)
  }
}
