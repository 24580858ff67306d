/**
 * The whole ledger as a state machine.
 *
 * Every action is one atomic effect on the outside world: one committed
 * transaction, one stored object, one request sent. A process may die between
 * any two of them, which is the action Crash. The advisory lock is why there is
 * at most one process; the stamps an action carries come from one clock.
 */
module Machine {
  import opened Domain
  import opened ObjectKeys
  import opened Ledger
  import opened Reading
  import opened Spend
  import opened Coverage
  import opened Sets

  /** Where an ingest run stands between two of its atomic effects. */
  datatype Stage =
    | Ready
    | Asked(chunk: seq<string>)   // the request for prices is recorded
    | ListAsked                   // the request for a list or for attributes is recorded
    | Archived(key: ObjectKey)    // the payload is stored, its key is not yet on the run
    | Keyed(key: ObjectKey)       // the key is on the run, its rows are not yet stored

  datatype Process =
    | Idle
    | Ingesting(run: RunId, remaining: nat, batch: nat, asked: set<string>, stage: Stage)
    | Replaying(original: RunId, replacement: RunId, swapped: bool)

  /**
   * `clock` is the newest stamp used. `since` remembers when each schedule row was
   * created, `issued` how many requests each run sent, and `replacing` which run each
   * replacement was opened for; nothing in the system reads them, and the properties
   * are stated with them.
   */
  datatype State = State(
    t: Tables, archive: map<ObjectKey, Envelope>, process: Process, clock: Instant,
    since: map<Pair, Instant>, issued: map<RunId, nat>, replacing: map<RunId, RunId>)

  /** What the metadata step learns of one card. */
  datatype Attributes = Attributes(name: string, rating: Option<int>, rarity: Rarity, version: string)

  datatype Action =
    | Open(run: RunId, now: Instant, readAt: Instant)
    | Query(now: Instant)         // the run asks what is due
    | Ask(chunk: seq<string>)
    | FetchFails
    | PutFails(body: string, stored: bool)
    | Put(body: string)
    | RecordKey
    | Store(targets: seq<PollTarget>, at: Instant, now: Instant)
    | StoreFails
    | AskList
    | ListAnswered(archived: Option<(Kind, nat, Envelope)>)
    | Discover(asset: AssetId, externalId: string, name: string)
    | Describe(externalId: string, attributes: Attributes, now: Instant)
    | Ensure(limit: nat, now: Instant)
    | Drop(limit: nat)
    | Close
    | Crash
    | OpenReplay(original: RunId, replacement: RunId, now: Instant)
    | Swap(listings: seq<seq<PollTarget>>, now: Instant)
    | CloseReplay

  // ---------------------------------------------------------------------------
  // Ingest
  // ---------------------------------------------------------------------------

  /** The 32-bit budget less the day's spend, truncated as the cast does, never below zero. */
  ghost function RemainingBudget(c: Setting, runs: map<RunId, Run>, readAt: Instant): nat {
    var spent := Spent(runs, Window(DayOf(readAt) * DAY, None)) % 0x1_0000_0000;
    if spent <= c.dailyBudget then c.dailyBudget - spent else 0
  }

  ghost function Opened(c: Setting, s: State, run: RunId, now: Instant, readAt: Instant): State {
    var runs := s.t.runs[run := Run(now, 0, [])];
    s.(t := s.t.(runs := runs), clock := readAt, issued := s.issued[run := 0],
       process := Ingesting(run, RemainingBudget(c, runs, readAt), 0, {}, Ready))
  }

  predicate InRun(s: State, stage: Stage) {
    s.process.Ingesting? && s.process.stage == stage && s.process.run in s.t.runs && s.process.run in s.issued
  }

  /** `take` then `record_request`: the spend is on the run before the request leaves. */
  predicate CanSpend(s: State) { InRun(s, Ready) && s.process.remaining > 0 }

  function Recorded(s: State, stage: Stage): State
    requires CanSpend(s)
  {
    var run := s.t.runs[s.process.run];
    s.(t := s.t.(runs := s.t.runs[s.process.run := run.(requests := run.requests + 1)]),
       process := s.process.(remaining := s.process.remaining - 1, stage := stage))
  }

  /** The request leaves; the run moves on to `stage`. */
  function Sent(s: State, stage: Stage, batch: nat): State
    requires s.process.Ingesting? && s.process.run in s.issued
  {
    s.(issued := s.issued[s.process.run := s.issued[s.process.run] + 1],
       process := s.process.(stage := stage, batch := batch))
  }

  function CurrentKey(s: State): ObjectKey
    requires s.process.Ingesting?
  {
    ObjectKey(Prices, s.process.run, s.process.batch)
  }

  /** The quotes of an archived payload, when it is there and parses. */
  function QuotesAt(c: Setting, archive: map<ObjectKey, Envelope>, key: ObjectKey): Option<seq<Quote>> {
    if key in archive then c.parse(archive[key]) else None
  }

  function IdsAt(archive: map<ObjectKey, Envelope>, key: ObjectKey): seq<string> {
    if key in archive then archive[key].requestedIds else []
  }

  function BatchPolls(c: Setting, s: State, key: ObjectKey, targets: seq<PollTarget>): seq<Poll>
    requires s.process.Ingesting? && s.process.run in s.t.runs && QuotesAt(c, s.archive, key).Some?
  {
    PollsFor(c, targets, QuotesAt(c, s.archive, key).value, s.t.runs[s.process.run].startedAt)
  }

  ghost predicate CanStore(c: Setting, s: State, targets: seq<PollTarget>, at: Instant, now: Instant) {
    && s.process.Ingesting? && s.process.stage.Keyed? && s.process.run in s.t.runs
    && s.clock < at < now
    && QuotesAt(c, s.archive, s.process.stage.key).Some?
    && ListsPollTargets(c, s.t, IdsAt(s.archive, s.process.stage.key), targets)
    && AllStorable(PricedOf(BatchPolls(c, s, s.process.stage.key, targets)))
  }

  // ---------------------------------------------------------------------------
  // Discovery and coverage
  // ---------------------------------------------------------------------------

  function Discovered(c: Setting, t: Tables, asset: AssetId, externalId: string, name: string): Tables {
    t.(assets := t.assets[asset := Asset(c.game, name, None, Rare, BASE_VERSION, None)],
       sourceIds := t.sourceIds[SourceKey(c.game, c.source, externalId) := asset])
  }

  function Apply(a: Asset, attributes: Attributes, now: Instant): Asset {
    a.(name := attributes.name, rating := attributes.rating, rarity := attributes.rarity,
       version := attributes.version, lastSeen := Some(now))
  }

  /** `update_asset_attributes`: the card's columns, and the interval of every row that follows it. */
  function Described(t: Tables, asset: AssetId, attributes: Attributes, now: Instant): Tables
    requires asset in t.assets
  {
    var a := Apply(t.assets[asset], attributes, now);
    t.(assets := t.assets[asset := a],
       schedule := map p | p in t.schedule ::
         if p.asset == asset then t.schedule[p].(intervalSeconds := Tier(a)) else t.schedule[p])
  }

  /** `apply_attributes` writes only when the payload's name is consistent with the one held. */
  predicate CanDescribe(c: Setting, t: Tables, externalId: string, attributes: Attributes) {
    && var key := SourceKey(c.game, c.source, externalId);
    && key in t.sourceIds && t.sourceIds[key] in t.assets
    && NameIsConsistent(c.fold, attributes.name, t.assets[t.sourceIds[key]].name)
  }

  // ---------------------------------------------------------------------------
  // Replay
  // ---------------------------------------------------------------------------

  /** Every observation the listed targets read from the payloads, validated against one start. */
  function ReplayReadings(c: Setting, archive: map<ObjectKey, Envelope>, keys: seq<ObjectKey>,
                          listings: seq<seq<PollTarget>>, startedAt: Instant): seq<Observation>
    requires |listings| == |keys|
  {
    if keys == [] then []
    else
      var last := |keys| - 1;
      ReplayReadings(c, archive, keys[..last], listings[..last], startedAt)
      + match QuotesAt(c, archive, keys[last])
        case None => []
        case Some(quotes) => Readings(c, listings[last], quotes, startedAt)
  }

  ghost predicate ListsEachPayload(c: Setting, t: Tables, archive: map<ObjectKey, Envelope>, keys: seq<ObjectKey>,
                                   listings: seq<seq<PollTarget>>) {
    && |listings| == |keys|
    && forall i :: 0 <= i < |keys| ==>
         && QuotesAt(c, archive, keys[i]).Some?
         && ListsResolved(c, t, IdsAt(archive, keys[i]), listings[i])
  }

  /** The table after the delete and the re-insert. */
  function Swapped(table: map<ObsKey, ObsRow>, original: RunId, replacement: RunId, os: seq<Observation>, now: Instant)
    : map<ObsKey, ObsRow>
  {
    InsertAll(WithoutRun(table, original), os, replacement, now)
  }

  function DeletedCount(table: map<ObsKey, ObsRow>, original: RunId): nat { |OwnedBy(table, original)| }

  function WrittenCount(table: map<ObsKey, ObsRow>, original: RunId, replacement: RunId, os: seq<Observation>, now: Instant)
    : int
  {
    |Swapped(table, original, replacement, os, now)| - |WithoutRun(table, original)|
  }

  /** A rewrite that would erase rows and write none is refused. */
  predicate Refused(table: map<ObsKey, ObsRow>, original: RunId, replacement: RunId, os: seq<Observation>, now: Instant) {
    DeletedCount(table, original) > 0 && WrittenCount(table, original, replacement, os, now) == 0
  }

  ghost predicate CanSwap(c: Setting, s: State, listings: seq<seq<PollTarget>>, now: Instant) {
    && s.process.Replaying? && !s.process.swapped && s.clock < now
    && s.process.original in s.t.runs
    && var original := s.t.runs[s.process.original];
    && ListsEachPayload(c, s.t, s.archive, original.priceKeys, listings)
    && var os := ReplayReadings(c, s.archive, original.priceKeys, listings, original.startedAt);
    && AllStorable(os)
    && !Refused(s.t.observations, s.process.original, s.process.replacement, os, now)
  }

  // ---------------------------------------------------------------------------
  // Steps and executions
  // ---------------------------------------------------------------------------

  ghost predicate Enabled(c: Setting, s: State, a: Action) {
    match a
    case Open(run, now, readAt) => s.process.Idle? && run !in s.t.runs && s.clock < now <= readAt
    case Query(now) => InRun(s, Ready) && s.clock <= now
    case Ask(chunk) => CanSpend(s) && (forall id :: id in chunk ==> id !in s.process.asked)
    case FetchFails => s.process.Ingesting? && s.process.stage.Asked? && s.process.run in s.issued
    case PutFails(_, _) => s.process.Ingesting? && s.process.stage.Asked? && s.process.run in s.issued
    case Put(_) => s.process.Ingesting? && s.process.stage.Asked? && s.process.run in s.issued
    case RecordKey => s.process.Ingesting? && s.process.stage.Archived? && s.process.run in s.t.runs
    case Store(targets, at, now) => CanStore(c, s, targets, at, now)
    case StoreFails => s.process.Ingesting? && s.process.stage.Keyed?
    case AskList => CanSpend(s)
    case ListAnswered(archived) => InRun(s, ListAsked) && (archived.Some? ==> !archived.value.0.Prices?)
    case Discover(asset, externalId, _) =>
      InRun(s, Ready) && asset !in s.t.assets && SourceKey(c.game, c.source, externalId) !in s.t.sourceIds
    case Describe(externalId, attributes, now) =>
      InRun(s, Ready) && s.clock < now && CanDescribe(c, s.t, externalId, attributes)
    case Ensure(_, now) => InRun(s, Ready) && s.clock < now
    case Drop(_) => InRun(s, Ready)
    case Close => InRun(s, Ready)
    case Crash => true
    case OpenReplay(original, replacement, now) =>
      && s.process.Idle? && replacement !in s.t.runs && s.clock < now
      && original in s.t.runs && s.t.runs[original].priceKeys != []
    case Swap(listings, now) => CanSwap(c, s, listings, now)
    case CloseReplay =>
      && s.process.Replaying? && s.process.swapped
      && s.process.original in s.t.runs && s.process.replacement in s.t.runs
  }

  ghost function Next(c: Setting, s: State, a: Action): State
    requires Enabled(c, s, a)
  {
    match a
    case Open(run, now, readAt) => Opened(c, s, run, now, readAt)
    case Query(now) => s.(clock := now)
    case Ask(chunk) =>
      var r := Recorded(s, Asked(chunk));
      r.(process := r.process.(asked := r.process.asked + Members(chunk)))
    case FetchFails => Sent(s, Ready, s.process.batch + 1)
    case PutFails(body, stored) =>
      var sent := Sent(s, Ready, s.process.batch + 1);
      if stored then sent.(archive := s.archive[CurrentKey(s) := Envelope(s.process.stage.chunk, body)]) else sent
    case Put(body) =>
      Sent(s, Archived(CurrentKey(s)), s.process.batch + 1).(
        archive := s.archive[CurrentKey(s) := Envelope(s.process.stage.chunk, body)])
    case RecordKey =>
      var run := s.t.runs[s.process.run];
      s.(t := s.t.(runs := s.t.runs[s.process.run := run.(priceKeys := run.priceKeys + [s.process.stage.key])]),
         process := s.process.(stage := Keyed(s.process.stage.key)))
    case Store(targets, at, now) =>
      s.(t := StorePolls(s.t, BatchPolls(c, s, s.process.stage.key, targets), at, now, s.process.run),
         clock := now, process := s.process.(stage := Ready))
    case StoreFails => s.(process := s.process.(stage := Ready))
    case AskList => Recorded(s, ListAsked)
    case ListAnswered(archived) =>
      var sent := Sent(s, Ready, s.process.batch);
      if archived.None? then sent
      else sent.(archive := s.archive[ObjectKey(archived.value.0, s.process.run, archived.value.1) := archived.value.2])
    case Discover(asset, externalId, name) => s.(t := Discovered(c, s.t, asset, externalId, name))
    case Describe(externalId, attributes, now) =>
      s.(t := Described(s.t, s.t.sourceIds[SourceKey(c.game, c.source, externalId)], attributes, now), clock := now)
    case Ensure(limit, now) =>
      var ensured := Ensured(s.t, c.game, Covered(s.t.assets, c.game, limit));
      s.(t := s.t.(schedule := ensured), clock := now,
         since := map p | p in ensured :: if p in s.since && p in s.t.schedule then s.since[p] else now)
    case Drop(limit) =>
      s.(t := s.t.(schedule := Dropped(s.t, c.game, Covered(s.t.assets, c.game, limit))))
    case Close => s.(process := Idle)
    case Crash => s.(process := Idle)
    case OpenReplay(original, replacement, now) =>
      s.(t := s.t.(runs := s.t.runs[replacement := Run(now, 0, [])]), clock := now, issued := s.issued[replacement := 0],
         replacing := s.replacing[replacement := original], process := Replaying(original, replacement, false))
    case Swap(listings, now) =>
      var original := s.t.runs[s.process.original];
      var os := ReplayReadings(c, s.archive, original.priceKeys, listings, original.startedAt);
      s.(t := s.t.(observations := Swapped(s.t.observations, s.process.original, s.process.replacement, os, now)),
         clock := now, process := s.process.(swapped := true))
    case CloseReplay =>
      var keys := s.t.runs[s.process.original].priceKeys;
      s.(t := s.t.(runs := s.t.runs[s.process.replacement := s.t.runs[s.process.replacement].(priceKeys := keys)]),
         process := Idle)
  }

  /** The actions of a run's price step, its opening included. */
  predicate OfPrices(a: Action) {
    a.Open? || a.Query? || a.Ask? || a.FetchFails? || a.PutFails? || a.Put? || a.RecordKey? || a.Store? || a.StoreFails?
  }

  /** Every action of the list is enabled when its turn comes. */
  ghost predicate Legal(c: Setting, s: State, actions: seq<Action>) {
    actions == []
    || (Legal(c, s, actions[..|actions| - 1])
        && Enabled(c, After(c, s, actions[..|actions| - 1]), actions[|actions| - 1]))
  }

  /** The state an execution reaches. */
  ghost function After(c: Setting, s: State, actions: seq<Action>): State {
    if actions == [] then s
    else
      var before := After(c, s, actions[..|actions| - 1]);
      var a := actions[|actions| - 1];
      if Enabled(c, before, a) then Next(c, before, a) else before
  }

  /** A ledger nobody has written to, over given markets. */
  predicate Fresh(s: State) {
    && s.t.assets == map[] && s.t.sourceIds == map[] && s.t.schedule == map[] && s.t.observations == map[]
    && s.t.polls == map[] && s.t.runs == map[] && s.archive == map[] && s.process == Idle
    && s.since == map[] && s.issued == map[] && s.replacing == map[]
  }

  ghost predicate Reachable(c: Setting, s: State) {
    exists start, actions :: Fresh(start) && Legal(c, start, actions) && s == After(c, start, actions)
  }

  lemma Extend(c: Setting, s: State, actions: seq<Action>, a: Action)
    requires Legal(c, s, actions) && Enabled(c, After(c, s, actions), a)
    ensures Legal(c, s, actions + [a])
    ensures After(c, s, actions + [a]) == Next(c, After(c, s, actions), a)
  {
    assert (actions + [a])[..|actions|] == actions;
  }
}
