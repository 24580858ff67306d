/** What every reachable state keeps true of the runs, the archive, identities and the schedule. */
module Bookkeeping {
  import opened Domain
  import opened ObjectKeys
  import opened Ledger
  import opened Coverage
  import opened Machine

  // ---------------------------------------------------------------------------
  // Runs
  // ---------------------------------------------------------------------------

  /** Every run is counted and started no later than now. */
  ghost predicate RunsCounted(s: State) {
    && s.issued.Keys == s.t.runs.Keys
    && (forall r :: r in s.t.runs ==> s.t.runs[r].startedAt <= s.clock)
  }

  /** A replacement names another run that started no later. */
  predicate ReplacementsKnown(s: State) {
    forall r :: r in s.replacing ==>
      && r in s.t.runs && s.replacing[r] in s.t.runs && s.replacing[r] != r
      && s.t.runs[s.replacing[r]].startedAt <= s.t.runs[r].startedAt
  }

  /** The running process has its run on record. */
  predicate ProcessKnown(s: State) {
    match s.process
    case Idle => true
    case Ingesting(run, _, _, _, _) => run in s.t.runs && run !in s.replacing
    case Replaying(original, replacement, _) =>
      && original in s.t.runs && replacement in s.t.runs && original != replacement
      && replacement in s.replacing && s.replacing[replacement] == original && s.t.runs[replacement].priceKeys == []
  }

  ghost predicate RunsKnown(s: State) { RunsCounted(s) && ReplacementsKnown(s) && ProcessKnown(s) }

  lemma RunsCountedKeptByPrices(c: Setting, s: State, a: Action)
    requires RunsKnown(s) && Enabled(c, s, a) && OfPrices(a)
    ensures RunsCounted(Next(c, s, a))
  {
    if a.Store? {
      StorePollsFrame(s.t, BatchPolls(c, s, s.process.stage.key, a.targets), a.at, a.now, s.process.run);
    }
  }

  lemma RunsCountedKept(c: Setting, s: State, a: Action)
    requires RunsKnown(s) && Enabled(c, s, a)
    ensures RunsCounted(Next(c, s, a))
  {
    if OfPrices(a) {
      RunsCountedKeptByPrices(c, s, a);
    }
  }

  lemma ReplacementsKnownKeptByPrices(c: Setting, s: State, a: Action)
    requires RunsKnown(s) && Enabled(c, s, a) && OfPrices(a)
    ensures ReplacementsKnown(Next(c, s, a))
  {
    if a.Store? {
      StorePollsFrame(s.t, BatchPolls(c, s, s.process.stage.key, a.targets), a.at, a.now, s.process.run);
    }
  }

  lemma ReplacementsKnownKept(c: Setting, s: State, a: Action)
    requires RunsKnown(s) && Enabled(c, s, a)
    ensures ReplacementsKnown(Next(c, s, a))
  {
    if OfPrices(a) {
      ReplacementsKnownKeptByPrices(c, s, a);
    }
  }

  lemma ProcessKnownKept(c: Setting, s: State, a: Action)
    requires RunsKnown(s) && Enabled(c, s, a)
    ensures ProcessKnown(Next(c, s, a))
  {
    if a.Store? {
      StorePollsFrame(s.t, BatchPolls(c, s, s.process.stage.key, a.targets), a.at, a.now, s.process.run);
    }
  }

  lemma RunsKnownKept(c: Setting, s: State, a: Action)
    requires RunsKnown(s) && Enabled(c, s, a)
    ensures RunsKnown(Next(c, s, a))
  {
    RunsCountedKept(c, s, a);
    ReplacementsKnownKept(c, s, a);
    ProcessKnownKept(c, s, a);
  }

  /** Runs are never removed and never restart, and no recorded key is ever taken off one. */
  predicate RunsGrow(before: map<RunId, Run>, after: map<RunId, Run>) {
    forall r :: r in before ==>
      && r in after && after[r].startedAt == before[r].startedAt
      && forall k :: k in before[r].priceKeys ==> k in after[r].priceKeys
  }

  lemma RunsGrowByPrices(c: Setting, s: State, a: Action)
    requires ProcessKnown(s) && Enabled(c, s, a) && OfPrices(a)
    ensures RunsGrow(s.t.runs, Next(c, s, a).t.runs)
  {
    if a.Store? {
      StorePollsFrame(s.t, BatchPolls(c, s, s.process.stage.key, a.targets), a.at, a.now, s.process.run);
    }
  }

  lemma RunsGrowAlways(c: Setting, s: State, a: Action)
    requires ProcessKnown(s) && Enabled(c, s, a)
    ensures RunsGrow(s.t.runs, Next(c, s, a).t.runs)
  {
    if OfPrices(a) {
      RunsGrowByPrices(c, s, a);
    }
  }

  // ---------------------------------------------------------------------------
  // The archive
  // ---------------------------------------------------------------------------

  predicate PriceKeyOf(key: ObjectKey, run: RunId) { key.kind.Prices? && key.run == run }

  /** Every recorded price key names an archived payload; an ingest run's keys are its own. */
  ghost predicate KeysArchived(s: State) {
    forall r, k :: r in s.t.runs && k in s.t.runs[r].priceKeys ==>
      k in s.archive && k.kind.Prices? && (r !in s.replacing ==> k.run == r)
  }

  /** The payload in hand is archived under the running run, and on the run before any row is stored. */
  predicate PayloadInHand(s: State) {
    s.process.Ingesting? && (s.process.stage.Archived? || s.process.stage.Keyed?) ==>
      && s.process.stage.key in s.archive && PriceKeyOf(s.process.stage.key, s.process.run)
      && (s.process.stage.Keyed? ==>
            s.process.run in s.t.runs && s.process.stage.key in s.t.runs[s.process.run].priceKeys)
  }

  lemma KeysArchivedKeptByPrices(c: Setting, s: State, a: Action)
    requires RunsKnown(s) && KeysArchived(s) && PayloadInHand(s) && Enabled(c, s, a) && OfPrices(a)
    ensures KeysArchived(Next(c, s, a))
  {
    if a.Store? {
      StorePollsFrame(s.t, BatchPolls(c, s, s.process.stage.key, a.targets), a.at, a.now, s.process.run);
    }
  }

  lemma KeysArchivedKept(c: Setting, s: State, a: Action)
    requires RunsKnown(s) && KeysArchived(s) && PayloadInHand(s) && Enabled(c, s, a)
    ensures KeysArchived(Next(c, s, a))
  {
    if OfPrices(a) {
      KeysArchivedKeptByPrices(c, s, a);
    }
  }

  /** A finished replacement carries the keys of the run it replaced, and a run in progress has no replacement. */
  ghost predicate ReplacementsCarryKeys(s: State) {
    && (forall r :: r in s.replacing && r in s.t.runs && s.replacing[r] in s.t.runs ==>
          && s.t.runs[s.replacing[r]].priceKeys != []
          && (s.t.runs[r].priceKeys == [] || s.t.runs[r].priceKeys == s.t.runs[s.replacing[r]].priceKeys))
    && (s.process.Ingesting? ==> forall r :: r in s.replacing ==> s.replacing[r] != s.process.run)
  }

  /** All the keys of one run were archived under one run. */
  predicate KeysOfOneRun(runs: map<RunId, Run>) {
    forall r, k :: r in runs && k in runs[r].priceKeys ==> k.run == runs[r].priceKeys[0].run
  }

  lemma ReplacementsCarryKeysKeptByPrices(c: Setting, s: State, a: Action)
    requires RunsKnown(s) && ReplacementsCarryKeys(s) && Enabled(c, s, a) && OfPrices(a)
    ensures ReplacementsCarryKeys(Next(c, s, a))
  {
    if a.Store? {
      StorePollsFrame(s.t, BatchPolls(c, s, s.process.stage.key, a.targets), a.at, a.now, s.process.run);
    }
  }

  lemma ReplacementsCarryKeysKept(c: Setting, s: State, a: Action)
    requires RunsKnown(s) && ReplacementsCarryKeys(s) && Enabled(c, s, a)
    ensures ReplacementsCarryKeys(Next(c, s, a))
  {
    if OfPrices(a) {
      ReplacementsCarryKeysKeptByPrices(c, s, a);
    }
  }

  lemma KeysOfOneRunKeptByPrices(c: Setting, s: State, a: Action)
    requires RunsKnown(s) && KeysArchived(s) && PayloadInHand(s) && KeysOfOneRun(s.t.runs) && Enabled(c, s, a) && OfPrices(a)
    ensures KeysOfOneRun(Next(c, s, a).t.runs)
  {
    if a.Store? {
      StorePollsFrame(s.t, BatchPolls(c, s, s.process.stage.key, a.targets), a.at, a.now, s.process.run);
    }
  }

  lemma KeysOfOneRunKept(c: Setting, s: State, a: Action)
    requires RunsKnown(s) && KeysArchived(s) && PayloadInHand(s) && KeysOfOneRun(s.t.runs) && Enabled(c, s, a)
    ensures KeysOfOneRun(Next(c, s, a).t.runs)
  {
    if OfPrices(a) {
      KeysOfOneRunKeptByPrices(c, s, a);
    }
  }

  lemma PayloadInHandKept(c: Setting, s: State, a: Action)
    requires PayloadInHand(s) && Enabled(c, s, a)
    ensures PayloadInHand(Next(c, s, a))
  {
    if a.Store? {
      StorePollsFrame(s.t, BatchPolls(c, s, s.process.stage.key, a.targets), a.at, a.now, s.process.run);
    }
  }

  /** What the running process has archived so far, and what it has not. */
  ghost predicate BatchesInOrder(s: State) {
    && (forall k :: k in s.archive ==> k.run in s.t.runs)
    && (s.process.Ingesting? ==>
          forall k :: k in s.archive && PriceKeyOf(k, s.process.run) ==> k.batch < s.process.batch)
  }

  lemma BatchesInOrderKeptByPrices(c: Setting, s: State, a: Action)
    requires RunsKnown(s) && BatchesInOrder(s) && Enabled(c, s, a) && OfPrices(a)
    ensures BatchesInOrder(Next(c, s, a))
  {
    if a.Store? {
      StorePollsFrame(s.t, BatchPolls(c, s, s.process.stage.key, a.targets), a.at, a.now, s.process.run);
    }
  }

  lemma BatchesInOrderKept(c: Setting, s: State, a: Action)
    requires RunsKnown(s) && BatchesInOrder(s) && Enabled(c, s, a)
    ensures BatchesInOrder(Next(c, s, a))
  {
    if OfPrices(a) {
      BatchesInOrderKeptByPrices(c, s, a);
    }
  }

  lemma PayloadsStayThroughPrices(c: Setting, s: State, a: Action)
    requires BatchesInOrder(s) && Enabled(c, s, a) && OfPrices(a)
    ensures forall k :: k in s.archive && k.kind.Prices? ==>
              k in Next(c, s, a).archive && Next(c, s, a).archive[k] == s.archive[k]
  {
    if a.Put? || a.PutFails? {
      assert CurrentKey(s) !in s.archive;
    }
  }

  /** No payload of prices is ever overwritten or lost, by any action, a crash included. */
  lemma PayloadsArePermanent(c: Setting, s: State, a: Action)
    requires BatchesInOrder(s) && Enabled(c, s, a)
    ensures forall k :: k in s.archive && k.kind.Prices? ==>
              k in Next(c, s, a).archive && Next(c, s, a).archive[k] == s.archive[k]
  {
    if OfPrices(a) {
      PayloadsStayThroughPrices(c, s, a);
    }
  }

  predicate NothingShared(ids: seq<string>, others: seq<string>) { forall id :: id in ids ==> id !in others }

  /** The payloads one run archived were asked for different identifiers. */
  predicate PayloadsDisjoint(archive: map<ObjectKey, Envelope>) {
    forall k, k' :: k in archive && k' in archive && k != k' && PriceKeyOf(k, k'.run) && k'.kind.Prices? ==>
      NothingShared(archive[k].requestedIds, archive[k'].requestedIds)
  }

  /** The process remembers everything its run asked for; what it asks for now is new. */
  predicate AskedSoFar(s: State) {
    s.process.Ingesting? ==>
      && (forall k, id :: k in s.archive && PriceKeyOf(k, s.process.run) && id in s.archive[k].requestedIds ==>
            id in s.process.asked && (s.process.stage.Asked? ==> id !in s.process.stage.chunk))
      && (s.process.stage.Asked? ==> forall id :: id in s.process.stage.chunk ==> id in s.process.asked)
  }

  ghost predicate AskedOnce(s: State) { PayloadsDisjoint(s.archive) && AskedSoFar(s) }

  /** What the process asked for is new, so the payload that answers it is disjoint from what is archived. */
  lemma NewPayloadIsDisjoint(s: State, body: string)
    requires BatchesInOrder(s) && AskedOnce(s) && s.process.Ingesting? && s.process.stage.Asked?
    ensures PayloadsDisjoint(s.archive[CurrentKey(s) := Envelope(s.process.stage.chunk, body)])
  {
  }

  lemma PayloadsDisjointKeptByPrices(c: Setting, s: State, a: Action)
    requires BatchesInOrder(s) && AskedOnce(s) && Enabled(c, s, a) && OfPrices(a)
    ensures PayloadsDisjoint(Next(c, s, a).archive)
  {
    if a.Put? {
      NewPayloadIsDisjoint(s, a.body);
    } else if a.PutFails? {
      NewPayloadIsDisjoint(s, a.body);
    }
  }

  lemma PayloadsDisjointKept(c: Setting, s: State, a: Action)
    requires RunsKnown(s) && BatchesInOrder(s) && AskedOnce(s) && Enabled(c, s, a)
    ensures PayloadsDisjoint(Next(c, s, a).archive)
  {
    if OfPrices(a) {
      PayloadsDisjointKeptByPrices(c, s, a);
    }
  }

  lemma AskedSoFarKeptByPrices(c: Setting, s: State, a: Action)
    requires RunsKnown(s) && BatchesInOrder(s) && AskedSoFar(s) && Enabled(c, s, a) && OfPrices(a)
    ensures AskedSoFar(Next(c, s, a))
  {
    if a.Store? {
      StorePollsFrame(s.t, BatchPolls(c, s, s.process.stage.key, a.targets), a.at, a.now, s.process.run);
    }
  }

  lemma AskedSoFarKept(c: Setting, s: State, a: Action)
    requires RunsKnown(s) && BatchesInOrder(s) && AskedSoFar(s) && Enabled(c, s, a)
    ensures AskedSoFar(Next(c, s, a))
  {
    if OfPrices(a) {
      AskedSoFarKeptByPrices(c, s, a);
    }
  }

  // ---------------------------------------------------------------------------
  // Identity and the schedule
  // ---------------------------------------------------------------------------

  /** Each identifier maps to one asset of its game, and no asset has two identifiers. */
  ghost predicate OneToOne(c: Setting, t: Tables) {
    && (forall k :: k in t.sourceIds ==>
          k.game == c.game && k.source == c.source && t.sourceIds[k] in t.assets && t.assets[t.sourceIds[k]].game == c.game)
    && (forall k, k' :: k in t.sourceIds && k' in t.sourceIds && t.sourceIds[k] == t.sourceIds[k'] ==> k == k')
  }

  /** A row of the schedule follows an asset of the game on a market of the game, at the asset's current tier. */
  ghost predicate Scheduled(c: Setting, s: State) {
    forall p :: p in s.t.schedule ==>
      && p in s.since && s.since[p] <= s.clock
      && p.asset in s.t.assets && s.t.assets[p.asset].game == c.game
      && p.market in s.t.markets && s.t.markets[p.market].game == c.game
      && s.t.schedule[p].intervalSeconds == Tier(s.t.assets[p.asset])
  }

  lemma OneToOneKeptByPrices(c: Setting, s: State, a: Action)
    requires OneToOne(c, s.t) && Enabled(c, s, a) && OfPrices(a)
    ensures OneToOne(c, Next(c, s, a).t)
  {
    if a.Store? {
      StorePollsFrame(s.t, BatchPolls(c, s, s.process.stage.key, a.targets), a.at, a.now, s.process.run);
    }
  }

  lemma OneToOneKept(c: Setting, s: State, a: Action)
    requires OneToOne(c, s.t) && Enabled(c, s, a)
    ensures OneToOne(c, Next(c, s, a).t)
  {
    if OfPrices(a) {
      OneToOneKeptByPrices(c, s, a);
    }
  }

  lemma ScheduledKeptByPrices(c: Setting, s: State, a: Action)
    requires OneToOne(c, s.t) && Scheduled(c, s) && Enabled(c, s, a) && OfPrices(a)
    ensures Scheduled(c, Next(c, s, a))
  {
    if a.Store? {
      StorePollsFrame(s.t, BatchPolls(c, s, s.process.stage.key, a.targets), a.at, a.now, s.process.run);
    }
  }

  lemma ScheduledKept(c: Setting, s: State, a: Action)
    requires OneToOne(c, s.t) && Scheduled(c, s) && Enabled(c, s, a)
    ensures Scheduled(c, Next(c, s, a))
  {
    if OfPrices(a) {
      ScheduledKeptByPrices(c, s, a);
    }
  }

  // ---------------------------------------------------------------------------
  // Every reachable state
  // ---------------------------------------------------------------------------

  ghost predicate Sound(c: Setting, s: State) {
    && RunsKnown(s) && KeysArchived(s) && PayloadInHand(s) && ReplacementsCarryKeys(s) && KeysOfOneRun(s.t.runs)
    && BatchesInOrder(s) && AskedOnce(s) && OneToOne(c, s.t) && Scheduled(c, s)
  }

  lemma SoundKept(c: Setting, s: State, a: Action)
    requires Sound(c, s) && Enabled(c, s, a)
    ensures Sound(c, Next(c, s, a))
  {
    RunsKnownKept(c, s, a);
    KeysArchivedKept(c, s, a);
    PayloadInHandKept(c, s, a);
    ReplacementsCarryKeysKept(c, s, a);
    KeysOfOneRunKept(c, s, a);
    BatchesInOrderKept(c, s, a);
    PayloadsDisjointKept(c, s, a);
    AskedSoFarKept(c, s, a);
    OneToOneKept(c, s, a);
    ScheduledKept(c, s, a);
  }

  lemma {:induction false} SoundAlways(c: Setting, s: State, actions: seq<Action>)
    requires Sound(c, s) && Legal(c, s, actions)
    ensures Sound(c, After(c, s, actions))
  {
    if actions != [] {
      var before := actions[..|actions| - 1];
      SoundAlways(c, s, before);
      SoundKept(c, After(c, s, before), actions[|actions| - 1]);
    }
  }

  /**
   * Whatever has happened, a schedule row is read daily exactly when its card is now a
   * promotion or rated 75 or above, and otherwise every third day, an unrated card included.
   */
  lemma DailyIff(c: Setting, start: State, actions: seq<Action>, p: Pair)
    requires Fresh(start) && Legal(c, start, actions) && p in After(c, start, actions).t.schedule
    ensures p.asset in After(c, start, actions).t.assets
    ensures var a, seconds := After(c, start, actions).t.assets[p.asset], After(c, start, actions).t.schedule[p].intervalSeconds;
            && (seconds == 86_400 <==> a.version != "base" || (a.rating.Some? && a.rating.value >= 75))
            && (seconds == 259_200 <==> a.version == "base" && (a.rating.Some? ==> a.rating.value < 75))
  {
    SoundAlways(c, start, actions);
    FollowsItsCard(c, After(c, start, actions), p);
  }

  lemma FollowsItsCard(c: Setting, s: State, p: Pair)
    requires Scheduled(c, s) && p in s.t.schedule
    ensures p.asset in s.t.assets
    ensures var a, seconds := s.t.assets[p.asset], s.t.schedule[p].intervalSeconds;
            && (seconds == 86_400 <==> a.version != "base" || (a.rating.Some? && a.rating.value >= 75))
            && (seconds == 259_200 <==> a.version == "base" && (a.rating.Some? ==> a.rating.value < 75))
  {
  }

  lemma {:induction false} RunsGrowThrough(c: Setting, s: State, actions: seq<Action>)
    requires Sound(c, s) && Legal(c, s, actions)
    ensures RunsGrow(s.t.runs, After(c, s, actions).t.runs)
  {
    if actions != [] {
      var before := actions[..|actions| - 1];
      RunsGrowThrough(c, s, before);
      SoundAlways(c, s, before);
      RunsGrowAlways(c, After(c, s, before), actions[|actions| - 1]);
    }
  }
}
