/** A healthy price step is one round of the schedule, so what is proved of rounds is proved of runs. */
module PriceRounds {
  import opened Domain
  import opened ObjectKeys
  import opened Ledger
  import opened Reading
  import opened Machine
  import opened Bookkeeping
  import opened PollCache
  import opened Trust
  import opened Sets
  import opened Scheduler
  import opened Trace
  import opened Ingest
  import opened IngestPrices
  import D = Database

  // ---------------------------------------------------------------------------
  // What a price step does to the schedule
  // ---------------------------------------------------------------------------

  /** Some identifier of the set is behind the row. */
  predicate IsBehind(c: Setting, t: Tables, ids: set<string>, p: Pair) { exists id :: id in ids && p in RowsOf(c, t, id) }

  /** A step keeps the roster, and moves no row but those behind the identifiers asked for. */
  ghost predicate MovesOnly(c: Setting, t: Tables, t': Tables, ids: set<string>) {
    && SameRoster(c, t, t')
    && forall p :: p in t.schedule && !IsBehind(c, t, ids, p) ==> t'.schedule[p] == t.schedule[p]
  }

  lemma RowsOfSame(c: Setting, t: Tables, t': Tables, ids: set<string>, p: Pair)
    requires SameRoster(c, t, t')
    ensures IsBehind(c, t', ids, p) <==> IsBehind(c, t, ids, p)
  {
  }

  /** A stored batch reads rows behind the identifiers its payload was asked for, all of which the process remembers. */
  lemma StoreMovesOnly(c: Setting, s: State, a: Action)
    requires Sound(c, s) && Enabled(c, s, a) && a.Store?
    ensures MovesOnly(c, s.t, Next(c, s, a).t, s.process.asked)
  {
    BatchIsBehind(c, s, a.targets, a.at, a.now);
    StorePollsFrame(s.t, BatchPolls(c, s, s.process.stage.key, a.targets), a.at, a.now, s.process.run);
    SameIdentitiesSameRows(c, s.t, Next(c, s, a).t);
  }

  lemma BatchIsBehind(c: Setting, s: State, targets: seq<PollTarget>, at: Instant, now: Instant)
    requires Sound(c, s) && CanStore(c, s, targets, at, now)
    ensures forall p :: p in PairsOf(BatchPolls(c, s, s.process.stage.key, targets)) ==> IsBehind(c, s.t, s.process.asked, p)
  {
    var key := s.process.stage.key;
    var polls := BatchPolls(c, s, key, targets);
    PairsOfMembers(polls);
    forall p | p in PairsOf(polls)
      ensures IsBehind(c, s.t, s.process.asked, p)
    {
      var i :| 0 <= i < |polls| && polls[i].pair == p;
      PollForReads(c, targets[i], QuotesAt(c, s.archive, key).value, s.t.runs[s.process.run].startedAt);
      TargetIsBehind(c, s, key, targets, i);
    }
  }

  lemma TargetIsBehind(c: Setting, s: State, key: ObjectKey, targets: seq<PollTarget>, i: nat)
    requires Sound(c, s) && s.process.Ingesting? && s.process.stage == Keyed(key)
    requires ListsPollTargets(c, s.t, IdsAt(s.archive, key), targets) && i < |targets|
    ensures IsBehind(c, s.t, s.process.asked, TargetPair(targets[i]))
  {
    assert targets[i] in targets;
    assert IsPollTarget(c, s.t, IdsAt(s.archive, key), targets[i]);
    assert key in s.archive && PriceKeyOf(key, s.process.run);
    assert targets[i].externalId in s.process.asked;
    assert TargetPair(targets[i]) in RowsOf(c, s.t, targets[i].externalId);
  }

  lemma OtherPriceActionsMoveNothing(c: Setting, s: State, a: Action)
    requires Enabled(c, s, a) && OfPrices(a) && !a.Open? && !a.Store?
    ensures var s' := Next(c, s, a);
            && s'.t == s.t.(runs := s'.t.runs) && s'.since == s.since
            && (s.process.Ingesting? ==> s'.process.Ingesting? && s.process.asked <= s'.process.asked)
  {
  }

  lemma StoreKeepsTheRest(c: Setting, s: State, a: Action)
    requires Enabled(c, s, a) && a.Store?
    ensures var s' := Next(c, s, a);
            s'.since == s.since && s'.process.Ingesting? && s'.process.asked == s.process.asked
  {
  }

  /** What a price step has moved, and what it has left. */
  ghost predicate HasMoved(c: Setting, s: State, s': State) {
    && s'.process.Ingesting? && MovesOnly(c, s.t, s'.t, s'.process.asked) && s'.since == s.since
  }

  lemma MovesCompose(c: Setting, t: Tables, mid: Tables, t': Tables, few: set<string>, many: set<string>)
    requires MovesOnly(c, t, mid, few) && MovesOnly(c, mid, t', many) && few <= many
    ensures MovesOnly(c, t, t', many)
  {
    forall p | p in t.schedule && !IsBehind(c, t, many, p)
      ensures t'.schedule[p] == t.schedule[p]
    {
      RowsOfSame(c, t, mid, many, p);
    }
  }

  lemma HasMovedOn(c: Setting, s: State, mid: State, a: Action)
    requires Sound(c, mid) && HasMoved(c, s, mid) && Enabled(c, mid, a) && OfPrices(a) && !a.Open?
    ensures HasMoved(c, s, Next(c, mid, a))
  {
    var s' := Next(c, mid, a);
    if a.Store? {
      StoreMovesOnly(c, mid, a);
      StoreKeepsTheRest(c, mid, a);
      MovesCompose(c, s.t, mid.t, s'.t, mid.process.asked, s'.process.asked);
    } else {
      OtherPriceActionsMoveNothing(c, mid, a);
      SameIdentitiesSameRows(c, mid.t, s'.t);
      assert MovesOnly(c, mid.t, s'.t, s'.process.asked);
      MovesCompose(c, s.t, mid.t, s'.t, mid.process.asked, s'.process.asked);
    }
  }

  lemma {:induction false} PriceStepMoves(c: Setting, s: State, actions: seq<Action>)
    requires Sound(c, s) && s.process.Ingesting? && Legal(c, s, actions) && OnlyPrices(actions)
    ensures HasMoved(c, s, After(c, s, actions))
  {
    if actions != [] {
      var before := actions[..|actions| - 1];
      PriceStepMoves(c, s, before);
      SoundAlways(c, s, before);
      HasMovedOn(c, s, After(c, s, before), actions[|actions| - 1]);
    }
  }

  // ---------------------------------------------------------------------------
  // A step that read all it chose
  // ---------------------------------------------------------------------------

  /** In a faithful cache a row with a poll after an instant was last read after it. */
  lemma PolledIsLastPolled(s: State, p: Pair, from: Instant, at: Instant)
    requires CacheIsFaithful(s) && p in s.t.schedule && p in s.since && s.since[p] <= from < at
    requires PollKey(p, at) in s.t.polls
    ensures s.t.schedule[p].lastPolled.Some? && from <= s.t.schedule[p].lastPolled.value <= s.clock
  {
    assert Faithful(s.t.polls, p, s.t.schedule[p], s.since[p]);
    assert PollKey(p, at).at in PollsSince(s.t.polls, p, s.since[p]);
    var last := s.t.schedule[p].lastPolled.value;
    assert last in PollsSince(s.t.polls, p, s.since[p]);
    assert PollKey(p, last) in s.t.polls;
  }

  /** A price step asked for nothing but the identifiers due at its query, and read every row behind them. */
  ghost predicate HealthyStep(c: Setting, s: State, step: seq<Action>, limit: nat, due: seq<string>) {
    && s.process.Ingesting? && Legal(c, s, step) && OnlyPrices(step)
    && IsDueSelection(c, s.t, s.clock, limit, due)
    && var end := After(c, s, step);
    && (end.process.Ingesting? ==> end.process.asked <= Members(due))
    && ReadUpTo(c, end.t, due, |due|, s.clock)
  }

  /** Such a step is a round of the schedule. */
  lemma StepIsARound(c: Setting, s: State, step: seq<Action>, limit: nat, due: seq<string>)
    requires Sound(c, s) && CacheIsFaithful(s) && HealthyStep(c, s, step, limit, due)
    ensures var end := After(c, s, step); IsRound(c, s.t, end.t, Round(s.clock, end.clock, limit, due))
  {
    var end := After(c, s, step);
    PriceStepMoves(c, s, step);
    CacheIsAlwaysFaithful(c, s, step);
    ClockRunsForward(c, s, step);
    forall id, p | id in due && p in RowsOf(c, s.t, id)
      ensures end.t.schedule[p].lastPolled.Some? && s.clock <= end.t.schedule[p].lastPolled.value <= end.clock
    {
      ReadSinceIsRecent(c, s, end, due, id, p);
    }
    forall p | p in s.t.schedule && (forall id :: id in due ==> p !in RowsOf(c, s.t, id))
      ensures end.t.schedule[p] == s.t.schedule[p]
    {
      assert !IsBehind(c, s.t, end.process.asked, p);
    }
  }

  lemma ReadSinceIsRecent(c: Setting, s: State, end: State, due: seq<string>, id: string, p: Pair)
    requires Scheduled(c, s) && CacheIsFaithful(end) && end.since == s.since && SameRoster(c, s.t, end.t)
    requires ReadUpTo(c, end.t, due, |due|, s.clock) && id in due && p in RowsOf(c, s.t, id)
    ensures p in end.t.schedule && end.t.schedule[p].lastPolled.Some?
    ensures s.clock <= end.t.schedule[p].lastPolled.value <= end.clock
  {
    var i :| 0 <= i < |due| && due[i] == id;
    assert AllRead(c, end.t, id, s.clock) && p in RowsOf(c, end.t, id);
    var at :| at > s.clock && PollKey(p, at) in end.t.polls;
    PolledIsLastPolled(end, p, s.clock, at);
  }

  lemma {:induction false} ClockRunsForward(c: Setting, s: State, actions: seq<Action>)
    requires Legal(c, s, actions)
    ensures s.clock <= After(c, s, actions).clock
  {
    if actions != [] {
      ClockRunsForward(c, s, actions[..|actions| - 1]);
      ClockNeverRunsBack(c, After(c, s, actions[..|actions| - 1]), actions[|actions| - 1]);
    }
  }

  /**
   * A run that closes healthy missed nothing it selected: every row behind every
   * identifier it chose was read after it chose, and seen = written + unchanged +
   * rejected. Its price step is a round of the schedule, and a step of the kind whose
   * repetition `TrustedRounds` is about.
   */
  method PriceStep(c: Setting, db: D.Database, store: ObjectStore, budget: Budget, run: RunId,
                   startedAt: Instant, batchSize: nat, queriedAt: Instant, world: nat -> Attempt, ghost s: State)
    returns (tally: Tally, status: RunStatus, due: seq<string>, ghost step: seq<Action>, ghost failures: seq<Failure>)
    requires Sound(c, s) && CacheIsFaithful(s) && s.t == db.View() && s.archive == store.objects
    requires s.process == Ingesting(run, budget.remaining, 0, {}, Stage.Ready)
    requires run in db.runs && db.runs[run].startedAt == startedAt
    requires s.clock <= queriedAt && ClockRuns(world, queriedAt)
    modifies db, store, budget
    ensures fresh(tally)
    ensures tally.seen == tally.written + tally.repeated + tally.rejected + Shortfall(c, startedAt, failures)
    ensures AreFailures(c, s.t, store.objects, run, tally.degraded, failures) && AsAnswered(failures, world)
    ensures status == Healthy ==>
              && failures == [] && old(budget.remaining) > 0 && Legal(c, s, [Query(queriedAt)])
              && var queried := After(c, s, [Query(queriedAt)]);
              && var limit := old(budget.remaining) * ChunkSize(batchSize);
              && HealthyStep(c, queried, step, limit, due) && After(c, queried, step).t == db.View()
              && IsRound(c, s.t, db.View(), Round(queriedAt, After(c, queried, step).clock, limit, due))
  {
    hide Sound, CacheIsFaithful, Legal, After, IsDueSelection, IsFailure, ReadUpTo, OnlyPrices, IsRound;
    tally := new Tally();
    ghost var reasons;
    ghost var limit := budget.remaining * ChunkSize(batchSize);
    due, step, reasons, failures :=
      IngestPrices.IngestPrices(c, db, store, tally, budget, run, startedAt, batchSize, queriedAt, world, s);
    status := tally.Status();
    assert tally.degraded == reasons;
    if status == Healthy {
      QueryStep(c, s, queriedAt);
      CacheIsAlwaysFaithful(c, s, [Query(queriedAt)]);
      StepIsARound(c, After(c, s, [Query(queriedAt)]), step, limit, due);
    }
  }
}
