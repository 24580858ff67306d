/** Healthy runs one after another: how long an identifier can wait, and why what is read in time stays trusted. */
module TrustedRounds {
  import opened Domain
  import opened Ledger
  import opened Machine
  import opened Bookkeeping
  import opened Provenance
  import opened PollCache
  import opened Trust
  import opened Scheduler
  import opened IngestPrices
  import opened PriceRounds
  import opened Trace

  /**
   * A healthy run, from its due query on: its price step, then everything up to the
   * next healthy run's due query. Runs that end degraded, requests of other kinds and
   * crashes are part of the rest.
   */
  datatype Turn = Turn(step: seq<Action>, rest: seq<Action>, limit: nat, due: seq<string>)

  predicate NoSwap(actions: seq<Action>) { forall a :: a in actions ==> !a.Swap? }

  /** The run stores nothing out of turn: no degraded run stored a batch before the next healthy one. */
  predicate Quiet(actions: seq<Action>) { forall a :: a in actions ==> !a.Store? }

  /** Coverage decides what it decided before: no action adds a row to the schedule or takes one off. */
  ghost predicate KeepsCoverage(c: Setting, s: State, actions: seq<Action>) {
    forall i :: 0 <= i <= |actions| ==> After(c, s, actions[..i]).t.schedule.Keys == s.t.schedule.Keys
  }

  /** Between the two price steps no replay swaps, and coverage, tiers and identifiers stay. */
  ghost predicate IsTurn(c: Setting, s: State, s': State, turn: Turn) {
    && HealthyStep(c, s, turn.step, turn.limit, turn.due)
    && var end := After(c, s, turn.step);
    && Legal(c, end, turn.rest) && NoSwap(turn.rest) && KeepsCoverage(c, end, turn.rest)
    && s' == After(c, end, turn.rest) && SameRoster(c, end.t, s'.t)
  }

  /** An execution of the machine in healthy runs, each with room for at least k identifiers. */
  ghost predicate AreTurns(c: Setting, ss: seq<State>, turns: seq<Turn>, k: nat) {
    && |ss| == |turns| + 1 && Reachable(c, ss[0])
    && forall i :: 0 <= i < |turns| ==> IsTurn(c, ss[i], ss[i + 1], turns[i]) && k <= turns[i].limit
  }

  // ---------------------------------------------------------------------------
  // Every state of the execution is sound
  // ---------------------------------------------------------------------------

  lemma ReachableCacheIsFaithful(c: Setting, s: State)
    requires Reachable(c, s)
    ensures CacheIsFaithful(s)
  {
    var start, actions :| Fresh(start) && Legal(c, start, actions) && s == After(c, start, actions);
    CacheIsAlwaysFaithful(c, start, actions);
  }

  lemma TurnKeepsSound(c: Setting, s: State, s': State, turn: Turn)
    requires Sound(c, s) && CacheIsFaithful(s) && IsTurn(c, s, s', turn)
    ensures Sound(c, s') && CacheIsFaithful(s')
    ensures var end := After(c, s, turn.step); Sound(c, end) && CacheIsFaithful(end)
  {
    hide Sound, CacheIsFaithful, HealthyStep;
    var end := After(c, s, turn.step);
    assert Legal(c, s, turn.step) by {
      StepIsLegal(c, s, turn.step, turn.limit, turn.due);
    }
    SoundAlways(c, s, turn.step);
    CacheIsAlwaysFaithful(c, s, turn.step);
    SoundAlways(c, end, turn.rest);
    CacheIsAlwaysFaithful(c, end, turn.rest);
  }

  lemma StepIsLegal(c: Setting, s: State, step: seq<Action>, limit: nat, due: seq<string>)
    requires HealthyStep(c, s, step, limit, due)
    ensures Legal(c, s, step) && s.process.Ingesting? && OnlyPrices(step)
  {
  }

  lemma {:induction false} TurnsAreSound(c: Setting, ss: seq<State>, turns: seq<Turn>, k: nat, i: nat)
    requires AreTurns(c, ss, turns, k) && i < |ss|
    ensures Sound(c, ss[i]) && CacheIsFaithful(ss[i])
  {
    hide Sound, CacheIsFaithful, IsTurn, Reachable;
    if i == 0 {
      ReachableIsSound(c, ss[0]);
      ReachableCacheIsFaithful(c, ss[0]);
    } else {
      TurnsAreSound(c, ss, turns, k, i - 1);
      TurnKeepsSound(c, ss[i - 1], ss[i], turns[i - 1]);
    }
  }

  // ---------------------------------------------------------------------------
  // What the rest of a turn can do to a row
  // ---------------------------------------------------------------------------

  /** A row keeps what it says of its polls, or says that it was read between two instants. */
  predicate KeptOrRead(row: PollState, row': PollState, from: Instant, to: Instant) {
    SameReads(row, row') || (row'.lastPolled.Some? && from <= row'.lastPolled.value <= to)
  }

  lemma OneActionOnARow(c: Setting, s: State, a: Action, p: Pair)
    requires Enabled(c, s, a) && p in s.t.schedule && p in s.since && p in Next(c, s, a).t.schedule
    ensures var s' := Next(c, s, a);
            && p in s'.since && s'.since[p] == s.since[p] && s.clock <= s'.clock
            && KeptOrRead(s.t.schedule[p], s'.t.schedule[p], s.clock, s'.clock)
  {
    ClockNeverRunsBack(c, s, a);
    if a.Store? {
      var polls := BatchPolls(c, s, s.process.stage.key, a.targets);
      StorePollsSchedule(s.t, polls, a.at, a.now, s.process.run);
      if p in PairsOf(polls) {
        StorePollsTouch(s.t, polls, a.at, a.now, s.process.run, p);
      }
    } else if !a.Ensure? {
      OtherActionsLeaveRows(c, s, a);
    }
  }

  lemma {:induction false} RestOnARow(c: Setting, s: State, rest: seq<Action>, p: Pair)
    requires Legal(c, s, rest) && KeepsCoverage(c, s, rest) && p in s.t.schedule && p in s.since
    ensures var s' := After(c, s, rest);
            && p in s'.t.schedule && p in s'.since && s'.since[p] == s.since[p] && s.clock <= s'.clock
            && KeptOrRead(s.t.schedule[p], s'.t.schedule[p], s.clock, s'.clock)
    ensures Quiet(rest) ==> SameReads(s.t.schedule[p], After(c, s, rest).t.schedule[p])
  {
    hide Enabled, Next;
    if rest != [] {
      var before, last := rest[..|rest| - 1], rest[|rest| - 1];
      forall i | 0 <= i <= |before|
        ensures After(c, s, before[..i]).t.schedule.Keys == s.t.schedule.Keys
      {
        assert before[..i] == rest[..i];
      }
      RestOnARow(c, s, before, p);
      assert rest[..|rest|] == rest;
      OneActionOnARow(c, After(c, s, before), last, p);
      if Quiet(rest) {
        assert last in rest && forall a :: a in before ==> a in rest;
        QuietActionOnARow(c, After(c, s, before), last, p);
      }
    }
  }

  lemma QuietActionOnARow(c: Setting, s: State, a: Action, p: Pair)
    requires Enabled(c, s, a) && !a.Store? && p in s.t.schedule && p in Next(c, s, a).t.schedule
    ensures SameReads(s.t.schedule[p], Next(c, s, a).t.schedule[p])
  {
    if !a.Ensure? {
      OtherActionsLeaveRows(c, s, a);
    }
  }

  // ---------------------------------------------------------------------------
  // A turn is a round in which other rows may be read as well
  // ---------------------------------------------------------------------------

  ghost function RoundOf(s: State, s': State, turn: Turn): Round { Round(s.clock, s'.clock, turn.limit, turn.due) }

  lemma RowThroughATurn(c: Setting, s: State, s': State, turn: Turn, p: Pair)
    requires Sound(c, s) && CacheIsFaithful(s) && IsTurn(c, s, s', turn) && p in s.t.schedule
    ensures var end := After(c, s, turn.step);
            && p in end.t.schedule && p in s'.t.schedule && s.clock <= end.clock <= s'.clock
            && KeptOrRead(end.t.schedule[p], s'.t.schedule[p], end.clock, s'.clock)
            && s'.t.schedule[p].intervalSeconds == end.t.schedule[p].intervalSeconds
            && (Quiet(turn.rest) ==> s'.t.schedule[p] == end.t.schedule[p])
  {
    hide Sound, CacheIsFaithful, HealthyStep, IsDueSelection;
    var end := After(c, s, turn.step);
    StepIsARound(c, s, turn.step, turn.limit, turn.due);
    TurnKeepsSound(c, s, s', turn);
    assert p in end.since by {
      FollowedSince(c, end, p);
    }
    RestOnARow(c, end, turn.rest, p);
  }

  lemma FollowedSince(c: Setting, s: State, p: Pair)
    requires Sound(c, s) && p in s.t.schedule
    ensures p in s.since
  {
  }

  lemma TurnIsAnAdvance(c: Setting, s: State, s': State, turn: Turn)
    requires Sound(c, s) && CacheIsFaithful(s) && IsTurn(c, s, s', turn)
    ensures IsAdvance(c, s.t, s'.t, RoundOf(s, s', turn))
  {
    hide Sound, CacheIsFaithful, HealthyStep, IsDueSelection, KeepsCoverage;
    var end := After(c, s, turn.step);
    StepIsARound(c, s, turn.step, turn.limit, turn.due);
    RoundIsAnAdvance(c, s.t, end.t, Round(s.clock, end.clock, turn.limit, turn.due));
    ClockRunsForward(c, end, turn.rest);
    forall p | p in s.t.schedule
      ensures LeftOrRead(s.t.schedule[p], s'.t.schedule[p], s.clock)
      ensures end.t.schedule[p].lastPolled.Some? && s.clock <= end.t.schedule[p].lastPolled.value <= end.clock ==>
                s'.t.schedule[p].lastPolled.Some? && s.clock <= s'.t.schedule[p].lastPolled.value <= s'.clock
    {
      RowThroughATurn(c, s, s', turn, p);
    }
  }

  ghost function TablesOf(ss: seq<State>): seq<Tables> { seq(|ss|, i requires 0 <= i < |ss| => ss[i].t) }

  ghost function RoundsOf(ss: seq<State>, turns: seq<Turn>): seq<Round>
    requires |ss| == |turns| + 1
  {
    seq(|turns|, i requires 0 <= i < |turns| => RoundOf(ss[i], ss[i + 1], turns[i]))
  }

  lemma TurnsAreAdvances(c: Setting, ss: seq<State>, turns: seq<Turn>, k: nat)
    requires AreTurns(c, ss, turns, k)
    ensures AreAdvances(c, TablesOf(ss), RoundsOf(ss, turns), k)
    ensures RowsApart(c, ss[0].t) && PositiveIntervals(ss[0].t)
  {
    hide Sound, CacheIsFaithful, IsTurn, IsAdvance, Reachable;
    forall i | 0 <= i < |turns|
      ensures IsAdvance(c, ss[i].t, ss[i + 1].t, RoundOf(ss[i], ss[i + 1], turns[i]))
    {
      TurnsAreSound(c, ss, turns, k, i);
      TurnIsAnAdvance(c, ss[i], ss[i + 1], turns[i]);
    }
    TurnsAreSound(c, ss, turns, k, 0);
    SoundSchedule(c, ss[0]);
  }

  lemma SoundSchedule(c: Setting, s: State)
    requires Sound(c, s)
    ensures RowsApart(c, s.t) && PositiveIntervals(s.t)
  {
    OneToOneKeepsApart(c, s.t);
  }

  // ---------------------------------------------------------------------------
  // Bounded wait
  // ---------------------------------------------------------------------------

  /** The row was read in turn j by some run that degraded. */
  predicate ReadOutOfTurn(ss: seq<State>, turns: seq<Turn>, j: nat, p: Pair)
    requires j < |turns| && |ss| == |turns| + 1
  {
    && !Quiet(turns[j].rest) && p in ss[j + 1].t.schedule
    && ss[j + 1].t.schedule[p].lastPolled.Some? && ss[j].clock <= ss[j + 1].t.schedule[p].lastPolled.value
  }

  lemma SomeTurnMoves(c: Setting, ss: seq<State>, turns: seq<Turn>, k: nat, x: string, p: Pair) returns (j: nat)
    requires k > 0 && AreTurns(c, ss, turns, k)
    requires p in RowsOf(c, ss[0].t, x) && RowDue(ss[0].t.schedule[p], ss[0].clock)
    requires RoundsFor(|Roster(c, ss[0].t)|, k) <= |turns|
    ensures j < |turns| && p in RowsOf(c, ss[j].t, x) && (x in turns[j].due || !Waits(ss[j].t, ss[j + 1].t, p))
  {
    hide Reachable, IsAdvance, IsTurn, Roster, AreAdvances, RowsOf, Waits, RowDue;
    TurnsAreAdvances(c, ss, turns, k);
    assert RowsOf(c, ss[0].t, x) != {};
    OnTheRosterIff(c, ss[0].t, x);
    EnoughRounds(|Roster(c, ss[0].t)|, k, 0);
    j := RoundThatReads(c, TablesOf(ss), RoundsOf(ss, turns), k, x, p);
  }

  /**
   * Bounded wait over runs: with room for k identifiers in each healthy run and n on
   * the schedule, a row that is due at the first one's query is read within n / k
   * healthy runs, rounded up, however many degraded ones come between them. Either a
   * healthy run selects its identifier and reads every row behind it, or a degraded
   * run has read the row before.
   */
  lemma BoundedWaitOverRuns(c: Setting, ss: seq<State>, turns: seq<Turn>, k: nat, x: string, p: Pair)
    requires k > 0 && AreTurns(c, ss, turns, k)
    requires p in RowsOf(c, ss[0].t, x) && RowDue(ss[0].t.schedule[p], ss[0].clock)
    requires RoundsFor(|Roster(c, ss[0].t)|, k) <= |turns|
    ensures exists j :: 0 <= j < |turns| &&
              ((x in turns[j].due && AllRead(c, After(c, ss[j], turns[j].step).t, x, ss[j].clock))
               || ReadOutOfTurn(ss, turns, j, p))
  {
    hide Reachable, IsTurn, Sound, CacheIsFaithful, AllRead, RowsOf;
    var j := SomeTurnMoves(c, ss, turns, k, x, p);
    TurnsAreSound(c, ss, turns, k, j);
    if x in turns[j].due {
      DueIsRead(c, ss[j], ss[j + 1], turns[j], x);
    } else {
      MovedOutOfTurn(c, ss[j], ss[j + 1], turns[j], x, p);
      assert ReadOutOfTurn(ss, turns, j, p);
    }
  }

  lemma DueIsRead(c: Setting, s: State, s': State, turn: Turn, x: string)
    requires IsTurn(c, s, s', turn) && x in turn.due
    ensures AllRead(c, After(c, s, turn.step).t, x, s.clock)
  {
    var i :| 0 <= i < |turn.due| && turn.due[i] == x;
    assert AllRead(c, After(c, s, turn.step).t, turn.due[i], s.clock);
  }

  /** A row whose identifier was not selected moves in the rest of the turn alone, and only by a store. */
  lemma MovedOutOfTurn(c: Setting, s: State, s': State, turn: Turn, x: string, p: Pair)
    requires Sound(c, s) && CacheIsFaithful(s) && IsTurn(c, s, s', turn)
    requires p in RowsOf(c, s.t, x) && x !in turn.due && !Waits(s.t, s'.t, p)
    ensures !Quiet(turn.rest) && p in s'.t.schedule
    ensures s'.t.schedule[p].lastPolled.Some? && s.clock <= s'.t.schedule[p].lastPolled.value
  {
    hide Sound, CacheIsFaithful, HealthyStep, IsDueSelection, KeepsCoverage;
    var end := After(c, s, turn.step);
    StepIsARound(c, s, turn.step, turn.limit, turn.due);
    SoundSchedule(c, s);
    RowKeepsWaiting(c, s.t, end.t, Round(s.clock, end.clock, turn.limit, turn.due), x, p);
    RowThroughATurn(c, s, s', turn, p);
  }

  // ---------------------------------------------------------------------------
  // What every action leaves of polls and prices
  // ---------------------------------------------------------------------------

  predicate PollsGrow(polls: map<PollKey, PollRow>, polls': map<PollKey, PollRow>) {
    forall k :: k in polls ==> k in polls' && polls'[k] == polls[k]
  }

  lemma PollsGrowByOne(c: Setting, s: State, a: Action)
    requires Enabled(c, s, a)
    ensures PollsGrow(s.t.polls, Next(c, s, a).t.polls)
  {
    if a.Store? {
      StorePollsRecord(s.t, BatchPolls(c, s, s.process.stage.key, a.targets), a.at, a.now, s.process.run);
    } else {
      OtherActionsLeavePolls(c, s, a);
    }
  }

  lemma {:induction false} PollsGrowThrough(c: Setting, s: State, actions: seq<Action>)
    requires Legal(c, s, actions)
    ensures PollsGrow(s.t.polls, After(c, s, actions).t.polls)
  {
    hide Next, Enabled;
    if actions != [] {
      PollsGrowThrough(c, s, actions[..|actions| - 1]);
      PollsGrowByOne(c, After(c, s, actions[..|actions| - 1]), actions[|actions| - 1]);
    }
  }

  lemma RowStaysByOne(c: Setting, s: State, a: Action, k: ObsKey)
    requires Enabled(c, s, a) && !a.Swap? && k in s.t.observations
    ensures var t' := Next(c, s, a).t; k in t'.observations && t'.observations[k] == s.t.observations[k]
  {
    if a.Store? {
      var polls := BatchPolls(c, s, s.process.stage.key, a.targets);
      StorePollsInserts(s.t, polls, a.at, a.now, s.process.run);
      InsertAllRow(s.t.observations, PricedOf(polls), s.process.run, a.now, k);
    }
  }

  lemma {:induction false} RowStays(c: Setting, s: State, actions: seq<Action>, k: ObsKey)
    requires Legal(c, s, actions) && (forall a :: a in actions ==> !a.Swap?) && k in s.t.observations
    ensures var t' := After(c, s, actions).t; k in t'.observations && t'.observations[k] == s.t.observations[k]
  {
    hide Next, Enabled;
    if actions != [] {
      RowStays(c, s, actions[..|actions| - 1], k);
      RowStaysByOne(c, After(c, s, actions[..|actions| - 1]), actions[|actions| - 1], k);
    }
  }

  lemma TurnKeepsRows(c: Setting, s: State, s': State, turn: Turn, k: ObsKey)
    requires IsTurn(c, s, s', turn) && k in s.t.observations
    ensures k in s'.t.observations && s'.t.observations[k] == s.t.observations[k]
  {
    StepIsLegal(c, s, turn.step, turn.limit, turn.due);
    RowStays(c, s, turn.step, k);
    RowStays(c, After(c, s, turn.step), turn.rest, k);
  }

  lemma TurnKeepsPolls(c: Setting, s: State, s': State, turn: Turn)
    requires IsTurn(c, s, s', turn)
    ensures PollsGrow(s.t.polls, After(c, s, turn.step).t.polls)
    ensures PollsGrow(After(c, s, turn.step).t.polls, s'.t.polls)
  {
    StepIsLegal(c, s, turn.step, turn.limit, turn.due);
    PollsGrowThrough(c, s, turn.step);
    PollsGrowThrough(c, After(c, s, turn.step), turn.rest);
  }

  lemma RowsArePermanent(c: Setting, ss: seq<State>, turns: seq<Turn>, k: nat, i: nat, seen: ObsKey)
    requires AreTurns(c, ss, turns, k) && i < |ss| && seen in ss[0].t.observations
    ensures seen in ss[i].t.observations && ss[i].t.observations[seen] == ss[0].t.observations[seen]
  {
    hide IsTurn, Reachable;
    for n := 0 to i
      invariant seen in ss[n].t.observations && ss[n].t.observations[seen] == ss[0].t.observations[seen]
    {
      TurnKeepsRows(c, ss[n], ss[n + 1], turns[n], seen);
    }
  }

  lemma PollsAreKept(c: Setting, ss: seq<State>, turns: seq<Turn>, k: nat, j: nat, i: nat)
    requires AreTurns(c, ss, turns, k) && j <= i < |ss|
    ensures PollsGrow(ss[j].t.polls, ss[i].t.polls)
  {
    hide IsTurn, Reachable;
    for n := j to i
      invariant PollsGrow(ss[j].t.polls, ss[n].t.polls)
    {
      TurnKeepsPolls(c, ss[n], ss[n + 1], turns[n]);
    }
  }

  // ---------------------------------------------------------------------------
  // One pair, always read well
  // ---------------------------------------------------------------------------

  predicate AllSucceed(polls: map<PollKey, PollRow>, p: Pair, first: Instant) {
    forall k :: k in polls && k.pair == p && k.at >= first ==> Succeeded(polls[k].outcome)
  }

  /** The pair's last read is on record, no earlier than a first one, and nothing has failed since its last success. */
  predicate WellRead(s: State, p: Pair, first: Instant) {
    && p in s.t.schedule && s.t.schedule[p].lastPolled.Some? && s.t.schedule[p].failures == 0
    && PollKey(p, s.t.schedule[p].lastPolled.value) in s.t.polls
    && first <= s.t.schedule[p].lastPolled.value <= s.clock
  }

  lemma WellReadAtFirst(s: State, p: Pair)
    requires CacheIsFaithful(s) && p in s.t.schedule && s.t.schedule[p].lastPolled.Some? && s.t.schedule[p].failures == 0
    ensures WellRead(s, p, s.t.schedule[p].lastPolled.value)
  {
    assert Faithful(s.t.polls, p, s.t.schedule[p], s.since[p]);
  }

  lemma NothingTrails(polls: map<PollKey, PollRow>, p: Pair, since: Instant, first: Instant, last: Instant)
    requires AllSucceed(polls, p, first) && first <= last && PollKey(p, last) in polls
    requires forall u :: u in PollsSince(polls, p, since) ==> u <= last
    ensures TrailingFailures(polls, p, since) == {}
  {
    forall u
      ensures u !in TrailingFailures(polls, p, since)
    {
      assert PollKey(p, u) in polls && u > since ==> u in PollsSince(polls, p, since);
    }
  }

  /** A price step leaves the pair well read, because the cache says so of the polls it left. */
  lemma StepKeepsWellRead(s: State, end: State, p: Pair, first: Instant)
    requires CacheIsFaithful(s) && CacheIsFaithful(end) && p in end.t.schedule
    requires p in s.since && p in end.since && end.since[p] == s.since[p]
    requires WellRead(s, p, first) && PollsGrow(s.t.polls, end.t.polls) && AllSucceed(end.t.polls, p, first)
    ensures WellRead(end, p, first)
  {
    var since, last := s.since[p], s.t.schedule[p].lastPolled.value;
    assert Faithful(s.t.polls, p, s.t.schedule[p], since) && Faithful(end.t.polls, p, end.t.schedule[p], since);
    assert PollKey(p, last) in end.t.polls && last in PollsSince(end.t.polls, p, since);
    var newest := end.t.schedule[p].lastPolled.value;
    assert PollKey(p, newest) in end.t.polls;
    NothingTrails(end.t.polls, p, since, first, newest);
  }

  lemma TurnKeepsWellRead(c: Setting, s: State, s': State, turn: Turn, p: Pair, first: Instant)
    requires Sound(c, s) && CacheIsFaithful(s) && IsTurn(c, s, s', turn)
    requires WellRead(s, p, first) && AllSucceed(s'.t.polls, p, first)
    ensures WellRead(s', p, first)
  {
    hide Sound, CacheIsFaithful, HealthyStep;
    var end := After(c, s, turn.step);
    TurnKeepsSound(c, s, s', turn);
    TurnKeepsPolls(c, s, s', turn);
    StepIsLegal(c, s, turn.step, turn.limit, turn.due);
    PriceStepMoves(c, s, turn.step);
    FollowedSince(c, s, p);
    assert AllSucceed(end.t.polls, p, first);
    StepKeepsWellRead(s, end, p, first);
    RestOnARow(c, end, turn.rest, p);
    StepKeepsWellRead(end, s', p, first);
  }

  // ---------------------------------------------------------------------------
  // The cadence
  // ---------------------------------------------------------------------------

  function LastRead(t: Tables, p: Pair): Instant {
    if p in t.schedule && t.schedule[p].lastPolled.Some? then t.schedule[p].lastPolled.value else 0
  }

  function BandOf(t: Tables, p: Pair): int { if p in t.schedule then t.schedule[p].intervalSeconds * SECOND else 0 }

  predicate GapsWithin(ss: seq<State>, g: nat) {
    forall i :: 0 <= i < |ss| - 1 ==> ss[i + 1].clock <= ss[i].clock + g
  }

  /**
   * Healthy runs that ask at most g apart, the first no more than g after a read of
   * the pair that had not failed, and no poll of the pair that failed since.
   */
  ghost predicate Cadence(c: Setting, ss: seq<State>, turns: seq<Turn>, k: nat, g: nat, x: string, p: Pair) {
    && AreTurns(c, ss, turns, k) && GapsWithin(ss, g)
    && p in RowsOf(c, ss[0].t, x) && ss[0].t.schedule[p].lastPolled.Some? && ss[0].t.schedule[p].failures == 0
    && ss[0].clock <= LastRead(ss[0].t, p) + g
    && AllSucceed(ss[|turns|].t.polls, p, LastRead(ss[0].t, p))
  }

  lemma SucceededThroughout(c: Setting, ss: seq<State>, turns: seq<Turn>, k: nat, g: nat, x: string, p: Pair, i: nat)
    requires Cadence(c, ss, turns, k, g, x, p) && i < |ss|
    ensures AllSucceed(ss[i].t.polls, p, LastRead(ss[0].t, p))
  {
    hide IsTurn, Reachable;
    PollsAreKept(c, ss, turns, k, i, |turns|);
  }

  lemma StaysWellRead(c: Setting, ss: seq<State>, turns: seq<Turn>, k: nat, g: nat, x: string, p: Pair, i: nat)
    requires Cadence(c, ss, turns, k, g, x, p) && i < |ss|
    ensures WellRead(ss[i], p, LastRead(ss[0].t, p))
  {
    hide Sound, CacheIsFaithful, IsTurn, Reachable;
    TurnsAreSound(c, ss, turns, k, 0);
    WellReadAtFirst(ss[0], p);
    for n := 0 to i
      invariant WellRead(ss[n], p, LastRead(ss[0].t, p))
    {
      TurnsAreSound(c, ss, turns, k, n);
      SucceededThroughout(c, ss, turns, k, g, x, p, n + 1);
      TurnKeepsWellRead(c, ss[n], ss[n + 1], turns[n], p, LastRead(ss[0].t, p));
    }
  }

  /** What the runs before run i have left of the pair. */
  lemma ReadAtTurn(c: Setting, ss: seq<State>, turns: seq<Turn>, k: nat, g: nat, x: string, p: Pair, i: nat)
    requires Cadence(c, ss, turns, k, g, x, p) && i < |ss|
    ensures WellRead(ss[i], p, LastRead(ss[0].t, p)) && p in RowsOf(c, ss[i].t, x)
    ensures BandOf(ss[i].t, p) == BandOf(ss[0].t, p) > 0
    ensures SameRoster(c, ss[0].t, ss[i].t)
  {
    hide AreAdvances;
    StaysWellRead(c, ss, turns, k, g, x, p, i);
    TurnsAreAdvances(c, ss, turns, k);
    RosterStays(c, TablesOf(ss), RoundsOf(ss, turns), k, i);
  }

  // ---------------------------------------------------------------------------
  // How old the last read can be
  // ---------------------------------------------------------------------------

  /**
   * Run j is where the pair fell due, if it is still waiting in run i; otherwise j is
   * i and the pair has been due for less than one gap.
   */
  ghost predicate FellDueAt(ss: seq<State>, turns: seq<Turn>, g: nat, x: string, p: Pair, i: nat, j: nat)
    requires i <= |turns| && |ss| == |turns| + 1
  {
    var due := LastRead(ss[i].t, p) + BandOf(ss[i].t, p);
    && j <= i && ss[j].clock < due + g
    && (j < i ==> due <= ss[j].clock && p in ss[i].t.schedule && p in ss[j].t.schedule
                  && ss[j].t.schedule[p] == ss[i].t.schedule[p]
                  && forall m :: j <= m < i ==> x !in turns[m].due && Waits(ss[m].t, ss[m + 1].t, p))
  }

  /** One turn reads the row after its query, or leaves it alone and does not select its identifier. */
  lemma TurnReadsOrLeaves(c: Setting, t: Tables, t': Tables, r: Round, x: string, p: Pair)
    requires IsAdvance(c, t, t', r) && p in RowsOf(c, t, x)
    ensures p in t'.schedule
    ensures r.askedAt <= LastRead(t', p) || (x !in r.selected && t'.schedule[p] == t.schedule[p])
  {
    assert LeftOrRead(t.schedule[p], t'.schedule[p], r.askedAt);
  }

  /** How the account moves on by one turn, from what that turn did to the row. */
  lemma AccountMovesOn(ss: seq<State>, turns: seq<Turn>, g: nat, x: string, p: Pair, i: nat, j: nat) returns (j': nat)
    requires i < |turns| && |ss| == |turns| + 1 && FellDueAt(ss, turns, g, x, p, i, j) && GapsWithin(ss, g)
    requires BandOf(ss[i + 1].t, p) == BandOf(ss[i].t, p) > 0
    requires p in ss[i].t.schedule && p in ss[i + 1].t.schedule
    requires ss[i].clock <= LastRead(ss[i + 1].t, p)
             || (x !in turns[i].due && ss[i + 1].t.schedule[p] == ss[i].t.schedule[p])
    ensures FellDueAt(ss, turns, g, x, p, i + 1, j')
  {
    var due := LastRead(ss[i].t, p) + BandOf(ss[i].t, p);
    assert ss[i + 1].clock <= ss[i].clock + g;
    j' := if ss[i].clock <= LastRead(ss[i + 1].t, p) || (j == i && ss[i].clock < due) then i + 1 else j;
  }

  lemma FallsDueNext(c: Setting, ss: seq<State>, turns: seq<Turn>, k: nat, g: nat, x: string, p: Pair, i: nat, j: nat)
    returns (j': nat)
    requires Cadence(c, ss, turns, k, g, x, p) && i < |turns| && FellDueAt(ss, turns, g, x, p, i, j)
    ensures FellDueAt(ss, turns, g, x, p, i + 1, j')
  {
    hide Sound, CacheIsFaithful, IsTurn, Reachable, IsAdvance, AllSucceed;
    ReadAtTurn(c, ss, turns, k, g, x, p, i);
    ReadAtTurn(c, ss, turns, k, g, x, p, i + 1);
    TurnsAreSound(c, ss, turns, k, i);
    TurnIsAnAdvance(c, ss[i], ss[i + 1], turns[i]);
    TurnReadsOrLeaves(c, ss[i].t, ss[i + 1].t, RoundOf(ss[i], ss[i + 1], turns[i]), x, p);
    j' := AccountMovesOn(ss, turns, g, x, p, i, j);
  }

  lemma FallsDue(c: Setting, ss: seq<State>, turns: seq<Turn>, k: nat, g: nat, x: string, p: Pair, i: nat) returns (j: nat)
    requires Cadence(c, ss, turns, k, g, x, p) && i < |ss|
    ensures FellDueAt(ss, turns, g, x, p, i, j)
  {
    hide AreTurns, AllSucceed;
    ReadAtTurn(c, ss, turns, k, g, x, p, 0);
    assert |ss| == |turns| + 1 by {
      TurnsAreAdvances(c, ss, turns, k);
    }
    j := 0;
    for n := 0 to i
      invariant FellDueAt(ss, turns, g, x, p, n, j)
    {
      j := FallsDueNext(c, ss, turns, k, g, x, p, n, j);
    }
  }

  lemma {:induction false} GapsAddUp(ss: seq<State>, g: nat, i: nat, j: nat)
    requires GapsWithin(ss, g) && j <= i < |ss|
    ensures ss[i].clock <= ss[j].clock + (i - j) * g
  {
    if j < i {
      GapsAddUp(ss, g, i - 1, j);
      assert ss[i - 1 + 1].clock <= ss[i - 1].clock + g;
      assert (i - j) * g == (i - 1 - j) * g + g;
    }
  }

  lemma Monotone(a: nat, b: nat, g: nat)
    requires a <= b
    ensures a * g <= b * g
  {
    assert b * g == a * g + (b - a) * g;
  }

  lemma SuffixIsAdvances(c: Setting, ts: seq<Tables>, rs: seq<Round>, k: nat, j: nat)
    requires AreAdvances(c, ts, rs, k) && j <= |rs|
    ensures AreAdvances(c, ts[j..], rs[j..], k)
  {
    hide IsAdvance;
    forall m | 0 <= m < |rs[j..]|
      ensures IsAdvance(c, ts[j..][m], ts[j..][m + 1], rs[j..][m]) && k <= rs[j..][m].limit
    {
      assert IsAdvance(c, ts[j + m], ts[j + m + 1], rs[j + m]);
    }
    forall m | 0 <= m < |rs[j..]| - 1
      ensures rs[j..][m].endedAt <= rs[j..][m + 1].askedAt
    {
      assert rs[j + m].endedAt <= rs[j + m + 1].askedAt;
    }
  }

  /** A due row left alone for m rounds has outlived fewer rounds than the whole roster needs. */
  lemma StillWaiting(c: Setting, ts: seq<Tables>, rs: seq<Round>, k: nat, x: string, p: Pair, m: nat)
    requires k > 0 && AreAdvances(c, ts, rs, k) && 0 < m <= |rs| && PositiveIntervals(ts[0])
    requires p in RowsOf(c, ts[0], x) && RowDue(ts[0].schedule[p], rs[0].askedAt)
    requires forall j :: 0 <= j < m ==> x !in rs[j].selected && Waits(ts[j], ts[j + 1], p)
    ensures m < RoundsFor(|Roster(c, ts[0])|, k)
  {
    hide IsAdvance;
    WaitingIsCounted(c, ts, rs, k, x, p, m);
    EnoughRounds(|Roster(c, ts[0])|, k, m);
  }

  /** The same counted from round j. */
  lemma StillWaitingFrom(c: Setting, ts: seq<Tables>, rs: seq<Round>, k: nat, x: string, p: Pair, j: nat, m: nat)
    requires k > 0 && AreAdvances(c, ts, rs, k) && 0 < m && j + m <= |rs| && |ts| == |rs| + 1 && PositiveIntervals(ts[j])
    requires p in RowsOf(c, ts[j], x) && p in ts[j].schedule && RowDue(ts[j].schedule[p], rs[j].askedAt)
    requires forall l :: j <= l < j + m ==> x !in rs[l].selected && Waits(ts[l], ts[l + 1], p)
    ensures m < RoundsFor(|Roster(c, ts[j])|, k)
  {
    hide AreAdvances, RowsOf, Roster, RowDue, Waits, PositiveIntervals;
    SuffixIsAdvances(c, ts, rs, k, j);
    var later, rounds := ts[j..], rs[j..];
    assert later[0] == ts[j] && rounds[0] == rs[j];
    forall l | 0 <= l < m
      ensures x !in rounds[l].selected && Waits(later[l], later[l + 1], p)
    {
      assert rounds[l] == rs[j + l] && later[l] == ts[j + l] && later[l + 1] == ts[j + l + 1];
    }
    StillWaiting(c, later, rounds, k, x, p, m);
  }

  lemma SameRosterKeeps(c: Setting, t: Tables, t': Tables)
    requires SameRoster(c, t, t') && RowsApart(c, t) && PositiveIntervals(t)
    ensures RowsApart(c, t') && PositiveIntervals(t')
  {
  }

  lemma RoundAt(ss: seq<State>, turns: seq<Turn>, l: nat)
    requires |ss| == |turns| + 1 && l < |turns|
    ensures |TablesOf(ss)| == |ss| && |RoundsOf(ss, turns)| == |turns|
    ensures TablesOf(ss)[l] == ss[l].t && TablesOf(ss)[l + 1] == ss[l + 1].t
    ensures RoundsOf(ss, turns)[l].askedAt == ss[l].clock && RoundsOf(ss, turns)[l].selected == turns[l].due
  {
  }

  lemma DueAtTurn(c: Setting, ss: seq<State>, turns: seq<Turn>, k: nat, g: nat, x: string, p: Pair, i: nat, j: nat)
    requires Cadence(c, ss, turns, k, g, x, p) && j < i < |ss| && FellDueAt(ss, turns, g, x, p, i, j)
    ensures p in ss[j].t.schedule && p in RowsOf(c, ss[j].t, x) && RowDue(ss[j].t.schedule[p], ss[j].clock)
    ensures PositiveIntervals(ss[j].t) && Roster(c, ss[j].t) == Roster(c, ss[0].t)
  {
    hide IsTurn, Reachable, AllSucceed, AreAdvances, RowsApart, RowsOf, Roster, Backoff, SameRoster;
    TurnsAreAdvances(c, ss, turns, k);
    ReadAtTurn(c, ss, turns, k, g, x, p, j);
    SameRowsSameRoster(c, ss[0].t, ss[j].t);
    SameRosterKeeps(c, ss[0].t, ss[j].t);
    BackoffIsBounded(ss[j].t.schedule[p], ss[j].clock);
  }

  /** From falling due to being read takes fewer runs than it takes to read the whole roster. */
  lemma WaitsFewTurns(c: Setting, ss: seq<State>, turns: seq<Turn>, k: nat, g: nat, x: string, p: Pair, i: nat, j: nat)
    requires k > 0 && Cadence(c, ss, turns, k, g, x, p) && j < i < |ss|
    requires FellDueAt(ss, turns, g, x, p, i, j)
    ensures i - j < RoundsFor(|Roster(c, ss[0].t)|, k)
  {
    hide IsTurn, Reachable, AllSucceed, AreAdvances, RowsApart, RowsOf, Roster, RowDue, Waits, PositiveIntervals, RoundsFor,
         GapsWithin, TablesOf, RoundsOf;
    var ts, rs := TablesOf(ss), RoundsOf(ss, turns);
    TurnsAreAdvances(c, ss, turns, k);
    DueAtTurn(c, ss, turns, k, g, x, p, i, j);
    RoundAt(ss, turns, j);
    forall l | j <= l < i
      ensures x !in rs[l].selected && Waits(ts[l], ts[l + 1], p)
    {
      RoundAt(ss, turns, l);
    }
    StillWaitingFrom(c, ts, rs, k, x, p, j, i - j);
  }

  /** When a run asks what is due, the last read is no older than one band and the time the roster takes. */
  lemma LastReadIsRecent(c: Setting, ss: seq<State>, turns: seq<Turn>, k: nat, g: nat, x: string, p: Pair, i: nat)
    requires k > 0 && Cadence(c, ss, turns, k, g, x, p) && i < |ss|
    ensures ss[i].clock < LastRead(ss[i].t, p) + BandOf(ss[i].t, p) + RoundsFor(|Roster(c, ss[0].t)|, k) * g
  {
    hide AreTurns, AllSucceed;
    var rounds := RoundsFor(|Roster(c, ss[0].t)|, k);
    var j := FallsDue(c, ss, turns, k, g, x, p, i);
    if j < i {
      WaitsFewTurns(c, ss, turns, k, g, x, p, i, j);
      GapsAddUp(ss, g, i, j);
      Monotone(i - j + 1, rounds, g);
      assert (i - j + 1) * g == (i - j) * g + g;
    } else {
      OnTheRosterIff(c, ss[0].t, x);
      EnoughRounds(|Roster(c, ss[0].t)|, k, 0);
      Monotone(1, rounds, g);
    }
  }

  // ---------------------------------------------------------------------------
  // Always trusted
  // ---------------------------------------------------------------------------

  const TRUST_WINDOW: int := TRUSTED_PRICE_MAX_AGE_SECONDS * SECOND
  const SLOWEST_BAND: int := SLOWEST_POLL_INTERVAL_SECONDS * SECOND

  /** The run that had last asked at an instant. */
  lemma {:induction false} TurnBefore(ss: seq<State>, g: nat, i: nat, asOf: Instant) returns (j: nat)
    requires GapsWithin(ss, g) && i < |ss| && ss[0].clock <= asOf <= ss[i].clock
    ensures j <= i && ss[j].clock <= asOf <= ss[j].clock + g
  {
    if i == 0 || ss[i].clock <= asOf {
      j := i;
    } else if asOf <= ss[i - 1].clock {
      j := TurnBefore(ss, g, i - 1, asOf);
    } else {
      j := i - 1;
      assert ss[i - 1 + 1].clock <= ss[i - 1].clock + g;
    }
  }

  /** At every instant up to a run's query, some read of the pair lies inside the trust window. */
  lemma SomeReadIsRecent(c: Setting, ss: seq<State>, turns: seq<Turn>, k: nat, g: nat, x: string, p: Pair, i: nat,
                         asOf: Instant) returns (at: Instant)
    requires k > 0 && Cadence(c, ss, turns, k, g, x, p) && i < |ss|
    requires RoundsFor(|Roster(c, ss[0].t)|, k) * g + g <= SLOWEST_BAND
    requires LastRead(ss[0].t, p) <= asOf <= ss[i].clock
    ensures PollKey(p, at) in ss[i].t.polls && LastRead(ss[0].t, p) <= at && asOf - TRUST_WINDOW < at <= asOf
  {
    hide AreTurns, AllSucceed;
    var j := 0;
    if asOf <= ss[0].clock {
      at := FirstReadIsRecent(c, ss, turns, k, g, x, p, asOf);
    } else {
      j := TurnBefore(ss, g, i, asOf);
      at := LastReadIsRecentEnough(c, ss, turns, k, g, x, p, j, asOf);
    }
    PollsAreKept(c, ss, turns, k, j, i);
  }

  lemma FirstReadIsRecent(c: Setting, ss: seq<State>, turns: seq<Turn>, k: nat, g: nat, x: string, p: Pair, asOf: Instant)
    returns (at: Instant)
    requires k > 0 && Cadence(c, ss, turns, k, g, x, p)
    requires RoundsFor(|Roster(c, ss[0].t)|, k) * g + g <= SLOWEST_BAND
    requires LastRead(ss[0].t, p) <= asOf <= ss[0].clock
    ensures PollKey(p, at) in ss[0].t.polls && LastRead(ss[0].t, p) <= at && asOf - TRUST_WINDOW < at <= asOf
  {
    hide IsTurn, Reachable, AllSucceed;
    ReadAtTurn(c, ss, turns, k, g, x, p, 0);
    OnTheRosterIff(c, ss[0].t, x);
    EnoughRounds(|Roster(c, ss[0].t)|, k, 0);
    Monotone(1, RoundsFor(|Roster(c, ss[0].t)|, k), g);
    at := LastRead(ss[0].t, p);
  }

  /** No band is slower than the slowest. */
  lemma BandIsShort(c: Setting, ss: seq<State>, turns: seq<Turn>, k: nat, p: Pair)
    requires AreTurns(c, ss, turns, k)
    ensures BandOf(ss[0].t, p) <= SLOWEST_BAND
  {
    hide IsTurn, Reachable;
    TurnsAreSound(c, ss, turns, k, 0);
    assert Scheduled(c, ss[0]);
  }

  lemma LastReadIsRecentEnough(c: Setting, ss: seq<State>, turns: seq<Turn>, k: nat, g: nat, x: string, p: Pair, i: nat,
                               asOf: Instant) returns (at: Instant)
    requires k > 0 && Cadence(c, ss, turns, k, g, x, p) && i < |ss|
    requires RoundsFor(|Roster(c, ss[0].t)|, k) * g + g <= SLOWEST_BAND
    requires ss[i].clock <= asOf <= ss[i].clock + g
    ensures PollKey(p, at) in ss[i].t.polls && LastRead(ss[0].t, p) <= at && asOf - TRUST_WINDOW < at <= asOf
  {
    hide AreTurns, AllSucceed;
    at := LastRead(ss[i].t, p);
    LastReadIsRecent(c, ss, turns, k, g, x, p, i);
    ReadAtTurn(c, ss, turns, k, g, x, p, i);
    BandIsShort(c, ss, turns, k, p);
  }

  /** A recent read with nothing but successes since makes the pair live. */
  lemma RecentSuccessIsLive(polls: map<PollKey, PollRow>, p: Pair, asOf: Instant, at: Instant)
    requires PollKey(p, at) in polls && asOf - TRUST_WINDOW < at <= asOf && AllSucceed(polls, p, at)
    ensures Live(PolledBy(polls, asOf), p, asOf, TRUST_WINDOW)
  {
    var instants := set k | k in polls && k.pair == p && at <= k.at <= asOf :: k.at;
    assert PollKey(p, at).at in instants;
    var newest := NewestInstant(instants, at);
    assert PollKey(p, newest) in polls;
    forall k | k in PolledBy(polls, asOf) && k.pair == p
      ensures k.at <= newest
    {
      assert k.at < at || k.at in instants;
    }
    assert LatestPoll(PolledBy(polls, asOf), p, asOf, TRUST_WINDOW, newest);
  }

  lemma {:induction false} NewestInstant(s: set<Instant>, x: Instant) returns (newest: Instant)
    requires x in s
    ensures newest in s && forall y :: y in s ==> y <= newest
    decreases |s|
  {
    newest := x;
    if y :| y in s && y != x {
      var less, more := if y < x then y else x, if y < x then x else y;
      newest := NewestInstant(s - {less}, more);
      assert s == (s - {less}) + {less};
    }
  }

  /**
   * Always trusted: over healthy runs that ask at most g apart, with room for k of the
   * n identifiers in each, and n / k runs (rounded up) and one gap fitting in the
   * slowest band, a pair whose polls all succeed is in every table the trust query may
   * return, at every instant from its first read to the present.
   */
  lemma AlwaysTrusted(c: Setting, ss: seq<State>, turns: seq<Turn>, k: nat, g: nat, x: string, p: Pair, i: nat,
                      asOf: Instant, seen: ObsKey, table: map<Pair, TrustedPrice>)
    requires k > 0 && Cadence(c, ss, turns, k, g, x, p) && i < |ss|
    requires RoundsFor(|Roster(c, ss[0].t)|, k) * g + g <= SLOWEST_BAND
    requires seen in ss[0].t.observations && PairOf(seen) == p && ss[0].t.observations[seen].ingestedAt <= asOf
    requires LastRead(ss[0].t, p) <= asOf <= ss[i].clock
    requires IsTrusted(ss[i].t, asOf, TRUST_WINDOW, table)
    ensures p in table
  {
    hide AreTurns;
    var at := SomeReadIsRecent(c, ss, turns, k, g, x, p, i, asOf);
    SucceededThroughout(c, ss, turns, k, g, x, p, i);
    RecentSuccessIsLive(ss[i].t.polls, p, asOf, at);
    RowsArePermanent(c, ss, turns, k, i, seen);
    assert seen in KnownAt(ss[i].t.observations, asOf);
  }
}
