/** The request budget is spent once a day, however many runs share the day and wherever they die. */
module DailyBudget {
  import opened Domain
  import opened Ledger
  import opened Spend
  import opened Machine
  import opened Bookkeeping

  function StartDay(s: State): int
    requires s.process.Ingesting? && s.process.run in s.t.runs
  {
    DayOf(s.t.runs[s.process.run].startedAt)
  }

  /** No day is overspent, and what the running run may still take fits in its day. */
  ghost predicate WithinBudget(c: Setting, s: State) {
    && (forall day :: Spent(s.t.runs, OnDay(day)) <= c.dailyBudget)
    && RoomLeft(c, s)
  }

  ghost predicate RoomLeft(c: Setting, s: State) {
    s.process.Ingesting? && s.process.run in s.t.runs ==>
      Spent(s.t.runs, OnDay(StartDay(s))) + s.process.remaining <= c.dailyBudget
  }

  /** The run reads the day's spend on the day it opens. */
  predicate ReadsItsOwnDay(a: Action) { a.Open? ==> DayOf(a.now) == DayOf(a.readAt) }

  /** With no run in the future, what the query counts from a day's start on is that day's spend. */
  lemma QueryCountsTheDay(runs: map<RunId, Run>, readAt: Instant)
    requires forall r :: r in runs ==> runs[r].startedAt <= readAt
    ensures Spent(runs, Window(DayOf(readAt) * DAY, None)) == Spent(runs, OnDay(DayOf(readAt)))
  {
    SpentAlike(runs, Window(DayOf(readAt) * DAY, None), OnDay(DayOf(readAt)));
  }

  lemma OpeningSpendsNothing(runs: map<RunId, Run>, r: RunId, startedAt: Instant, w: Window)
    requires r !in runs
    ensures Spent(runs[r := Run(startedAt, 0, [])], w) == Spent(runs, w)
  {
    SpentUpdate(runs, r, Run(startedAt, 0, []), w);
  }

  /** Within budget, a run opens with exactly what the day it reads has left. */
  lemma OpensWithTheRest(c: Setting, s: State, run: RunId, now: Instant, readAt: Instant)
    requires RunsCounted(s) && WithinBudget(c, s) && run !in s.t.runs && s.clock < now <= readAt
    ensures RemainingBudget(c, s.t.runs[run := Run(now, 0, [])], readAt)
         == c.dailyBudget - Spent(s.t.runs, OnDay(DayOf(readAt)))
  {
    QueryCountsTheDay(s.t.runs[run := Run(now, 0, [])], readAt);
    OpeningSpendsNothing(s.t.runs, run, now, OnDay(DayOf(readAt)));
  }

  /** The cast to 32 bits keeps the rest alone: a spend that fills 32 bits exactly, any number of times, opens the whole budget. */
  lemma TheCastForgets(c: Setting, runs: map<RunId, Run>, readAt: Instant, times: nat)
    requires Spent(runs, Window(DayOf(readAt) * DAY, None)) == times * 0x1_0000_0000
    ensures RemainingBudget(c, runs, readAt) == c.dailyBudget
  {
  }

  lemma LaterDayIsEmpty(runs: map<RunId, Run>, now: Instant, readAt: Instant)
    requires (forall r :: r in runs ==> runs[r].startedAt <= now) && now <= readAt && DayOf(now) != DayOf(readAt)
    ensures Spent(runs, OnDay(DayOf(readAt))) == 0
  {
    NothingSpent(runs, OnDay(DayOf(readAt)));
  }

  /** The room a run opens with, in terms of the two days it touches. */
  lemma OpensWith(c: Setting, s: State, run: RunId, now: Instant, readAt: Instant)
    requires RunsCounted(s) && WithinBudget(c, s) && run !in s.t.runs && s.clock < now <= readAt
    ensures RoomLeft(c, Opened(c, s, run, now, readAt))
            <==> Spent(s.t.runs, OnDay(DayOf(now))) <= Spent(s.t.runs, OnDay(DayOf(readAt)))
  {
    OpensWithTheRest(c, s, run, now, readAt);
    OpeningSpendsNothing(s.t.runs, run, now, OnDay(DayOf(now)));
  }

  /**
   * A run opened within budget leaves room for all it may take exactly when it
   * reads its own day's spend, or its own day had nothing to count.
   */
  lemma OpeningLeavesRoomIff(c: Setting, s: State, run: RunId, now: Instant, readAt: Instant)
    requires RunsCounted(s) && WithinBudget(c, s) && run !in s.t.runs && s.clock < now <= readAt
    ensures RoomLeft(c, Opened(c, s, run, now, readAt))
            <==> DayOf(now) == DayOf(readAt) || Spent(s.t.runs, OnDay(DayOf(now))) == 0
  {
    OpensWith(c, s, run, now, readAt);
    if DayOf(now) != DayOf(readAt) {
      LaterDayIsEmpty(s.t.runs, now, readAt);
    }
  }

  lemma RecordingAddsOne(runs: map<RunId, Run>, r: RunId, day: int)
    requires r in runs
    ensures Spent(runs[r := runs[r].(requests := runs[r].requests + 1)], OnDay(day))
         == Spent(runs, OnDay(day)) + if DayOf(runs[r].startedAt) == day then 1 else 0
  {
    SpentUpdate(runs, r, runs[r].(requests := runs[r].requests + 1), OnDay(day));
  }

  lemma RecordingKeepsWithin(c: Setting, s: State, stage: Stage)
    requires WithinBudget(c, s) && CanSpend(s)
    ensures WithinBudget(c, Recorded(s, stage))
  {
    forall day {
      RecordingAddsOne(s.t.runs, s.process.run, day);
    }
  }

  lemma SameRequestsSpendTheSame(runs: map<RunId, Run>, r: RunId, run: Run, w: Window)
    requires r in runs && run.startedAt == runs[r].startedAt && run.requests == runs[r].requests
    ensures Spent(runs[r := run], w) == Spent(runs, w)
  {
    SpentUpdate(runs, r, run, w);
  }

  lemma WithinBudgetByPrices(c: Setting, s: State, a: Action)
    requires RunsKnown(s) && WithinBudget(c, s) && Enabled(c, s, a) && ReadsItsOwnDay(a) && OfPrices(a)
    ensures WithinBudget(c, Next(c, s, a))
  {
    match a
    case Open(run, now, readAt) =>
      OpeningLeavesRoomIff(c, s, run, now, readAt);
      forall day
        ensures Spent(Next(c, s, a).t.runs, OnDay(day)) == Spent(s.t.runs, OnDay(day))
      {
        OpeningSpendsNothing(s.t.runs, run, now, OnDay(day));
      }
    case Ask(chunk) => RecordingKeepsWithin(c, s, Asked(chunk));
    case RecordKey =>
      forall day
        ensures Spent(Next(c, s, a).t.runs, OnDay(day)) == Spent(s.t.runs, OnDay(day))
      {
        SameRequestsSpendTheSame(s.t.runs, s.process.run, Next(c, s, a).t.runs[s.process.run], OnDay(day));
      }
    case Store(targets, at, now) =>
      StorePollsFrame(s.t, BatchPolls(c, s, s.process.stage.key, targets), at, now, s.process.run);
    case _ =>
  }

  lemma WithinBudgetByReplay(c: Setting, s: State, a: Action)
    requires RunsKnown(s) && WithinBudget(c, s) && Enabled(c, s, a) && (a.OpenReplay? || a.CloseReplay?)
    ensures WithinBudget(c, Next(c, s, a))
  {
    forall day
      ensures Spent(Next(c, s, a).t.runs, OnDay(day)) == Spent(s.t.runs, OnDay(day))
    {
      if a.OpenReplay? {
        OpeningSpendsNothing(s.t.runs, a.replacement, a.now, OnDay(day));
      } else {
        SameRequestsSpendTheSame(s.t.runs, s.process.replacement, Next(c, s, a).t.runs[s.process.replacement], OnDay(day));
      }
    }
  }

  lemma WithinBudgetKept(c: Setting, s: State, a: Action)
    requires RunsKnown(s) && WithinBudget(c, s) && Enabled(c, s, a) && ReadsItsOwnDay(a)
    ensures WithinBudget(c, Next(c, s, a))
  {
    if OfPrices(a) {
      WithinBudgetByPrices(c, s, a);
    } else if a.AskList? {
      RecordingKeepsWithin(c, s, ListAsked);
    } else if a.OpenReplay? || a.CloseReplay? {
      WithinBudgetByReplay(c, s, a);
    }
  }

  /** For any number of runs killed anywhere, the requests recorded on the runs of one day fit the budget. */
  lemma {:induction false} DailyBudgetHolds(c: Setting, s: State, actions: seq<Action>)
    requires Fresh(s) && Legal(c, s, actions) && (forall a :: a in actions ==> ReadsItsOwnDay(a))
    ensures RunsKnown(After(c, s, actions)) && WithinBudget(c, After(c, s, actions))
  {
    if actions == [] {
      forall day
        ensures Spent(s.t.runs, OnDay(day)) == 0
      {
        NothingSpent(s.t.runs, OnDay(day));
      }
    } else {
      var before := actions[..|actions| - 1];
      DailyBudgetHolds(c, s, before);
      WithinBudgetKept(c, After(c, s, before), actions[|actions| - 1]);
      RunsKnownKept(c, After(c, s, before), actions[|actions| - 1]);
    }
  }

  // ---------------------------------------------------------------------------
  // Nothing is sent that was not recorded
  // ---------------------------------------------------------------------------

  /** A run has sent no more than it recorded, and one less while a recorded request has yet to leave. */
  ghost predicate RecordedBeforeSent(s: State) {
    forall r :: r in s.t.runs ==>
      && r in s.issued
      && s.issued[r] + (if s.process.Ingesting? && s.process.run == r && (s.process.stage.Asked? || s.process.stage.ListAsked?)
                        then 1 else 0) <= s.t.runs[r].requests
  }

  lemma RecordedBeforeSentKept(c: Setting, s: State, a: Action)
    requires RunsKnown(s) && RecordedBeforeSent(s) && Enabled(c, s, a)
    ensures RecordedBeforeSent(Next(c, s, a))
  {
    if OfPrices(a) {
      RecordedBeforeSentByPrices(c, s, a);
    }
  }

  lemma RecordedBeforeSentByPrices(c: Setting, s: State, a: Action)
    requires RunsKnown(s) && RecordedBeforeSent(s) && Enabled(c, s, a) && OfPrices(a)
    ensures RecordedBeforeSent(Next(c, s, a))
  {
    if a.Store? {
      StorePollsFrame(s.t, BatchPolls(c, s, s.process.stage.key, a.targets), a.at, a.now, s.process.run);
    }
  }

  lemma {:induction false} SentNeverExceedsRecorded(c: Setting, s: State, actions: seq<Action>)
    requires Fresh(s) && Legal(c, s, actions)
    ensures RunsKnown(After(c, s, actions)) && RecordedBeforeSent(After(c, s, actions))
  {
    if actions != [] {
      var before := actions[..|actions| - 1];
      SentNeverExceedsRecorded(c, s, before);
      RecordedBeforeSentKept(c, After(c, s, before), actions[|actions| - 1]);
      RunsKnownKept(c, After(c, s, before), actions[|actions| - 1]);
    }
  }

  // ---------------------------------------------------------------------------
  // Midnight
  // ---------------------------------------------------------------------------

  lemma OneRequest(c: Setting, s: State, first: RunId)
    requires c.dailyBudget == 1 && Fresh(s) && s.clock == 0
    ensures var actions := [Open(first, 1, 1)] + [AskList];
            && Legal(c, s, actions)
            && After(c, s, actions).t == s.t.(runs := map[first := Run(1, 1, [])])
            && After(c, s, actions).clock == 1
  {
    NothingSpent(map[first := Run(1, 0, [])], Window(0, None));
    Extend(c, s, [], Open(first, 1, 1));
    assert [] + [Open(first, 1, 1)] == [Open(first, 1, 1)];
    Extend(c, s, [Open(first, 1, 1)], AskList);
  }

  lemma OneRequestThenKilled(c: Setting, s: State, first: RunId)
    requires c.dailyBudget == 1 && Fresh(s) && s.clock == 0
    ensures var actions := [Open(first, 1, 1)] + [AskList] + [Crash];
            && Legal(c, s, actions)
            && After(c, s, actions).t == s.t.(runs := map[first := Run(1, 1, [])])
            && After(c, s, actions).clock == 1 && After(c, s, actions).process == Idle
  {
    OneRequest(c, s, first);
    Extend(c, s, [Open(first, 1, 1)] + [AskList], Crash);
  }

  lemma OneRequestAcrossMidnight(c: Setting, s: State, first: RunId, second: RunId)
    requires c.dailyBudget == 1 && first != second
    requires s.process == Idle && s.clock == 1 && s.t.runs == map[first := Run(1, 1, [])]
    ensures var open := Open(second, DAY - 1, DAY);
            && Enabled(c, s, open) && Enabled(c, Next(c, s, open), AskList)
            && Spent(Next(c, Next(c, s, open), AskList).t.runs, OnDay(0)) == 2
  {
    var runs := s.t.runs[second := Run(DAY - 1, 0, [])];
    NothingSpent(runs, Window(DAY, None));
    SpentUpdate(map[], first, Run(1, 1, []), OnDay(0));
    assert map[][first := Run(1, 1, [])] == s.t.runs;
    SpentUpdate(s.t.runs, second, Run(DAY - 1, 1, []), OnDay(0));
    assert runs[second := Run(DAY - 1, 1, [])] == s.t.runs[second := Run(DAY - 1, 1, [])];
  }

  /**
   * A budget of one, two runs started on one day: the second opens on the last
   * microsecond of the day and reads the spend on the next, and the day has two.
   */
  lemma ARunAcrossMidnightOverspends(c: Setting, s: State, first: RunId, second: RunId)
    requires c.dailyBudget == 1 && Fresh(s) && s.clock == 0 && first != second
    ensures var actions := ([Open(first, 1, 1)] + [AskList] + [Crash]) + [Open(second, DAY - 1, DAY)] + [AskList];
            Legal(c, s, actions) && Spent(After(c, s, actions).t.runs, OnDay(0)) == 2
  {
    var killed := [Open(first, 1, 1)] + [AskList] + [Crash];
    OneRequestThenKilled(c, s, first);
    OneRequestAcrossMidnight(c, After(c, s, killed), first, second);
    Extend(c, s, killed, Open(second, DAY - 1, DAY));
    Extend(c, s, killed + [Open(second, DAY - 1, DAY)], AskList);
  }
}
