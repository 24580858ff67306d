/** What a replay leaves behind when it is killed between its swap and its close. */
module StrandedRows {
  import opened Domain
  import opened Ledger
  import opened Machine
  import opened Bookkeeping

  /** A run without recorded price keys that no process is working on. */
  predicate Stranded(s: State, run: RunId) {
    && run in s.t.runs && s.t.runs[run].priceKeys == []
    && match s.process
       case Idle => true
       case Ingesting(current, _, _, _, _) => current != run
       case Replaying(original, replacement, _) => original != run && replacement != run
  }

  lemma StrandedStays(c: Setting, s: State, a: Action, run: RunId)
    requires Stranded(s, run) && Enabled(c, s, a)
    ensures Stranded(Next(c, s, a), run)
  {
    if a.Store? {
      StorePollsFrame(s.t, BatchPolls(c, s, s.process.stage.key, a.targets), a.at, a.now, s.process.run);
    }
  }

  lemma {:induction false} StrandedThroughout(c: Setting, s: State, actions: seq<Action>, run: RunId)
    requires Stranded(s, run) && Legal(c, s, actions)
    ensures Stranded(After(c, s, actions), run)
  {
    if actions != [] {
      StrandedThroughout(c, s, actions[..|actions| - 1], run);
      StrandedStays(c, After(c, s, actions[..|actions| - 1]), actions[|actions| - 1], run);
    }
  }

  lemma StrandedRowStays(c: Setting, s: State, a: Action, run: RunId, k: ObsKey)
    requires Stranded(s, run) && Enabled(c, s, a) && k in s.t.observations && s.t.observations[k].run == run
    ensures var after := Next(c, s, a).t.observations; k in after && after[k] == s.t.observations[k]
  {
    if a.Store? {
      var polls := BatchPolls(c, s, s.process.stage.key, a.targets);
      StorePollsInserts(s.t, polls, a.at, a.now, s.process.run);
      InsertAllRow(s.t.observations, PricedOf(polls), s.process.run, a.now, k);
    } else if a.Swap? {
      var original := s.t.runs[s.process.original];
      var os := ReplayReadings(c, s.archive, original.priceKeys, a.listings, original.startedAt);
      InsertAllRow(WithoutRun(s.t.observations, s.process.original), os, s.process.replacement, a.now, k);
    }
  }

  /** No later ingest and no later replay ever rewrites a stranded run's rows. */
  lemma {:induction false} StrandedForEver(c: Setting, s: State, actions: seq<Action>, run: RunId, k: ObsKey)
    requires Stranded(s, run) && Legal(c, s, actions) && k in s.t.observations && s.t.observations[k].run == run
    ensures var after := After(c, s, actions).t.observations; k in after && after[k] == s.t.observations[k]
  {
    if actions != [] {
      var before := actions[..|actions| - 1];
      StrandedForEver(c, s, before, run, k);
      StrandedThroughout(c, s, before, run);
      StrandedRowStays(c, After(c, s, before), actions[|actions| - 1], run, k);
    }
  }

  lemma ClosedHasKeys(c: Setting, s: State)
    requires Sound(c, s) && s.process.Replaying? && s.process.swapped
    ensures Enabled(c, s, CloseReplay) && Enabled(c, s, Crash)
    ensures s.process.replacement in Next(c, s, CloseReplay).t.runs
    ensures Next(c, s, CloseReplay).t.runs[s.process.replacement].priceKeys != []
    ensures Stranded(Next(c, s, Crash), s.process.replacement)
  {
  }

  lemma KeysStay(c: Setting, s: State, actions: seq<Action>, run: RunId)
    requires Sound(c, s) && Legal(c, s, actions) && run in s.t.runs && s.t.runs[run].priceKeys != []
    ensures run in After(c, s, actions).t.runs && After(c, s, actions).t.runs[run].priceKeys != []
  {
    hide Sound;
    RunsGrowThrough(c, s, actions);
    assert s.t.runs[run].priceKeys[0] in After(c, s, actions).t.runs[run].priceKeys;
  }

  /**
   * A replay records its keys as it closes, after the swap has committed. Whatever is
   * ingested and replayed later, its rows can be replayed again if and only if the step
   * after the swap was that close.
   */
  lemma ReplayableIff(c: Setting, s: State, first: Action, actions: seq<Action>)
    requires Sound(c, s) && s.process.Replaying? && s.process.swapped
    requires Enabled(c, s, first) && Legal(c, Next(c, s, first), actions)
    ensures var end, run := After(c, Next(c, s, first), actions), s.process.replacement;
            && run in end.t.runs
            && (end.t.runs[run].priceKeys != [] <==> first.CloseReplay?)
            && (forall again: RunId, now: Instant ::
                  Enabled(c, end, OpenReplay(run, again, now))
                  <==> first.CloseReplay? && end.process.Idle? && again !in end.t.runs && end.clock < now)
  {
    hide Sound, Legal, After;
    var run := s.process.replacement;
    ClosedHasKeys(c, s);
    SoundKept(c, s, first);
    if first.CloseReplay? {
      KeysStay(c, Next(c, s, first), actions, run);
    } else {
      StrandedThroughout(c, Next(c, s, first), actions, run);
    }
  }

  /**
   * Killed between its swap and its close, a replay leaves rows that stay as they are for
   * good and that no replay can open on, a second replay of the same original included.
   */
  lemma KilledBeforeClose(c: Setting, s: State, actions: seq<Action>, k: ObsKey)
    requires Sound(c, s) && s.process.Replaying? && s.process.swapped
    requires k in s.t.observations && s.t.observations[k].run == s.process.replacement
    requires Legal(c, Next(c, s, Crash), actions)
    ensures var end := After(c, Next(c, s, Crash), actions);
            && k in end.t.observations && end.t.observations[k] == s.t.observations[k]
            && forall replacement: RunId, now: Instant :: !Enabled(c, end, OpenReplay(s.process.replacement, replacement, now))
  {
    StrandedForEver(c, Next(c, s, Crash), actions, s.process.replacement, k);
    StrandedThroughout(c, Next(c, s, Crash), actions, s.process.replacement);
  }
}
