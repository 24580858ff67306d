/** Poll state as a cache of the poll history. */
module PollCache {
  import opened Domain
  import opened Ledger
  import opened Reading
  import opened Machine
  import opened Bookkeeping

  /** The instants of a pair's polls after a given one. */
  function PollsSince(polls: map<PollKey, PollRow>, p: Pair, since: Instant): set<Instant> {
    set k | k in polls && k.pair == p && k.at > since :: k.at
  }

  /** The polls of a pair after its newest success: the trailing run of failures. */
  function TrailingFailures(polls: map<PollKey, PollRow>, p: Pair, since: Instant): set<Instant> {
    set k | k in polls && k.pair == p && k.at > since
            && (forall j :: j in polls && j.pair == p && j.at >= k.at ==> !Succeeded(polls[j].outcome)) :: k.at
  }

  /** The row says when the pair was last read since the row was created, and how often it has failed since it last succeeded. */
  predicate Faithful(polls: map<PollKey, PollRow>, p: Pair, row: PollState, since: Instant) {
    && (match row.lastPolled
        case None => PollsSince(polls, p, since) == {}
        case Some(t) => t in PollsSince(polls, p, since) && forall u :: u in PollsSince(polls, p, since) ==> u <= t)
    && row.failures == |TrailingFailures(polls, p, since)|
  }

  predicate PollsArePast(s: State) { forall k :: k in s.t.polls ==> k.at <= s.clock }

  predicate RowsAreFaithful(s: State) {
    forall p :: p in s.t.schedule ==> p in s.since && Faithful(s.t.polls, p, s.t.schedule[p], s.since[p])
  }

  predicate CacheIsFaithful(s: State) { PollsArePast(s) && RowsAreFaithful(s) }

  // ---------------------------------------------------------------------------
  // One pair, one poll
  // ---------------------------------------------------------------------------

  lemma OtherPairsKeep(polls: map<PollKey, PollRow>, polls': map<PollKey, PollRow>, p: Pair, row: PollState, since: Instant)
    requires forall k: PollKey :: k.pair == p ==> (k in polls <==> k in polls') && (k in polls ==> polls'[k] == polls[k])
    requires Faithful(polls, p, row, since)
    ensures Faithful(polls', p, row, since)
  {
    assert PollsSince(polls', p, since) == PollsSince(polls, p, since);
    assert TrailingFailures(polls', p, since) == TrailingFailures(polls, p, since);
  }

  /** The pair's polls differ at one instant at most. */
  ghost predicate SameButAt(polls: map<PollKey, PollRow>, polls': map<PollKey, PollRow>, p: Pair, at: Instant) {
    forall k: PollKey :: k.pair == p && k.at != at ==>
      (k in polls <==> k in polls') && (k in polls ==> polls'[k] == polls[k])
  }

  lemma PollAddsOne(polls: map<PollKey, PollRow>, polls': map<PollKey, PollRow>, p: Pair, row: PollState, since: Instant,
                    at: Instant, failed: bool)
    requires Faithful(polls, p, row, since) && since < at && PollKey(p, at) in polls'
    requires forall k :: k in polls ==> k.at < at
    requires SameButAt(polls, polls', p, at)
    requires Succeeded(polls'[PollKey(p, at)].outcome) == !failed
    ensures Faithful(polls', p, Touch(row, at, failed), since)
  {
    PollIsCounted(polls, polls', p, since, at);
    TrailAfterPoll(polls, polls', p, since, at, failed);
    forall u | u in PollsSince(polls, p, since)
      ensures u <= at
    {
      assert PollKey(p, u) in polls;
    }
  }

  lemma PollIsCounted(polls: map<PollKey, PollRow>, polls': map<PollKey, PollRow>, p: Pair, since: Instant, at: Instant)
    requires since < at && PollKey(p, at) in polls'
    requires SameButAt(polls, polls', p, at)
    ensures PollsSince(polls', p, since) == PollsSince(polls, p, since) + {at}
  {
    forall u
      ensures u in PollsSince(polls', p, since) <==> u in PollsSince(polls, p, since) + {at}
    {
      if u > since {
        assert PollKey(p, u) in polls' <==> u in PollsSince(polls', p, since);
        assert PollKey(p, u) in polls <==> u in PollsSince(polls, p, since);
      }
    }
  }

  lemma TrailAfterPoll(polls: map<PollKey, PollRow>, polls': map<PollKey, PollRow>, p: Pair, since: Instant, at: Instant,
                       failed: bool)
    requires since < at && PollKey(p, at) in polls'
    requires forall k :: k in polls ==> k.at < at
    requires SameButAt(polls, polls', p, at)
    requires Succeeded(polls'[PollKey(p, at)].outcome) == !failed
    ensures TrailingFailures(polls', p, since) == if failed then TrailingFailures(polls, p, since) + {at} else {}
    ensures at !in TrailingFailures(polls, p, since)
  {
    var before, after := TrailingFailures(polls, p, since), TrailingFailures(polls', p, since);
    if failed {
      forall u | u in before
        ensures u in after
      {
        assert PollKey(p, u) in polls && PollKey(p, u) in polls';
      }
      assert at in after by {
        forall j | j in polls' && j.pair == p && j.at >= at
          ensures j == PollKey(p, at)
        {
          assert j.at == at || j in polls;
        }
      }
      forall u | u in after && u != at
        ensures u in before
      {
        assert PollKey(p, u) in polls' && PollKey(p, u) in polls;
      }
    } else {
      forall u
        ensures u !in after
      {
        assert u == at || PollKey(p, u) !in polls' || PollKey(p, u) in polls;
      }
    }
  }

  // ---------------------------------------------------------------------------
  // Batches
  // ---------------------------------------------------------------------------

  lemma OneTargetPerPair(c: Setting, t: Tables, ids: seq<string>, x: PollTarget, y: PollTarget)
    requires OneToOne(c, t) && IsPollTarget(c, t, ids, x) && IsPollTarget(c, t, ids, y)
    ensures TargetPair(x) == TargetPair(y) ==> x == y
  {
    assert TargetPair(x) == TargetPair(y) ==>
        SourceKey(c.game, c.source, x.externalId) == SourceKey(c.game, c.source, y.externalId);
  }

  /** Under one-to-one identities no two targets of a batch name the same pair. */
  lemma TargetsHaveDistinctPairs(c: Setting, t: Tables, ids: seq<string>, targets: seq<PollTarget>)
    requires OneToOne(c, t) && ListsPollTargets(c, t, ids, targets)
    ensures forall i, j :: 0 <= i < j < |targets| ==> TargetPair(targets[i]) != TargetPair(targets[j])
  {
    forall i, j | 0 <= i < j < |targets|
      ensures TargetPair(targets[i]) != TargetPair(targets[j])
    {
      assert targets[i] in targets && targets[j] in targets;
      OneTargetPerPair(c, t, ids, targets[i], targets[j]);
    }
  }

  lemma BatchIsWellFormed(c: Setting, s: State, targets: seq<PollTarget>, at: Instant, now: Instant)
    requires OneToOne(c, s.t) && CanStore(c, s, targets, at, now)
    ensures WellFormedPolls(BatchPolls(c, s, s.process.stage.key, targets))
  {
    TargetsHaveDistinctPairs(c, s.t, IdsAt(s.archive, s.process.stage.key), targets);
    PollsAreWellFormed(c, targets, QuotesAt(c, s.archive, s.process.stage.key).value, s.t.runs[s.process.run].startedAt);
  }

  lemma StoredPairStaysFaithful(t: Tables, polls: seq<Poll>, at: Instant, now: Instant, run: RunId, p: Pair, since: Instant)
    requires WellFormedPolls(polls) && (forall k :: k in t.polls ==> k.at < at) && since < at
    requires p in t.schedule && Faithful(t.polls, p, t.schedule[p], since)
    ensures var t' := StorePolls(t, polls, at, now, run);
            p in t'.schedule && Faithful(t'.polls, p, t'.schedule[p], since)
  {
    var t' := StorePolls(t, polls, at, now, run);
    StorePollsFrame(t, polls, at, now, run);
    StorePollsRecord(t, polls, at, now, run);
    PairsOfMembers(polls);
    if p in PairsOf(polls) {
      var i :| 0 <= i < |polls| && polls[i].pair == p;
      StorePollsEffect(t, polls, at, now, run, i);
      PollAddsOne(t.polls, t'.polls, p, t.schedule[p], since, at, polls[i].result.Failed?);
    } else {
      OtherPairsKeep(t.polls, t'.polls, p, t.schedule[p], since);
    }
  }

  lemma StoreKeepsCache(c: Setting, s: State, targets: seq<PollTarget>, at: Instant, now: Instant)
    requires Sound(c, s) && CacheIsFaithful(s) && CanStore(c, s, targets, at, now)
    ensures CacheIsFaithful(Next(c, s, Store(targets, at, now)))
  {
    var polls := BatchPolls(c, s, s.process.stage.key, targets);
    var t' := StorePolls(s.t, polls, at, now, s.process.run);
    BatchIsWellFormed(c, s, targets, at, now);
    StoredRowsStayFaithful(s, polls, at, now, s.process.run);
    StoredPollsArePast(s, polls, at, now, s.process.run);
  }

  lemma StoredPollsArePast(s: State, polls: seq<Poll>, at: Instant, now: Instant, run: RunId)
    requires PollsArePast(s) && s.clock < at < now
    ensures PollsArePast(s.(t := StorePolls(s.t, polls, at, now, run), clock := now))
  {
    StorePollsRecord(s.t, polls, at, now, run);
  }

  lemma StoredRowsStayFaithful(s: State, polls: seq<Poll>, at: Instant, now: Instant, run: RunId)
    requires CacheIsFaithful(s) && WellFormedPolls(polls) && s.clock < at
    requires forall p :: p in s.t.schedule ==> p in s.since && s.since[p] <= s.clock
    ensures RowsAreFaithful(s.(t := StorePolls(s.t, polls, at, now, run)))
  {
    var t' := StorePolls(s.t, polls, at, now, run);
    StorePollsSchedule(s.t, polls, at, now, run);
    forall p | p in t'.schedule
      ensures Faithful(t'.polls, p, t'.schedule[p], s.since[p])
    {
      StoredPairStaysFaithful(s.t, polls, at, now, run, p, s.since[p]);
    }
  }

  lemma EnsureKeepsCache(c: Setting, s: State, limit: nat, now: Instant)
    requires CacheIsFaithful(s) && Enabled(c, s, Ensure(limit, now))
    ensures CacheIsFaithful(Next(c, s, Ensure(limit, now)))
  {
    var s' := Next(c, s, Ensure(limit, now));
    forall p | p in s'.t.schedule
      ensures p in s'.since && Faithful(s'.t.polls, p, s'.t.schedule[p], s'.since[p])
    {
      if p !in s.t.schedule {
        assert PollsSince(s.t.polls, p, now) == {} && TrailingFailures(s.t.polls, p, now) == {};
      }
    }
  }

  lemma CacheIsFaithfulKept(c: Setting, s: State, a: Action)
    requires Sound(c, s) && CacheIsFaithful(s) && Enabled(c, s, a)
    ensures CacheIsFaithful(Next(c, s, a))
  {
    if a.Store? {
      StoreKeepsCache(c, s, a.targets, a.at, a.now);
    } else if a.Ensure? {
      EnsureKeepsCache(c, s, a.limit, a.now);
    } else {
      OtherActionsKeepCache(c, s, a);
    }
  }

  lemma OtherActionsKeepCache(c: Setting, s: State, a: Action)
    requires CacheIsFaithful(s) && Enabled(c, s, a) && !a.Store? && !a.Ensure?
    ensures CacheIsFaithful(Next(c, s, a))
  {
    OtherActionsLeavePolls(c, s, a);
    OtherActionsLeaveRows(c, s, a);
    LeftAloneStaysFaithful(s, Next(c, s, a));
  }

  lemma LeftAloneStaysFaithful(s: State, s': State)
    requires CacheIsFaithful(s) && s'.t.polls == s.t.polls && s.clock <= s'.clock && s'.since == s.since
    requires forall p :: p in s'.t.schedule ==> p in s.t.schedule && SameReads(s.t.schedule[p], s'.t.schedule[p])
    ensures CacheIsFaithful(s')
  {
    forall p | p in s'.t.schedule
      ensures p in s'.since && Faithful(s'.t.polls, p, s'.t.schedule[p], s'.since[p])
    {
      assert Faithful(s.t.polls, p, s.t.schedule[p], s.since[p]);
    }
  }

  predicate SameReads(row: PollState, row': PollState) {
    row'.lastPolled == row.lastPolled && row'.failures == row.failures
  }

  lemma OtherActionsLeavePolls(c: Setting, s: State, a: Action)
    requires Enabled(c, s, a) && !a.Store?
    ensures Next(c, s, a).t.polls == s.t.polls && s.clock <= Next(c, s, a).clock
  {
  }

  /** Apart from storing and scheduling, an action takes rows away or changes their interval, and nothing else. */
  lemma OtherActionsLeaveRows(c: Setting, s: State, a: Action)
    requires Enabled(c, s, a) && !a.Store? && !a.Ensure?
    ensures var s' := Next(c, s, a);
            && s'.since == s.since
            && forall p :: p in s'.t.schedule ==> p in s.t.schedule && SameReads(s.t.schedule[p], s'.t.schedule[p])
  {
  }

  /** After every action of every execution the poll state says what the poll history says. */
  lemma {:induction false} CacheIsAlwaysFaithful(c: Setting, s: State, actions: seq<Action>)
    requires Sound(c, s) && CacheIsFaithful(s) && Legal(c, s, actions)
    ensures CacheIsFaithful(After(c, s, actions))
  {
    if actions != [] {
      var before := actions[..|actions| - 1];
      CacheIsAlwaysFaithful(c, s, before);
      SoundAlways(c, s, before);
      CacheIsFaithfulKept(c, After(c, s, before), actions[|actions| - 1]);
    }
  }
}
