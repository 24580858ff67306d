/** The price loop of one run: every due identifier the day can pay for, batch by batch. */
module IngestPrices {
  import opened Domain
  import opened ObjectKeys
  import opened Ledger
  import opened Reading
  import opened Machine
  import opened Bookkeeping
  import opened Sets
  import opened Scheduler
  import opened Trace
  import opened Ingest
  import D = Database

  /** How a request ended: with a payload to read, with nothing, or with the end of the run's requests. */
  datatype Fetched = Ready(envelope: Envelope, key: ObjectKey) | Skip | Stop

  /** Why an attempt brought nothing to parse, if it did not. */
  function ReasonFor(attempt: Attempt, batch: nat): Option<Reason> {
    match attempt.fetch
    case Throttled => Some(RateLimited)
    case Broken => Some(NotFetched(batch))
    case Got(_) => if attempt.acknowledged then None else Some(NotArchived(batch))
  }

  function Listed(reason: Option<Reason>): seq<Reason> { if reason.Some? then [reason.value] else [] }

  /** Asks the provider once and puts the answer in the bucket unread. Being throttled ends the loop. */
  method FetchAndArchive(store: ObjectStore, tally: Tally, run: RunId, batch: nat, chunk: seq<string>, attempt: Attempt)
    returns (fetched: Fetched)
    modifies store, tally`degraded
    ensures tally.degraded == old(tally.degraded) + Listed(ReasonFor(attempt, batch))
    ensures store.objects == if attempt.fetch.Got? && (attempt.acknowledged || attempt.stored)
                             then old(store.objects)[ObjectKey(Prices, run, batch) := Envelope(chunk, attempt.fetch.body)]
                             else old(store.objects)
    ensures fetched == match attempt.fetch
                       case Throttled => Stop
                       case Broken => Skip
                       case Got(body) =>
                         if attempt.acknowledged
                         then Fetched.Ready(Envelope(chunk, body), ObjectKey(Prices, run, batch)) else Skip
    ensures ArchivesOnly(old(store.objects), store.objects, ObjectKey(Prices, run, batch))
  {
    match attempt.fetch
    case Throttled =>
      tally.Degrade(RateLimited);
      fetched := Stop;
    case Broken =>
      tally.Degrade(NotFetched(batch));
      fetched := Skip;
    case Got(body) =>
      var key, envelope := ObjectKey(Prices, run, batch), Envelope(chunk, body);
      var done := store.Put(key, envelope, attempt.acknowledged, attempt.stored);
      if done {
        fetched := Fetched.Ready(envelope, key);
      } else {
        tally.Degrade(NotArchived(batch));
        fetched := Skip;
      }
  }

  // ---------------------------------------------------------------------------
  // What a batch leaves behind
  // ---------------------------------------------------------------------------

  /** Identities, markets and the set of scheduled rows are left alone, and no poll is lost. */
  predicate Undisturbed(t: Tables, t': Tables) {
    && t'.assets == t.assets && t'.sourceIds == t.sourceIds && t'.markets == t.markets
    && t'.schedule.Keys == t.schedule.Keys && t.polls.Keys <= t'.polls.Keys
    && t.runs.Keys <= t'.runs.Keys && forall r :: r in t.runs ==> t'.runs[r].startedAt == t.runs[r].startedAt
  }

  /** Every row behind an identifier has a poll after an instant. */
  ghost predicate AllRead(c: Setting, t: Tables, id: string, after: Instant) {
    forall p :: p in RowsOf(c, t, id) ==> exists at :: at > after && PollKey(p, at) in t.polls
  }

  lemma AllReadPersists(c: Setting, t: Tables, t': Tables, id: string, after: Instant)
    requires Undisturbed(t, t') && AllRead(c, t, id, after)
    ensures AllRead(c, t', id, after)
  {
    assert RowsOf(c, t', id) == RowsOf(c, t, id);
    forall p | p in RowsOf(c, t', id)
      ensures exists at :: at > after && PollKey(p, at) in t'.polls
    {
      var at :| at > after && PollKey(p, at) in t.polls;
      assert PollKey(p, at) in t'.polls;
    }
  }

  /** A stored batch has read every row behind every identifier it asked for, and disturbed nothing else. */
  lemma StoredBatchReadsAll(c: Setting, s: State, targets: seq<PollTarget>, chunk: seq<string>, quotes: seq<Quote>,
                            startedAt: Instant, at: Instant, now: Instant, run: RunId)
    requires Scheduled(c, s) && ListsPollTargets(c, s.t, chunk, targets)
    ensures var t' := StorePolls(s.t, PollsFor(c, targets, quotes, startedAt), at, now, run);
            && Undisturbed(s.t, t') && t'.runs == s.t.runs
            && forall id, after :: id in chunk && after < at ==> AllRead(c, t', id, after)
  {
    var polls := PollsFor(c, targets, quotes, startedAt);
    var t' := StorePolls(s.t, polls, at, now, run);
    StorePollsFrame(s.t, polls, at, now, run);
    StorePollsRecord(s.t, polls, at, now, run);
    PairsOfMembers(polls);
    forall id, after | id in chunk && after < at
      ensures AllRead(c, t', id, after)
    {
      forall p | p in RowsOf(c, t', id)
        ensures exists at' :: at' > after && PollKey(p, at') in t'.polls
      {
        var target := PollTarget(p.asset, p.market, id, s.t.markets[p.market].platform, s.t.assets[p.asset].name);
        assert IsPollTarget(c, s.t, chunk, target);
        var i :| 0 <= i < |targets| && targets[i] == target;
        PollForReads(c, target, quotes, startedAt);
        assert polls[i].pair == p;
        assert PollKey(p, at) in t'.polls;
      }
    }
  }

  // ---------------------------------------------------------------------------
  // What could not be stored
  // ---------------------------------------------------------------------------

  /** A batch whose rows were not stored: the payload it archived, and the targets it was read for if they were listed. */
  datatype Failure = Failure(batch: nat, envelope: Envelope, listed: bool, targets: seq<PollTarget>)

  /**
   * How many valid prices the batch had read: one for each target its payload prices,
   * and none when the payload does not parse or its targets were not listed.
   */
  function PricesLost(c: Setting, startedAt: Instant, f: Failure): nat {
    if c.parse(f.envelope).None? || !f.listed then 0
    else |PricedOf(PollsFor(c, f.targets, c.parse(f.envelope).value, startedAt))|
  }

  function Shortfall(c: Setting, startedAt: Instant, failures: seq<Failure>): nat {
    if failures == [] then 0
    else Shortfall(c, startedAt, failures[..|failures| - 1]) + PricesLost(c, startedAt, failures[|failures| - 1])
  }

  function BatchesOf(failures: seq<Failure>): seq<nat> {
    if failures == [] then [] else BatchesOf(failures[..|failures| - 1]) + [failures[|failures| - 1].batch]
  }

  /** The batches a run reports as not stored, in order. */
  function NotStoredAmong(reasons: seq<Reason>): seq<nat> {
    if reasons == [] then []
    else
      var last := reasons[|reasons| - 1];
      NotStoredAmong(reasons[..|reasons| - 1]) + if last.NotStored? then [last.batch] else []
  }

  /** The payload of the batch is in the archive, and what was listed are the scheduled pairs behind its identifiers. */
  ghost predicate IsFailure(c: Setting, t: Tables, archive: map<ObjectKey, Envelope>, run: RunId, f: Failure) {
    && var key := ObjectKey(Prices, run, f.batch);
    && key in archive && archive[key] == f.envelope
    && (c.parse(f.envelope).Some? && f.listed ==> ListsPollTargets(c, t, f.envelope.requestedIds, f.targets))
  }

  /** Each failure says of its targets' query what the world did with its batch. */
  predicate AsAnswered(failures: seq<Failure>, world: nat -> Attempt) {
    forall i :: 0 <= i < |failures| ==> failures[i].listed == world(failures[i].batch).listed
  }

  /** At most the one failure of a batch. */
  predicate OfBatch(failures: seq<Failure>, batch: nat, listed: bool) {
    forall i :: 0 <= i < |failures| ==> failures[i].batch == batch && failures[i].listed == listed
  }

  /** Exactly the batches the run reports as not stored, as the archive and the schedule have them. */
  ghost predicate AreFailures(c: Setting, t: Tables, archive: map<ObjectKey, Envelope>, run: RunId, reasons: seq<Reason>,
                              failures: seq<Failure>) {
    && BatchesOf(failures) == NotStoredAmong(reasons)
    && forall i :: 0 <= i < |failures| ==> IsFailure(c, t, archive, run, failures[i])
  }

  predicate FailedBefore(failures: seq<Failure>, batch: nat) {
    forall i :: 0 <= i < |failures| ==> failures[i].batch < batch
  }

  /** A batch archives under its own key alone. */
  predicate ArchivesOnly(archive: map<ObjectKey, Envelope>, archive': map<ObjectKey, Envelope>, key: ObjectKey) {
    forall k :: k in archive && k != key ==> k in archive' && archive'[k] == archive[k]
  }

  lemma SameTargetsLater(c: Setting, t: Tables, t': Tables, ids: seq<string>, targets: seq<PollTarget>)
    requires Undisturbed(t, t')
    ensures ListsPollTargets(c, t', ids, targets) <==> ListsPollTargets(c, t, ids, targets)
  {
    forall x
      ensures IsPollTarget(c, t', ids, x) <==> IsPollTarget(c, t, ids, x)
    {
    }
  }

  lemma FailuresWere(c: Setting, t: Tables, t': Tables, archive: map<ObjectKey, Envelope>, run: RunId, reasons: seq<Reason>,
                     failures: seq<Failure>)
    requires Undisturbed(t, t') && AreFailures(c, t', archive, run, reasons, failures)
    ensures AreFailures(c, t, archive, run, reasons, failures)
  {
    forall i | 0 <= i < |failures|
      ensures IsFailure(c, t, archive, run, failures[i])
    {
      SameTargetsLater(c, t, t', failures[i].envelope.requestedIds, failures[i].targets);
    }
  }

  lemma OneFailure(c: Setting, t: Tables, archive: map<ObjectKey, Envelope>, run: RunId, f: Failure)
    requires IsFailure(c, t, archive, run, f)
    ensures AreFailures(c, t, archive, run, [NotStored(f.batch)], [f])
    ensures OfBatch([f], f.batch, f.listed)
  {
    assert [NotStored(f.batch)][..0] == [] && [f][..0] == [];
    assert NotStoredAmong([NotStored(f.batch)]) == NotStoredAmong([]) + [f.batch];
    assert BatchesOf([f]) == BatchesOf([]) + [f.batch];
  }

  lemma NoFailure(c: Setting, t: Tables, archive: map<ObjectKey, Envelope>, run: RunId, reason: Option<Reason>)
    requires reason.Some? ==> !reason.value.NotStored?
    ensures AreFailures(c, t, archive, run, Listed(reason), [])
  {
    if reason.Some? {
      assert [reason.value][..0] == [];
    }
  }

  lemma OneShortfall(c: Setting, startedAt: Instant, f: Failure)
    ensures Shortfall(c, startedAt, [f]) == PricesLost(c, startedAt, f)
  {
    assert [f][..0] == [];
  }

  /** The failures of a batch join those of the batches before it. */
  lemma MoreFailures(c: Setting, t: Tables, mid: Tables, archive: map<ObjectKey, Envelope>,
                     archive': map<ObjectKey, Envelope>, run: RunId, startedAt: Instant, batch: nat,
                     reasons: seq<Reason>, failures: seq<Failure>, reason: Option<Reason>, more: seq<Failure>,
                     world: nat -> Attempt)
    requires AreFailures(c, t, archive, run, reasons, failures)
    requires FailedBefore(failures, batch) && AsAnswered(failures, world)
    requires Undisturbed(t, mid) && ArchivesOnly(archive, archive', ObjectKey(Prices, run, batch))
    requires AreFailures(c, mid, archive', run, Listed(reason), more) && OfBatch(more, batch, world(batch).listed)
    ensures AreFailures(c, t, archive', run, reasons + Listed(reason), failures + more)
    ensures FailedBefore(failures + more, batch + 1) && AsAnswered(failures + more, world)
    ensures Shortfall(c, startedAt, failures + more) == Shortfall(c, startedAt, failures) + Shortfall(c, startedAt, more)
  {
    JoinedBatches(failures, more);
    JoinedShortfall(c, startedAt, failures, more);
    JoinedReasons(reasons, Listed(reason));
    forall i | 0 <= i < |failures + more|
      ensures IsFailure(c, t, archive', run, (failures + more)[i])
    {
      var f := (failures + more)[i];
      if i >= |failures| {
        assert f == more[i - |failures|];
        SameTargetsLater(c, t, mid, f.envelope.requestedIds, f.targets);
      } else {
        assert f == failures[i];
      }
    }
  }

  lemma {:induction false} JoinedBatches(failures: seq<Failure>, more: seq<Failure>)
    ensures BatchesOf(failures + more) == BatchesOf(failures) + BatchesOf(more)
  {
    if more == [] {
      assert failures + more == failures;
    } else {
      JoinedBatches(failures, more[..|more| - 1]);
      assert (failures + more)[..|failures + more| - 1] == failures + more[..|more| - 1];
    }
  }

  lemma {:induction false} JoinedShortfall(c: Setting, startedAt: Instant, failures: seq<Failure>, more: seq<Failure>)
    ensures Shortfall(c, startedAt, failures + more) == Shortfall(c, startedAt, failures) + Shortfall(c, startedAt, more)
  {
    if more == [] {
      assert failures + more == failures;
    } else {
      JoinedShortfall(c, startedAt, failures, more[..|more| - 1]);
      assert (failures + more)[..|failures + more| - 1] == failures + more[..|more| - 1];
    }
  }

  lemma {:induction false} JoinedReasons(reasons: seq<Reason>, more: seq<Reason>)
    ensures NotStoredAmong(reasons + more) == NotStoredAmong(reasons) + NotStoredAmong(more)
  {
    if more == [] {
      assert reasons + more == reasons;
    } else {
      JoinedReasons(reasons, more[..|more| - 1]);
      assert (reasons + more)[..|reasons + more| - 1] == reasons + more[..|more| - 1];
    }
  }

  // ---------------------------------------------------------------------------
  // One batch
  // ---------------------------------------------------------------------------

  /** Seen records that ended neither stored nor rejected. */
  function Unaccounted(tally: Tally): int
    reads tally
  {
    tally.seen as int - tally.written - tally.repeated - tally.rejected
  }

  /** The machine's account of a batch whose key is on the run: stored, or not. */
  lemma BatchOutcome(c: Setting, s: State, actions: seq<Action>, t: Tables, archive: map<ObjectKey, Envelope>, clock: Instant,
                     run: RunId, remaining: nat, batch: nat, asked: set<string>, key: ObjectKey, envelope: Envelope,
                     targets: seq<PollTarget>, startedAt: Instant, attempt: Attempt, ok: bool, t': Tables)
    returns (taken: seq<Action>, ticked: Instant)
    requires Reached(c, s, actions, t, archive, Ingesting(run, remaining, batch, asked, Keyed(key)), clock)
    requires key in archive && archive[key] == envelope && run in t.runs && t.runs[run].startedAt == startedAt
    requires clock < attempt.at < attempt.now
    requires if !ok then t' == t
             else c.parse(envelope).Some? && ListsPollTargets(c, t, envelope.requestedIds, targets)
                  && var polls := PollsFor(c, targets, c.parse(envelope).value, startedAt);
                  AllStorable(PricedOf(polls)) && t' == StorePolls(t, polls, attempt.at, attempt.now, run)
    ensures Reached(c, s, taken, t', archive, Ingesting(run, remaining, batch, asked, Stage.Ready), ticked)
    ensures ticked == clock || ticked == attempt.now
    ensures Undisturbed(t, t')
    ensures ok ==> forall id, after :: id in envelope.requestedIds && after < attempt.at ==> AllRead(c, t', id, after)
  {
    if ok {
      var keyed := After(c, s, actions);
      SoundAlways(c, s, actions);
      assert BatchPolls(c, keyed, key, targets) == PollsFor(c, targets, c.parse(envelope).value, startedAt);
      StoredBatchReadsAll(c, keyed, targets, envelope.requestedIds, c.parse(envelope).value, startedAt,
                          attempt.at, attempt.now, run);
      StoreStep(c, s, actions, t, archive, clock, run, remaining, batch, asked, key, targets, attempt.at, attempt.now);
      taken, ticked := actions + [Store(targets, attempt.at, attempt.now)], attempt.now;
    } else {
      StoreFailsStep(c, s, actions, t, archive, clock, run, remaining, batch, asked, key);
      taken, ticked := actions + [StoreFails], clock;
    }
  }

  /** The machine's account of a request that brought nothing to parse. */
  lemma NothingArrived(c: Setting, s: State, actions: seq<Action>, t: Tables, archive: map<ObjectKey, Envelope>, clock: Instant,
                       run: RunId, remaining: nat, batch: nat, asked: set<string>, chunk: seq<string>, attempt: Attempt)
    returns (taken: seq<Action>)
    requires Reached(c, s, actions, t, archive, Ingesting(run, remaining, batch, asked, Asked(chunk)), clock)
    requires attempt.fetch.Got? ==> !attempt.acknowledged
    ensures Reached(c, s, taken, t,
                    if attempt.fetch.Got? && attempt.stored
                    then archive[ObjectKey(Prices, run, batch) := Envelope(chunk, attempt.fetch.body)] else archive,
                    Ingesting(run, remaining, batch + 1, asked, Stage.Ready), clock)
  {
    if attempt.fetch.Got? {
      PutFailsStep(c, s, actions, t, archive, clock, run, remaining, batch, asked, chunk, attempt.fetch.body, attempt.stored);
      taken := actions + [PutFails(attempt.fetch.body, attempt.stored)];
    } else {
      FetchFailsStep(c, s, actions, t, archive, clock, run, remaining, batch, asked, chunk);
      taken := actions + [FetchFails];
    }
  }

  /** The machine's account of a payload: archived, then its key put on the run. */
  lemma PayloadArrived(c: Setting, s: State, actions: seq<Action>, t: Tables, archive: map<ObjectKey, Envelope>, clock: Instant,
                       run: RunId, remaining: nat, batch: nat, asked: set<string>, chunk: seq<string>, body: string)
    returns (taken: seq<Action>)
    requires Reached(c, s, actions, t, archive, Ingesting(run, remaining, batch, asked, Asked(chunk)), clock)
    ensures run in t.runs
    ensures var key := ObjectKey(Prices, run, batch);
            Reached(c, s, taken, WithKey(t, run, key), archive[key := Envelope(chunk, body)],
                    Ingesting(run, remaining, batch + 1, asked, Keyed(key)), clock)
  {
    var key := ObjectKey(Prices, run, batch);
    PutStep(c, s, actions, t, archive, clock, run, remaining, batch, asked, chunk, body);
    RecordKeyStep(c, s, actions + [Put(body)], t, archive[key := Envelope(chunk, body)], clock, run, remaining, batch + 1,
                  asked, key);
    taken := actions + [Put(body)] + [RecordKey];
  }

  lemma RecordsDisturbNothing(t: Tables, run: RunId, key: ObjectKey)
    requires run in t.runs
    ensures Undisturbed(t, WithRequest(t, run)) && Undisturbed(t, WithKey(WithRequest(t, run), run, key))
  {
  }

  /** Where the process stands once a fetch has ended, one way or the other. */
  function AfterFetch(fetched: Fetched): Stage {
    if fetched.Ready? then Keyed(fetched.key) else Stage.Ready
  }

  /**
   * Records the request, fetches, archives, and puts the key on the run, in that
   * order: a run killed anywhere in between leaves a record that covers it.
   */
  method FetchOnRecord(c: Setting, db: D.Database, store: ObjectStore, tally: Tally, run: RunId,
                       batch: nat, chunk: seq<string>, attempt: Attempt,
                       ghost s: State, ghost actions: seq<Action>, ghost remaining: nat, ghost asked: set<string>,
                       ghost clock: Instant)
    returns (fetched: Fetched, ghost taken: seq<Action>)
    requires Reached(c, s, actions, db.View(), store.objects, Ingesting(run, remaining, batch, asked, Stage.Ready), clock)
    requires remaining > 0 && (forall id :: id in chunk ==> id !in asked) && run in db.runs
    modifies db`runs, store, tally`degraded, tally`requests, tally`priceKeys
    ensures Reached(c, s, taken, db.View(), store.objects,
                    Ingesting(run, remaining - 1, batch + 1, asked + Members(chunk), AfterFetch(fetched)), clock)
    ensures Undisturbed(old(db.View()), db.View())
    ensures tally.requests == old(tally.requests) + 1
    ensures tally.degraded == old(tally.degraded) + Listed(ReasonFor(attempt, batch))
    ensures fetched.Ready? <==> ReasonFor(attempt, batch).None?
    ensures fetched.Ready? ==> fetched.envelope.requestedIds == chunk && fetched.key in store.objects
                               && store.objects[fetched.key] == fetched.envelope
                               && fetched.key == ObjectKey(Prices, run, batch)
                               && tally.priceKeys == old(tally.priceKeys) + [fetched.key]
    ensures fetched.Stop? <==> attempt.fetch.Throttled?
    ensures ArchivesOnly(old(store.objects), store.objects, ObjectKey(Prices, run, batch))
  {
    hide Sound, Legal, After;
    AskStep(c, s, actions, db.View(), store.objects, clock, run, remaining, batch, asked, chunk);
    taken := actions + [Ask(chunk)];
    ghost var asked' := asked + Members(chunk);
    RecordsDisturbNothing(db.View(), run, ObjectKey(Prices, run, batch));
    tally.requests := tally.requests + 1;
    db.RecordRequest(run);
    ghost var archive, t := store.objects, db.View();
    fetched := FetchAndArchive(store, tally, run, batch, chunk, attempt);
    if fetched.Ready? {
      taken := PayloadArrived(c, s, taken, t, archive, clock, run, remaining - 1, batch, asked', chunk,
                              attempt.fetch.body);
      db.RecordPriceKey(run, fetched.key);
      tally.priceKeys := tally.priceKeys + [fetched.key];
    } else {
      taken := NothingArrived(c, s, taken, t, archive, clock, run, remaining - 1, batch, asked', chunk, attempt);
    }
  }

  /**
   * From the payload in hand to its rows. When they cannot be stored, the prices
   * read from the payload are exactly what the run has seen and not accounted for.
   */
  method StoreKeyed(c: Setting, db: D.Database, store: ObjectStore, tally: Tally, run: RunId, startedAt: Instant,
                    batch: nat, envelope: Envelope, key: ObjectKey, attempt: Attempt,
                    ghost s: State, ghost actions: seq<Action>, ghost remaining: nat, ghost asked: set<string>,
                    ghost clock: Instant)
    returns (ok: bool, ghost taken: seq<Action>, ghost ticked: Instant, ghost failures: seq<Failure>)
    requires Reached(c, s, actions, db.View(), store.objects, Ingesting(run, remaining, batch + 1, asked, Keyed(key)), clock)
    requires key == ObjectKey(Prices, run, batch) && key in store.objects && store.objects[key] == envelope
    requires clock < attempt.at < attempt.now && run in db.runs && db.runs[run].startedAt == startedAt
    modifies db, tally`seen, tally`rejected, tally`noPrice, tally`written, tally`repeated, tally`degraded
    ensures Reached(c, s, taken, db.View(), store.objects, Ingesting(run, remaining, batch + 1, asked, Stage.Ready), ticked)
    ensures ticked == clock || ticked == attempt.now
    ensures Undisturbed(old(db.View()), db.View())
    ensures tally.degraded == old(tally.degraded) + (if ok then [] else [NotStored(batch)])
    ensures ok ==> forall id, after :: id in envelope.requestedIds && after < attempt.at ==> AllRead(c, db.View(), id, after)
    ensures AreFailures(c, old(db.View()), store.objects, run, if ok then [] else [NotStored(batch)], failures)
    ensures OfBatch(failures, batch, attempt.listed)
    ensures Unaccounted(tally) == old(Unaccounted(tally)) + Shortfall(c, startedAt, failures)
  {
    failures := [];
    ghost var before := db.View();
    var targets;
    ok, targets := IngestBatch(c, db, tally, run, startedAt, envelope.requestedIds, envelope, attempt);
    taken, ticked := BatchOutcome(c, s, actions, before, store.objects, clock, run, remaining, batch + 1, asked, key, envelope,
                                  targets, startedAt, attempt, ok, db.View());
    if !ok {
      ghost var failure := Failure(batch, envelope, attempt.listed, targets);
      failures := [failure];
      OneFailure(c, before, store.objects, run, failure);
      OneShortfall(c, startedAt, failure);
      tally.Degrade(NotStored(batch));
    }
  }

  /** One chunk of the due list, after the budget has paid for it. */
  method PriceBatch(c: Setting, db: D.Database, store: ObjectStore, tally: Tally, run: RunId, startedAt: Instant,
                    batch: nat, chunk: seq<string>, attempt: Attempt,
                    ghost s: State, ghost actions: seq<Action>, ghost remaining: nat, ghost asked: set<string>,
                    ghost clock: Instant)
    returns (stop: bool, reason: Option<Reason>, ghost taken: seq<Action>, ghost ticked: Instant,
             ghost failures: seq<Failure>)
    requires Reached(c, s, actions, db.View(), store.objects, Ingesting(run, remaining, batch, asked, Stage.Ready), clock)
    requires remaining > 0 && (forall id :: id in chunk ==> id !in asked)
    requires clock < attempt.at < attempt.now && run in db.runs && db.runs[run].startedAt == startedAt
    modifies db, store, tally
    ensures Reached(c, s, taken, db.View(), store.objects,
                    Ingesting(run, remaining - 1, batch + 1, asked + Members(chunk), Stage.Ready), ticked)
    ensures ticked == clock || ticked == attempt.now
    ensures Undisturbed(old(db.View()), db.View())
    ensures tally.requests == old(tally.requests) + 1
    ensures tally.degraded == old(tally.degraded) + Listed(reason)
    ensures reason.Some? ==> reason.value != BudgetSpent && reason.value != BudgetStopped
    ensures stop ==> reason.Some?
    ensures reason.None? ==> forall id :: id in chunk ==> AllRead(c, db.View(), id, clock)
    ensures AreFailures(c, old(db.View()), store.objects, run, Listed(reason), failures)
    ensures OfBatch(failures, batch, attempt.listed)
    ensures ArchivesOnly(old(store.objects), store.objects, ObjectKey(Prices, run, batch))
    ensures Unaccounted(tally) == old(Unaccounted(tally)) + Shortfall(c, startedAt, failures)
  {
    var fetched;
    ghost var before := db.View();
    fetched, taken := FetchOnRecord(c, db, store, tally, run, batch, chunk, attempt, s, actions, remaining, asked, clock);
    stop, reason, ticked, failures := fetched.Stop?, ReasonFor(attempt, batch), clock, [];
    NoFailure(c, before, store.objects, run, reason);
    if fetched.Ready? {
      var ok;
      ghost var keyed := db.View();
      ok, taken, ticked, failures := StoreKeyed(c, db, store, tally, run, startedAt, batch, fetched.envelope, fetched.key, attempt,
                                            s, taken, remaining - 1, asked + Members(chunk), clock);
      reason := if ok then None else Some(NotStored(batch));
      FailuresWere(c, before, keyed, store.objects, run, Listed(reason), failures);
    }
  }

  // ---------------------------------------------------------------------------
  // The loop
  // ---------------------------------------------------------------------------

  lemma ReadSinceEarlier(c: Setting, t: Tables, id: string, early: Instant, late: Instant)
    requires early <= late && AllRead(c, t, id, late)
    ensures AllRead(c, t, id, early)
  {
    forall p | p in RowsOf(c, t, id)
      ensures exists at :: at > early && PollKey(p, at) in t.polls
    {
      var at :| at > late && PollKey(p, at) in t.polls;
      assert at > early;
    }
  }

  /** The first n identifiers of the list have been read since an instant. */
  ghost predicate ReadUpTo(c: Setting, t: Tables, due: seq<string>, n: nat, from: Instant) {
    forall i :: 0 <= i < n && i < |due| ==> AllRead(c, t, due[i], from)
  }

  /** What was read stays read, and the batch just stored is read too. */
  lemma ReadSoFar(c: Setting, t: Tables, t': Tables, due: seq<string>, lo: nat, hi: nat, chunk: seq<string>,
                  from: Instant, clock: Instant)
    requires lo <= hi <= |due| && chunk == due[lo..hi] && from <= clock && Undisturbed(t, t')
    requires ReadUpTo(c, t, due, lo, from)
    requires forall id :: id in chunk ==> AllRead(c, t', id, clock)
    ensures ReadUpTo(c, t', due, hi, from)
  {
    forall i | 0 <= i < hi
      ensures AllRead(c, t', due[i], from)
    {
      if i < lo {
        AllReadPersists(c, t, t', due[i], from);
      } else {
        assert due[i] == due[lo..hi][i - lo];
        ReadSinceEarlier(c, t', due[i], from, clock);
      }
    }
  }

  function FirstOf(due: seq<string>, lo: nat): set<string>
    requires lo <= |due|
  {
    set i | 0 <= i < lo :: due[i]
  }

  lemma NextChunk(due: seq<string>, lo: nat, hi: nat, chunk: seq<string>)
    requires NoDuplicates(due) && lo <= hi <= |due| && chunk == due[lo..hi]
    ensures forall id :: id in chunk ==> id !in FirstOf(due, lo)
    ensures FirstOf(due, hi) == FirstOf(due, lo) + Members(chunk)
  {
    forall i | lo <= i < hi
      ensures due[i] in due[lo..hi]
    {
      assert due[i] == due[lo..hi][i - lo];
    }
  }

  /** How many identifiers a number of requests can ask about. */
  function Affords(requests: nat, size: nat): nat { if requests == 0 then 0 else Affords(requests - 1, size) + size }

  /** A provider that names no batch size is asked about one identifier at a time. */
  function ChunkSize(batchSize: nat): nat { if batchSize < 1 then 1 else batchSize }

  lemma {:induction false} AffordsIsAProduct(requests: nat, size: nat)
    ensures Affords(requests, size) == requests * size
  {
    if requests > 0 {
      AffordsIsAProduct(requests - 1, size);
      assert requests * size == (requests - 1) * size + size;
    }
  }

  /** What is left of the list stays within what the budget can still pay for. */
  lemma StillPaidFor(length: nat, lo: nat, remaining: nat, size: nat)
    requires lo < length && length - lo <= Affords(remaining, size)
    ensures remaining > 0 && length - ChunkEnd(length, lo, size) <= Affords(remaining - 1, size)
  {
  }

  /** The end of the chunk that starts at lo. */
  function ChunkEnd(length: nat, lo: nat, size: nat): nat { if lo + size < length then lo + size else length }

  /** One batch the budget has a request for. */
  method PaidBatch(c: Setting, db: D.Database, store: ObjectStore, tally: Tally, budget: Budget, run: RunId,
                   startedAt: Instant, chunk: seq<string>, batch: nat, attempt: Attempt,
                   ghost s: State, ghost actions: seq<Action>, ghost asked: set<string>, ghost clock: Instant)
    returns (stop: bool, reason: Option<Reason>, ghost taken: seq<Action>, ghost ticked: Instant,
             ghost failures: seq<Failure>)
    requires budget.remaining > 0 && (forall id :: id in chunk ==> id !in asked)
    requires Reached(c, s, actions, db.View(), store.objects, Ingesting(run, budget.remaining, batch, asked, Stage.Ready), clock)
    requires clock < attempt.at < attempt.now && run in db.runs && db.runs[run].startedAt == startedAt
    modifies db, store, tally, budget
    ensures budget.remaining == old(budget.remaining) - 1
    ensures Reached(c, s, taken, db.View(), store.objects,
                    Ingesting(run, budget.remaining, batch + 1, asked + Members(chunk), Stage.Ready), ticked)
    ensures reason.None? ==> forall id :: id in chunk ==> AllRead(c, db.View(), id, clock)
    ensures clock <= ticked <= attempt.now
    ensures Undisturbed(old(db.View()), db.View())
    ensures tally.requests == old(tally.requests) + 1
    ensures tally.degraded == old(tally.degraded) + Listed(reason)
    ensures reason.Some? ==> reason.value != BudgetSpent && reason.value != BudgetStopped
    ensures stop ==> reason.Some?
    ensures AreFailures(c, old(db.View()), store.objects, run, Listed(reason), failures)
    ensures OfBatch(failures, batch, attempt.listed)
    ensures ArchivesOnly(old(store.objects), store.objects, ObjectKey(Prices, run, batch))
    ensures Unaccounted(tally) == old(Unaccounted(tally)) + Shortfall(c, startedAt, failures)
  {
    ghost var spendable: nat := budget.remaining;
    var paid := budget.Take();
    assert paid;
    stop, reason, taken, ticked, failures :=
      PriceBatch(c, db, store, tally, run, startedAt, batch, chunk, attempt, s, actions, spendable, asked, clock);
  }

  /** One turn of the loop. What the budget can pay for capped the list, so the budget is never found empty here. */
  method NextBatch(c: Setting, db: D.Database, store: ObjectStore, tally: Tally, budget: Budget, run: RunId,
                   startedAt: Instant, size: nat, due: seq<string>, lo: nat, batch: nat, attempt: Attempt,
                   ghost s: State, ghost actions: seq<Action>, ghost clock: Instant)
    returns (hi: nat, stop: bool, reason: Option<Reason>, ghost taken: seq<Action>, ghost ticked: Instant,
             ghost failures: seq<Failure>)
    requires NoDuplicates(due) && lo < |due| && |due| - lo <= Affords(budget.remaining, size) && size > 0
    requires Reached(c, s, actions, db.View(), store.objects,
                     Ingesting(run, budget.remaining, batch, FirstOf(due, lo), Stage.Ready), clock)
    requires clock < attempt.at < attempt.now && run in db.runs && db.runs[run].startedAt == startedAt
    modifies db, store, tally, budget
    ensures hi == ChunkEnd(|due|, lo, size) && |due| - hi <= Affords(budget.remaining, size)
    ensures Reached(c, s, taken, db.View(), store.objects,
                    Ingesting(run, budget.remaining, batch + 1, FirstOf(due, hi), Stage.Ready), ticked)
    ensures reason.None? ==> forall id :: id in due[lo..hi] ==> AllRead(c, db.View(), id, clock)
    ensures budget.remaining == old(budget.remaining) - 1
    ensures clock <= ticked <= attempt.now
    ensures Undisturbed(old(db.View()), db.View())
    ensures tally.requests == old(tally.requests) + 1
    ensures tally.degraded == old(tally.degraded) + Listed(reason)
    ensures reason.Some? ==> reason.value != BudgetSpent && reason.value != BudgetStopped
    ensures stop ==> reason.Some?
    ensures AreFailures(c, old(db.View()), store.objects, run, Listed(reason), failures)
    ensures OfBatch(failures, batch, attempt.listed)
    ensures ArchivesOnly(old(store.objects), store.objects, ObjectKey(Prices, run, batch))
    ensures Unaccounted(tally) == old(Unaccounted(tally)) + Shortfall(c, startedAt, failures)
  {
    hi := ChunkEnd(|due|, lo, size);
    var chunk := due[lo..hi];
    StillPaidFor(|due|, lo, budget.remaining, size);
    NextChunk(due, lo, hi, chunk);
    stop, reason, taken, ticked, failures :=
      PaidBatch(c, db, store, tally, budget, run, startedAt, chunk, batch, attempt, s, actions, FirstOf(due, lo), clock);
  }

  /** Reasons a batch gives, as opposed to the budget. */
  predicate FromBatches(reasons: seq<Reason>) { forall r :: r in reasons ==> r != BudgetSpent && r != BudgetStopped }

  /**
   * Where the loop stands: the execution so far, what the budget still pays for, that
   * all before `lo` was read unless there is a reason, and what could not be stored.
   */
  ghost predicate Standing(c: Setting, s: State, t: Tables, archive: map<ObjectKey, Envelope>, run: RunId, remaining: nat,
                           size: nat, due: seq<string>, lo: nat, batch: nat, actions: seq<Action>, clock: Instant,
                           reasons: seq<Reason>, failures: seq<Failure>, world: nat -> Attempt)
  {
    && lo <= |due| && |due| - lo <= Affords(remaining, size)
    && Reached(c, s, actions, t, archive, Ingesting(run, remaining, batch, FirstOf(due, lo), Stage.Ready), clock)
    && s.clock <= clock && Undisturbed(s.t, t) && FromBatches(reasons)
    && (reasons == [] ==> ReadUpTo(c, t, due, lo, s.clock))
    && AreFailures(c, s.t, archive, run, reasons, failures) && FailedBefore(failures, batch) && AsAnswered(failures, world)
  }

  lemma StandsAtFirst(c: Setting, s: State, run: RunId, remaining: nat, size: nat, due: seq<string>, world: nat -> Attempt)
    requires Sound(c, s) && s.process == Ingesting(run, remaining, 0, {}, Stage.Ready) && |due| <= Affords(remaining, size)
    ensures Standing(c, s, s.t, s.archive, run, remaining, size, due, 0, 0, [], s.clock, [], [], world)
  {
  }

  lemma StandsAtLast(c: Setting, s: State, t: Tables, archive: map<ObjectKey, Envelope>, run: RunId, remaining: nat,
                     size: nat, due: seq<string>, lo: nat, batch: nat, actions: seq<Action>, clock: Instant,
                     reasons: seq<Reason>, failures: seq<Failure>, world: nat -> Attempt)
    requires Standing(c, s, t, archive, run, remaining, size, due, lo, batch, actions, clock, reasons, failures, world)
    requires lo >= |due| || reasons != []
    ensures lo <= |due|
    ensures Reached(c, s, actions, t, archive, Ingesting(run, remaining, batch, FirstOf(due, lo), Stage.Ready), clock)
    ensures FirstOf(due, lo) <= Members(due) && FromBatches(reasons)
    ensures reasons == [] ==> ReadUpTo(c, t, due, |due|, s.clock)
    ensures AreFailures(c, s.t, archive, run, reasons, failures) && AsAnswered(failures, world)
  {
    hide Reached, AreFailures, FromBatches;
  }

  /** One turn of the loop, with what the run has read and reported so far carried on. */
  method NextTurn(c: Setting, db: D.Database, store: ObjectStore, tally: Tally, budget: Budget, run: RunId,
                  startedAt: Instant, size: nat, due: seq<string>, lo: nat, batch: nat, world: nat -> Attempt,
                  ghost s: State, ghost actions: seq<Action>, ghost clock: Instant,
                  ghost reasons: seq<Reason>, ghost failures: seq<Failure>)
    returns (hi: nat, stop: bool, ghost taken: seq<Action>, ghost ticked: Instant,
             ghost more: seq<Reason>, ghost failed: seq<Failure>)
    requires NoDuplicates(due) && lo < |due| && size > 0
    requires Standing(c, s, db.View(), store.objects, run, budget.remaining, size, due, lo, batch, actions, clock,
                      reasons, failures, world)
    requires clock < world(batch).at < world(batch).now && run in db.runs && db.runs[run].startedAt == startedAt
    modifies db, store, tally, budget
    ensures lo < hi <= |due|
    ensures Standing(c, s, db.View(), store.objects, run, budget.remaining, size, due, hi, batch + 1, taken, ticked,
                     reasons + more, failures + failed, world)
    ensures budget.remaining == old(budget.remaining) - 1 && tally.requests == old(tally.requests) + 1
    ensures ticked <= world(batch).now && run in db.runs && db.runs[run].startedAt == startedAt
    ensures tally.degraded == old(tally.degraded) + more
    ensures stop ==> reasons + more != []
    ensures Shortfall(c, startedAt, failures + failed) == Shortfall(c, startedAt, failures) + Shortfall(c, startedAt, failed)
    ensures Unaccounted(tally) == old(Unaccounted(tally)) + Shortfall(c, startedAt, failed)
  {
    hide Sound;
    ghost var before, held := db.View(), store.objects;
    var reason;
    hi, stop, reason, taken, ticked, failed :=
      NextBatch(c, db, store, tally, budget, run, startedAt, size, due, lo, batch, world(batch), s, actions, clock);
    more := Listed(reason);
    MoreFailures(c, s.t, before, held, store.objects, run, startedAt, batch, reasons, failures, reason, failed,
                 world);
    if reasons + more == [] {
      ReadSoFar(c, before, db.View(), due, lo, hi, due[lo..hi], s.clock, clock);
    }
  }

  lemma ClockTicks(world: nat -> Attempt, from: Instant, batch: nat)
    requires ClockRuns(world, from)
    ensures from < world(0).at && world(batch).at < world(batch).now < world(batch + 1).at
  {
  }

  /** The loop over the chosen list, and the execution of the machine it is. */
  method PriceLoop(c: Setting, db: D.Database, store: ObjectStore, tally: Tally, budget: Budget, run: RunId,
                   startedAt: Instant, size: nat, due: seq<string>, world: nat -> Attempt, ghost s: State)
    returns (ghost actions: seq<Action>, ghost clock: Instant, ghost batches: nat, ghost asked: set<string>,
             ghost reasons: seq<Reason>, ghost failures: seq<Failure>)
    requires Sound(c, s) && s.t == db.View() && s.archive == store.objects
    requires s.process == Ingesting(run, budget.remaining, 0, {}, Stage.Ready)
    requires run in db.runs && db.runs[run].startedAt == startedAt && ClockRuns(world, s.clock)
    requires NoDuplicates(due) && size > 0 && |due| <= Affords(budget.remaining, size)
    modifies db, store, tally, budget
    ensures Reached(c, s, actions, db.View(), store.objects,
                    Ingesting(run, budget.remaining, batches, asked, Stage.Ready), clock)
    ensures asked <= Members(due)
    ensures tally.requests - old(tally.requests) == old(budget.remaining) - budget.remaining
    ensures tally.degraded == old(tally.degraded) + reasons && FromBatches(reasons)
    ensures reasons == [] ==> ReadUpTo(c, db.View(), due, |due|, s.clock)
    ensures AreFailures(c, s.t, store.objects, run, reasons, failures) && AsAnswered(failures, world)
    ensures Unaccounted(tally) == old(Unaccounted(tally)) + Shortfall(c, startedAt, failures)
  {
    hide Sound, Standing, Reached, ClockRuns, AreFailures, AsAnswered, ReadUpTo, FromBatches, Affords, FirstOf;
    ClockTicks(world, s.clock, 0);
    actions, clock, reasons, failures := [], s.clock, [], [];
    var lo, batch, stop := 0, 0, false;
    StandsAtFirst(c, s, run, budget.remaining, size, due, world);
    while lo < |due| && !stop
      invariant lo <= |due|
      invariant Standing(c, s, db.View(), store.objects, run, budget.remaining, size, due, lo, batch, actions, clock,
                         reasons, failures, world)
      invariant clock < world(batch).at && run in db.runs && db.runs[run].startedAt == startedAt
      invariant tally.requests - old(tally.requests) == old(budget.remaining) - budget.remaining
      invariant tally.degraded == old(tally.degraded) + reasons
      invariant stop ==> reasons != []
      invariant Unaccounted(tally) == old(Unaccounted(tally)) + Shortfall(c, startedAt, failures)
      decreases |due| - lo
    {
      ghost var more, failed;
      ClockTicks(world, s.clock, batch);
      var hi;
      hi, stop, actions, clock, more, failed :=
        NextTurn(c, db, store, tally, budget, run, startedAt, size, due, lo, batch, world, s, actions, clock,
                 reasons, failures);
      reasons, failures := reasons + more, failures + failed;
      lo, batch := hi, batch + 1;
    }
    batches, asked := batch, FirstOf(due, lo);
    StandsAtLast(c, s, db.View(), store.objects, run, budget.remaining, size, due, lo, batch, actions, clock, reasons, failures,
                 world);
  }

  /** With no budget the run stops before it asks what is due. */
  function Asking(remaining: nat, queriedAt: Instant): seq<Action> { if remaining == 0 then [] else [Query(queriedAt)] }

  /** The query and the step after it are an execution from s that has reached these tables and this archive. */
  ghost predicate StepReached(c: Setting, s: State, asking: seq<Action>, step: seq<Action>, t: Tables,
                              archive: map<ObjectKey, Envelope>, remaining: nat, due: seq<string>) {
    && Legal(c, s, asking) && Legal(c, After(c, s, asking), step) && OnlyPrices(step)
    && Legal(c, s, asking + step) && After(c, s, asking + step) == After(c, After(c, s, asking), step)
    && var end := After(c, s, asking + step);
    && end.t == t && end.archive == archive
    && end.process.Ingesting? && end.process.stage == Stage.Ready && end.process.remaining == remaining
    && end.process.asked <= Members(due)
  }

  lemma NothingAsked(c: Setting, s: State, run: RunId)
    requires s.process == Ingesting(run, 0, 0, {}, Stage.Ready)
    ensures StepReached(c, s, [], [], s.t, s.archive, 0, [])
  {
  }

  lemma AskedAndRead(c: Setting, s: State, queriedAt: Instant, step: seq<Action>, t: Tables, archive: map<ObjectKey, Envelope>,
                     run: RunId, remaining: nat, batches: nat, asked: set<string>, clock: Instant, due: seq<string>)
    requires Legal(c, s, [Query(queriedAt)]) && asked <= Members(due)
    requires Reached(c, After(c, s, [Query(queriedAt)]), step, t, archive,
                     Ingesting(run, remaining, batches, asked, Stage.Ready), clock)
    ensures StepReached(c, s, [Query(queriedAt)], step, t, archive, remaining, due)
  {
    hide Sound;
    RunsOn(c, s, [Query(queriedAt)], step);
  }

  /** Asks what is due, as much as the budget can pay for, and reads it. */
  method ReadWhatIsDue(c: Setting, db: D.Database, store: ObjectStore, tally: Tally, budget: Budget, run: RunId,
                       startedAt: Instant, size: nat, queriedAt: Instant, world: nat -> Attempt, ghost s: State)
    returns (due: seq<string>, ghost step: seq<Action>, ghost reasons: seq<Reason>, ghost failures: seq<Failure>)
    requires Sound(c, s) && s.t == db.View() && s.archive == store.objects
    requires s.process == Ingesting(run, budget.remaining, 0, {}, Stage.Ready) && size > 0
    requires run in db.runs && db.runs[run].startedAt == startedAt
    requires s.clock <= queriedAt && ClockRuns(world, queriedAt)
    modifies db, store, tally, budget
    ensures StepReached(c, s, [Query(queriedAt)], step, db.View(), store.objects, budget.remaining, due)
    ensures tally.requests - old(tally.requests) == old(budget.remaining) - budget.remaining
    ensures tally.degraded == old(tally.degraded) + reasons && FromBatches(reasons)
    ensures IsDueSelection(c, s.t, queriedAt, Affords(old(budget.remaining), size), due)
    ensures reasons == [] ==> ReadUpTo(c, db.View(), due, |due|, queriedAt)
    ensures AreFailures(c, s.t, store.objects, run, reasons, failures) && AsAnswered(failures, world)
    ensures Unaccounted(tally) == old(Unaccounted(tally)) + Shortfall(c, startedAt, failures)
  {
    hide Sound, Legal, After, IsFailure, ReadUpTo, OnlyPrices, Reached, StepReached;
    due := db.DueExternalIds(c, queriedAt, Affords(budget.remaining, size));
    ghost var clock, batches, asked;
    ghost var queried := After(c, s, [Query(queriedAt)]);
    QueryStep(c, s, queriedAt);
    step, clock, batches, asked, reasons, failures :=
      PriceLoop(c, db, store, tally, budget, run, startedAt, size, due, world, queried);
    AskedAndRead(c, s, queriedAt, step, db.View(), store.objects, run, budget.remaining, batches, asked, clock, due);
  }

  /**
   * The price step. It is an execution of the machine, so every instant it can be
   * killed at is a state of one. What it may spend caps what it selects, so the
   * budget never stops it part way. If nothing degraded the run, every row behind
   * every identifier it selected was read. What it saw and cannot account for is
   * exactly the prices of the batches it reports as not stored.
   */
  method IngestPrices(c: Setting, db: D.Database, store: ObjectStore, tally: Tally, budget: Budget, run: RunId,
                      startedAt: Instant, batchSize: nat, queriedAt: Instant, world: nat -> Attempt, ghost s: State)
    returns (due: seq<string>, ghost step: seq<Action>, ghost reasons: seq<Reason>, ghost failures: seq<Failure>)
    requires Sound(c, s) && s.t == db.View() && s.archive == store.objects
    requires s.process == Ingesting(run, budget.remaining, 0, {}, Stage.Ready)
    requires run in db.runs && db.runs[run].startedAt == startedAt
    requires s.clock <= queriedAt && ClockRuns(world, queriedAt)
    modifies db, store, tally, budget
    ensures StepReached(c, s, Asking(old(budget.remaining), queriedAt), step, db.View(), store.objects, budget.remaining, due)
    ensures tally.requests - old(tally.requests) == old(budget.remaining) - budget.remaining
    ensures tally.degraded == old(tally.degraded) + reasons
    ensures if old(budget.remaining) == 0 then reasons == [BudgetSpent]
            else FromBatches(reasons)
                 && IsDueSelection(c, s.t, queriedAt, old(budget.remaining) * ChunkSize(batchSize), due)
    ensures reasons == [] ==> ReadUpTo(c, db.View(), due, |due|, queriedAt)
    ensures AreFailures(c, s.t, store.objects, run, reasons, failures) && AsAnswered(failures, world)
    ensures Unaccounted(tally) == old(Unaccounted(tally)) + Shortfall(c, startedAt, failures)
  {
    hide Sound, IsDueSelection, IsFailure, ReadUpTo, ClockRuns, StepReached;
    if budget.remaining == 0 {
      tally.Degrade(BudgetSpent);
      NothingAsked(c, s, run);
      due, step, reasons, failures := [], [], [BudgetSpent], [];
      NoFailure(c, s.t, store.objects, run, Some(BudgetSpent));
      return;
    }
    AffordsIsAProduct(budget.remaining, ChunkSize(batchSize));
    due, step, reasons, failures :=
      ReadWhatIsDue(c, db, store, tally, budget, run, startedAt, ChunkSize(batchSize), queriedAt, world, s);
  }
}
