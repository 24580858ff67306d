/** One lemma per action an ingest run takes: what it makes of the state an execution has reached. */
module Trace {
  import opened Domain
  import opened ObjectKeys
  import opened Ledger
  import opened Sets
  import opened Machine
  import opened Bookkeeping

  /** Nothing but the price step of a run already open. */
  predicate OnlyPrices(actions: seq<Action>) { forall a :: a in actions ==> OfPrices(a) && !a.Open? }

  /** A price step from s has reached exactly these tables, this archive, this process and this clock. */
  ghost predicate Reached(c: Setting, s: State, actions: seq<Action>, t: Tables, archive: map<ObjectKey, Envelope>,
                          process: Process, clock: Instant) {
    && Sound(c, s) && Legal(c, s, actions) && OnlyPrices(actions)
    && var now := After(c, s, actions);
    && now.t == t && now.archive == archive && now.process == process && now.clock == clock
  }

  lemma AskStep(c: Setting, s: State, actions: seq<Action>, t: Tables, archive: map<ObjectKey, Envelope>, clock: Instant,
                run: RunId, remaining: nat, batch: nat, asked: set<string>, chunk: seq<string>)
    requires Reached(c, s, actions, t, archive, Ingesting(run, remaining, batch, asked, Ready), clock)
    requires remaining > 0 && forall id :: id in chunk ==> id !in asked
    ensures run in t.runs
    ensures Reached(c, s, actions + [Ask(chunk)], WithRequest(t, run), archive,
                    Ingesting(run, remaining - 1, batch, asked + Members(chunk), Asked(chunk)), clock)
  {
    SoundAlways(c, s, actions);
    Extend(c, s, actions, Ask(chunk));
  }

  lemma FetchFailsStep(c: Setting, s: State, actions: seq<Action>, t: Tables, archive: map<ObjectKey, Envelope>, clock: Instant,
                       run: RunId, remaining: nat, batch: nat, asked: set<string>, chunk: seq<string>)
    requires Reached(c, s, actions, t, archive, Ingesting(run, remaining, batch, asked, Asked(chunk)), clock)
    ensures Reached(c, s, actions + [FetchFails], t, archive, Ingesting(run, remaining, batch + 1, asked, Ready), clock)
  {
    SoundAlways(c, s, actions);
    Extend(c, s, actions, FetchFails);
  }

  lemma PutFailsStep(c: Setting, s: State, actions: seq<Action>, t: Tables, archive: map<ObjectKey, Envelope>, clock: Instant,
                     run: RunId, remaining: nat, batch: nat, asked: set<string>, chunk: seq<string>, body: string, stored: bool)
    requires Reached(c, s, actions, t, archive, Ingesting(run, remaining, batch, asked, Asked(chunk)), clock)
    ensures Reached(c, s, actions + [PutFails(body, stored)], t,
                    if stored then archive[ObjectKey(Prices, run, batch) := Envelope(chunk, body)] else archive,
                    Ingesting(run, remaining, batch + 1, asked, Ready), clock)
  {
    SoundAlways(c, s, actions);
    Extend(c, s, actions, PutFails(body, stored));
  }

  lemma PutStep(c: Setting, s: State, actions: seq<Action>, t: Tables, archive: map<ObjectKey, Envelope>, clock: Instant,
                run: RunId, remaining: nat, batch: nat, asked: set<string>, chunk: seq<string>, body: string)
    requires Reached(c, s, actions, t, archive, Ingesting(run, remaining, batch, asked, Asked(chunk)), clock)
    ensures var key := ObjectKey(Prices, run, batch);
            Reached(c, s, actions + [Put(body)], t, archive[key := Envelope(chunk, body)],
                    Ingesting(run, remaining, batch + 1, asked, Archived(key)), clock)
  {
    SoundAlways(c, s, actions);
    Extend(c, s, actions, Put(body));
  }

  lemma RecordKeyStep(c: Setting, s: State, actions: seq<Action>, t: Tables, archive: map<ObjectKey, Envelope>, clock: Instant,
                      run: RunId, remaining: nat, batch: nat, asked: set<string>, key: ObjectKey)
    requires Reached(c, s, actions, t, archive, Ingesting(run, remaining, batch, asked, Archived(key)), clock)
    ensures run in t.runs
    ensures Reached(c, s, actions + [RecordKey], WithKey(t, run, key), archive,
                    Ingesting(run, remaining, batch, asked, Keyed(key)), clock)
  {
    SoundAlways(c, s, actions);
    Extend(c, s, actions, RecordKey);
  }

  lemma StoreFailsStep(c: Setting, s: State, actions: seq<Action>, t: Tables, archive: map<ObjectKey, Envelope>, clock: Instant,
                       run: RunId, remaining: nat, batch: nat, asked: set<string>, key: ObjectKey)
    requires Reached(c, s, actions, t, archive, Ingesting(run, remaining, batch, asked, Keyed(key)), clock)
    ensures Reached(c, s, actions + [StoreFails], t, archive, Ingesting(run, remaining, batch, asked, Ready), clock)
  {
    SoundAlways(c, s, actions);
    Extend(c, s, actions, StoreFails);
  }

  lemma StoreStep(c: Setting, s: State, actions: seq<Action>, t: Tables, archive: map<ObjectKey, Envelope>, clock: Instant,
                  run: RunId, remaining: nat, batch: nat, asked: set<string>, key: ObjectKey, targets: seq<PollTarget>,
                  at: Instant, now: Instant)
    requires Reached(c, s, actions, t, archive, Ingesting(run, remaining, batch, asked, Keyed(key)), clock)
    requires CanStore(c, After(c, s, actions), targets, at, now)
    ensures Reached(c, s, actions + [Store(targets, at, now)],
                    StorePolls(t, BatchPolls(c, After(c, s, actions), key, targets), at, now, run), archive,
                    Ingesting(run, remaining, batch, asked, Ready), now)
  {
    Extend(c, s, actions, Store(targets, at, now));
  }

  /** Asking what is due moves the clock alone. */
  lemma QueryStep(c: Setting, s: State, now: Instant)
    requires Sound(c, s) && s.process.Ingesting? && s.process.stage == Ready && s.clock <= now
    ensures Legal(c, s, [Query(now)]) && After(c, s, [Query(now)]) == s.(clock := now)
    ensures Sound(c, s.(clock := now))
  {
    Extend(c, s, [], Query(now));
    assert [] + [Query(now)] == [Query(now)];
    SoundKept(c, s, Query(now));
  }

  /** An execution from where another ended is one execution. */
  lemma {:induction false} RunsOn(c: Setting, s: State, first: seq<Action>, rest: seq<Action>)
    requires Legal(c, s, first) && Legal(c, After(c, s, first), rest)
    ensures Legal(c, s, first + rest) && After(c, s, first + rest) == After(c, After(c, s, first), rest)
  {
    if rest == [] {
      assert first + rest == first;
    } else {
      RunsOn(c, s, first, rest[..|rest| - 1]);
      assert (first + rest)[..|first + rest| - 1] == first + rest[..|rest| - 1];
    }
  }
}
