/** Replaying a run: its payloads read again, its rows replaced by what they say now. */
module Replay {
  import opened Domain
  import opened Quotes
  import opened ObjectKeys
  import opened Ledger
  import opened Reading
  import opened Machine
  import opened Ingest
  import D = Database

  datatype Report = Report(deleted: nat, rewritten: nat)

  lemma ReadingsPrefix(c: Setting, targets: seq<PollTarget>, quotes: seq<Quote>, startedAt: Instant, i: nat)
    requires i < |targets|
    ensures var poll := PollFor(c, targets[i], quotes, startedAt);
            Readings(c, targets[..i + 1], quotes, startedAt)
            == Readings(c, targets[..i], quotes, startedAt)
               + if poll.result.Priced? then [poll.result.observation] else []
  {
    PollsForPrefix(c, targets, quotes, startedAt, i);
    PricedGrows(PollsFor(c, targets[..i], quotes, startedAt), PollFor(c, targets[i], quotes, startedAt));
  }

  /** What one target reads from the payload; a target without a quote is passed over. */
  method ReadTargetAgain(c: Setting, target: PollTarget, quotes: seq<Quote>, startedAt: Instant, byKey: map<QuoteKey, Quote>)
    returns (read: seq<Observation>)
    requires Indexes(byKey, quotes)
    ensures var poll := PollFor(c, target, quotes, startedAt);
            read == if poll.result.Priced? then [poll.result.observation] else []
  {
    var key := TargetKey(target);
    assert LastQuote(quotes, key) == if key in byKey then Some(byKey[key]) else None;
    read := [];
    if key in byKey {
      match Validate(c, target.name, byKey[key], startedAt)
      case Ok(reading) => read := [ObservationOf(c, target, byKey[key], reading.0, reading.1)];
      case Err(_) =>
    }
  }

  /** The observations of one payload. */
  method ReadPayloadAgain(c: Setting, targets: seq<PollTarget>, quotes: seq<Quote>, startedAt: Instant)
    returns (os: seq<Observation>)
    ensures os == Readings(c, targets, quotes, startedAt)
  {
    var byKey, _ := IndexQuotes(quotes);
    os := [];
    for i := 0 to |targets|
      invariant os == Readings(c, targets[..i], quotes, startedAt)
    {
      ReadingsPrefix(c, targets, quotes, startedAt, i);
      var read := ReadTargetAgain(c, targets[i], quotes, startedAt, byKey);
      os := os + read;
    }
    assert targets[..|targets|] == targets;
  }

  predicate AllParse(c: Setting, archive: map<ObjectKey, Envelope>, keys: seq<ObjectKey>) {
    forall key :: key in keys ==> QuotesAt(c, archive, key).Some?
  }

  /** The bucket and the database answer for each of the first n payloads. */
  predicate AllAnswer(answers: nat -> bool, n: nat) { forall i :: 0 <= i < n ==> answers(i) }

  /**
   * Reads and parses every payload before anything is deleted. None when one is missing,
   * cannot be read just now or does not parse, or its targets cannot be listed.
   */
  method ReadPayloads(c: Setting, db: D.Database, store: ObjectStore, keys: seq<ObjectKey>, startedAt: Instant,
                      answers: nat -> bool)
    returns (os: Option<seq<Observation>>, listings: seq<seq<PollTarget>>)
    ensures os.Some? <==> AllParse(c, store.objects, keys) && AllAnswer(answers, |keys|)
    ensures os.Some? ==> ListsEachPayload(c, db.View(), store.objects, keys, listings)
                         && os.value == ReplayReadings(c, store.objects, keys, listings, startedAt)
  {
    var read := [];
    listings := [];
    for i := 0 to |keys|
      invariant AllParse(c, store.objects, keys[..i]) && AllAnswer(answers, i)
      invariant ListsEachPayload(c, db.View(), store.objects, keys[..i], listings)
      invariant read == ReplayReadings(c, store.objects, keys[..i], listings, startedAt)
    {
      var quotes := QuotesAt(c, store.objects, keys[i]);
      if quotes.None? || !answers(i) {
        return None, [];
      }
      var targets := db.ResolveTargets(c, store.objects[keys[i]].requestedIds);
      var more := ReadPayloadAgain(c, targets, quotes.value, startedAt);
      assert keys[..i + 1][..i] == keys[..i] && (listings + [targets])[..i] == listings;
      read, listings := read + more, listings + [targets];
    }
    assert keys[..|keys|] == keys;
    os := Some(read);
  }

  /** The run is on record with payloads, and every one of them is archived, can be read now and parses. */
  predicate CanBeRead(c: Setting, runs: map<RunId, Run>, archive: map<ObjectKey, Envelope>, original: RunId,
                      answers: nat -> bool) {
    && original in runs && runs[original].priceKeys != []
    && AllParse(c, archive, runs[original].priceKeys) && AllAnswer(answers, |runs[original].priceKeys|)
  }

  /**
   * Replays one run. Its rows are swapped exactly when the run recorded payloads, every
   * one of them can be read and parses, every reading satisfies the constraints of the
   * table, the database commits, and the rewrite would not erase rows while writing
   * none. Otherwise not one observation changes. It never writes a poll. It reports
   * success exactly when the close that follows goes through as well: a close that fails
   * leaves the rows swapped and their run without keys, so no replay can be opened on it
   * again (`StrandedRows.ReplayableIff`), as if it had been killed there.
   */
  method ReplayRun(c: Setting, db: D.Database, store: ObjectStore, original: RunId, replacement: RunId,
                   openedAt: Instant, now: Instant, answers: nat -> bool, reachable: bool, closes: bool)
    returns (report: Option<Report>, listings: seq<seq<PollTarget>>, swapped: bool)
    requires replacement !in db.runs
    modifies db`observations, db`runs
    ensures swapped ==> CanBeRead(c, old(db.runs), store.objects, original, answers)
    ensures CanBeRead(c, old(db.runs), store.objects, original, answers) ==>
              var run := old(db.runs)[original];
              && ListsEachPayload(c, old(db.View()), store.objects, run.priceKeys, listings)
              && var os := ReplayReadings(c, store.objects, run.priceKeys, listings, run.startedAt);
              && (swapped <==> reachable && AllStorable(os)
                               && !Refused(old(db.observations), original, replacement, os, now))
              && (swapped ==> db.observations == Swapped(old(db.observations), original, replacement, os, now))
              && (report.Some? ==>
                    && report.value.deleted == DeletedCount(old(db.observations), original)
                    && report.value.rewritten == WrittenCount(old(db.observations), original, replacement, os, now))
    ensures report.Some? <==> swapped && closes
    ensures !swapped ==> db.observations == old(db.observations)
    ensures db.runs == if original !in old(db.runs) || old(db.runs)[original].priceKeys == [] then old(db.runs)
                       else old(db.runs)[replacement :=
                              Run(openedAt, 0, if report.Some? then old(db.runs)[original].priceKeys else [])]
  {
    report, listings, swapped := None, [], false;
    if original !in db.runs || db.runs[original].priceKeys == [] {
      return;
    }
    var run := db.runs[original];
    ghost var before := db.View();
    db.OpenRun(replacement, openedAt);
    var os;
    os, listings := ReadPayloads(c, db, store, run.priceKeys, run.startedAt, answers);
    if os.None? {
      return;
    }
    ListingIgnoresRuns(c, before, db.View(), store.objects, run.priceKeys, listings);
    var counts := db.ReplaceRunObservations(original, replacement, os.value, now, reachable);
    swapped := counts.Some?;
    if swapped && closes {
      db.CloseReplacement(replacement, run.priceKeys);
      report := Some(Report(counts.value.0, counts.value.1));
    }
  }

  lemma ListingIgnoresRuns(c: Setting, t: Tables, t': Tables, archive: map<ObjectKey, Envelope>, keys: seq<ObjectKey>,
                           listings: seq<seq<PollTarget>>)
    requires t'.assets == t.assets && t'.sourceIds == t.sourceIds && t'.markets == t.markets
    requires ListsEachPayload(c, t', archive, keys, listings)
    ensures ListsEachPayload(c, t, archive, keys, listings)
  {
    forall i | 0 <= i < |keys|
      ensures ListsResolved(c, t, IdsAt(archive, keys[i]), listings[i])
    {
      assert forall x :: IsResolved(c, t', IdsAt(archive, keys[i]), x) == IsResolved(c, t, IdsAt(archive, keys[i]), x);
    }
  }

  lemma OpeningAReplay(c: Setting, s: State, original: RunId, replacement: RunId, openedAt: Instant)
    requires s.process == Idle && original in s.t.runs && s.t.runs[original].priceKeys != []
    requires replacement !in s.t.runs && s.clock < openedAt
    ensures var began := After(c, s, [OpenReplay(original, replacement, openedAt)]);
            && Legal(c, s, [OpenReplay(original, replacement, openedAt)])
            && began.t == s.t.(runs := s.t.runs[replacement := Run(openedAt, 0, [])])
            && began.archive == s.archive && began.clock == openedAt
            && began.process == Replaying(original, replacement, false)
  {
    var open := OpenReplay(original, replacement, openedAt);
    Extend(c, s, [], open);
    assert [] + [open] == [open];
  }

  /** A replay that swapped is three actions of the machine: open, swap, and close, or crash when the close failed. */
  lemma ReplayIsAnExecution(c: Setting, s: State, original: RunId, replacement: RunId, openedAt: Instant, now: Instant,
                            listings: seq<seq<PollTarget>>, closes: bool)
    requires s.process == Idle && original in s.t.runs && s.t.runs[original].priceKeys != []
    requires replacement !in s.t.runs && s.clock < openedAt < now
    requires ListsEachPayload(c, s.t, s.archive, s.t.runs[original].priceKeys, listings)
    requires var os := ReplayReadings(c, s.archive, s.t.runs[original].priceKeys, listings, s.t.runs[original].startedAt);
             AllStorable(os) && !Refused(s.t.observations, original, replacement, os, now)
    ensures var actions := [OpenReplay(original, replacement, openedAt)] + [Swap(listings, now)]
                           + [if closes then CloseReplay else Crash];
            var run := s.t.runs[original];
            var os := ReplayReadings(c, s.archive, run.priceKeys, listings, run.startedAt);
            && Legal(c, s, actions)
            && After(c, s, actions).t
               == s.t.(observations := Swapped(s.t.observations, original, replacement, os, now),
                       runs := s.t.runs[replacement := Run(openedAt, 0, if closes then run.priceKeys else [])])
            && After(c, s, actions).process == Idle
  {
    var open := OpenReplay(original, replacement, openedAt);
    OpeningAReplay(c, s, original, replacement, openedAt);
    ListingIgnoresRuns(c, After(c, s, [open]).t, s.t, s.archive, s.t.runs[original].priceKeys, listings);
    Extend(c, s, [open], Swap(listings, now));
    Extend(c, s, [open] + [Swap(listings, now)], if closes then CloseReplay else Crash);
  }
}
