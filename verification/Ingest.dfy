/** One ingest run's price step, as the server performs it. */
module Ingest {
  import opened Domain
  import opened Quotes
  import opened ObjectKeys
  import opened Ledger
  import opened Reading
  import D = Database

  // ---------------------------------------------------------------------------
  // What one run accumulates
  // ---------------------------------------------------------------------------

  /** Every reason a batch degraded the run. */
  datatype Reason =
    | BudgetSpent | BudgetStopped | RateLimited | NotFetched(batch: nat) | NotArchived(batch: nat) | NotStored(batch: nat)
    | WalkStopped(page: nat) | NotParsed(page: nat) | IdentifiersRepointed(count: nat)

  datatype RunStatus = Healthy | Degraded

  class Tally {
    var seen: nat
    var written: nat
    var repeated: nat
    var rejected: nat
    var noPrice: nat
    var requests: nat
    var priceKeys: seq<ObjectKey>
    var degraded: seq<Reason>

    constructor ()
      ensures seen == written == repeated == rejected == noPrice == requests == 0 && priceKeys == [] && degraded == []
    {
      seen, written, repeated, rejected, noPrice, requests := 0, 0, 0, 0, 0, 0;
      priceKeys, degraded := [], [];
    }

    method Degrade(reason: Reason)
      modifies this`degraded
      ensures degraded == old(degraded) + [reason]
    {
      degraded := degraded + [reason];
    }

    /** A run is healthy when nothing degraded it and it did not reject all it saw. */
    function Status(): (r: RunStatus)
      reads this
      ensures r == Healthy <==> degraded == [] && (seen == 0 || rejected != seen)
    {
      if degraded != [] then Degraded
      else if seen > 0 && rejected == seen then Degraded
      else Healthy
    }
  }

  /** The requests one run may still send. */
  class Budget {
    var remaining: U32

    constructor (remaining: U32)
      ensures this.remaining == remaining
    {
      this.remaining := remaining;
    }

    method Take() returns (taken: bool)
      modifies this
      ensures taken <==> old(remaining) > 0
      ensures remaining == old(remaining) - if taken then 1 else 0
    {
      if remaining == 0 {
        return false;
      }
      remaining := remaining - 1;
      taken := true;
    }
  }

  /** The bucket. A put may fail, and may have stored the object all the same. */
  class ObjectStore {
    var objects: map<ObjectKey, Envelope>

    constructor (objects: map<ObjectKey, Envelope>)
      ensures this.objects == objects
    {
      this.objects := objects;
    }

    method Put(key: ObjectKey, envelope: Envelope, acknowledged: bool, stored: bool) returns (done: bool)
      modifies this
      ensures done == acknowledged
      ensures objects == if acknowledged || stored then old(objects)[key := envelope] else old(objects)
    {
      if acknowledged || stored {
        objects := objects[key := envelope];
      }
      done := acknowledged;
    }
  }

  // ---------------------------------------------------------------------------
  // The outside world
  // ---------------------------------------------------------------------------

  datatype FetchResult = Got(body: string) | Throttled | Broken

  /**
   * What the world does with one batch: the provider, the bucket, the database and the
   * clock. `listed` is whether the database answers the query for the batch's targets,
   * `reachable` whether it commits their rows.
   */
  datatype Attempt = Attempt(
    fetch: FetchResult, acknowledged: bool, stored: bool, listed: bool, reachable: bool, at: Instant, now: Instant)

  /** Each batch is stamped after the one before it. */
  ghost predicate ClockRuns(world: nat -> Attempt, from: Instant) {
    && from < world(0).at
    && (forall b: nat :: world(b).at < world(b).now)
    && (forall b: nat :: world(b).now < world(b + 1).at)
  }

  // ---------------------------------------------------------------------------
  // One batch
  // ---------------------------------------------------------------------------

  /** Quotes of pairs the batch did not ask about. */
  function Unasked(targets: seq<PollTarget>, quotes: seq<Quote>): set<nat> {
    set i: nat | i < |quotes| && (forall t :: t in targets ==> TargetKey(t) != KeyOf(quotes[i]))
  }

  /** Quotes whose identifier and platform some target asks about. */
  function Asked(targets: seq<PollTarget>, quotes: seq<Quote>): set<nat> {
    set i: nat | i < |quotes| && IsAsked(targets, quotes[i])
  }

  predicate IsAsked(targets: seq<PollTarget>, q: Quote) {
    exists t :: t in targets && t.externalId == q.externalId && t.platform == q.platform
  }

  /** Every quote of a payload was asked for or is counted as not asked for, and none is both. */
  lemma {:induction false} EveryQuoteIsAskedOrNot(targets: seq<PollTarget>, quotes: seq<Quote>)
    ensures |Asked(targets, quotes)| + |Unasked(targets, quotes)| == |quotes|
    ensures Asked(targets, quotes) !! Unasked(targets, quotes)
  {
    hide IsAsked;
    if quotes != [] {
      var init, i := quotes[..|quotes| - 1], |quotes| - 1;
      EveryQuoteIsAskedOrNot(targets, init);
      AskedGrows(targets, quotes);
      assert quotes[..i] == init && quotes[..i + 1] == quotes;
      UnaskedGrows(targets, quotes, i);
      NotAskedIs(targets, quotes[i]);
    }
    forall i: nat | i < |quotes| {
      NotAskedIs(targets, quotes[i]);
    }
  }

  lemma NotAskedIs(targets: seq<PollTarget>, q: Quote)
    ensures IsAsked(targets, q) <==> !forall t :: t in targets ==> TargetKey(t) != KeyOf(q)
  {
  }

  lemma AskedGrows(targets: seq<PollTarget>, quotes: seq<Quote>)
    requires quotes != []
    ensures var init, i := quotes[..|quotes| - 1], |quotes| - 1;
            |Asked(targets, quotes)| == |Asked(targets, init)| + if IsAsked(targets, quotes[i]) then 1 else 0
  {
    hide IsAsked;
    var init, i := quotes[..|quotes| - 1], |quotes| - 1;
    var more: set<nat> := if IsAsked(targets, quotes[i]) then {i} else {};
    assert Asked(targets, quotes) == Asked(targets, init) + more;
  }

  function WithoutPrice(polls: seq<Poll>): set<nat> {
    set i: nat | i < |polls| && polls[i].result == PollResult.Failed(PollOutcome.NoPrice)
  }

  lemma PollsForPrefix(c: Setting, targets: seq<PollTarget>, quotes: seq<Quote>, startedAt: Instant, i: nat)
    requires i < |targets|
    ensures PollsFor(c, targets[..i + 1], quotes, startedAt)
         == PollsFor(c, targets[..i], quotes, startedAt) + [PollFor(c, targets[i], quotes, startedAt)]
  {
  }

  lemma PricedGrows(polls: seq<Poll>, poll: Poll)
    ensures PricedOf(polls + [poll]) == PricedOf(polls) + (if poll.result.Priced? then [poll.result.observation] else [])
  {
    assert (polls + [poll])[..|polls|] == polls;
  }

  lemma WithoutPriceGrows(polls: seq<Poll>, poll: Poll)
    ensures |WithoutPrice(polls + [poll])|
         == |WithoutPrice(polls)| + if poll.result == PollResult.Failed(PollOutcome.NoPrice) then 1 else 0
  {
    var longer := polls + [poll];
    var gained: set<nat> := if poll.result == PollResult.Failed(PollOutcome.NoPrice) then {|polls|} else {};
    assert forall i :: 0 <= i < |polls| ==> longer[i] == polls[i];
    assert WithoutPrice(longer) == WithoutPrice(polls) + gained;
    assert |polls| !in WithoutPrice(polls);
  }

  /** Reads what came back for one target; a target nothing came back for is read too. */
  method ReadTarget(c: Setting, tally: Tally, target: PollTarget, quotes: seq<Quote>, startedAt: Instant,
                    byKey: map<QuoteKey, Quote>) returns (poll: Poll)
    requires Indexes(byKey, quotes)
    modifies tally`seen, tally`rejected, tally`noPrice
    ensures poll == PollFor(c, target, quotes, startedAt)
    ensures tally.seen == old(tally.seen) + 1
    ensures tally.rejected == old(tally.rejected) + if poll.result.Failed? then 1 else 0
    ensures tally.noPrice
         == old(tally.noPrice) + if poll.result == PollResult.Failed(PollOutcome.NoPrice) then 1 else 0
  {
    tally.seen := tally.seen + 1;
    var key := TargetKey(target);
    assert LastQuote(quotes, key) == if key in byKey then Some(byKey[key]) else None;
    var result, sourceObservedAt;
    if key !in byKey {
      result, sourceObservedAt := PollResult.Failed(PollOutcome.NoPrice), None;
    } else {
      var quote := byKey[key];
      sourceObservedAt := quote.observedAt;
      match Validate(c, target.name, quote, startedAt) {
        case Ok(reading) => result := Priced(ObservationOf(c, target, quote, reading.0, reading.1));
        case Err(why) =>
          result := PollResult.Failed(if why == Rejection.NoPrice then PollOutcome.NoPrice else PollOutcome.Rejected);
      }
    }
    if result.Failed? {
      tally.rejected := tally.rejected + 1;
      if result.outcome.NoPrice? {
        tally.noPrice := tally.noPrice + 1;
      }
    }
    poll := Poll(TargetPair(target), sourceObservedAt, result);
  }

  method ReadTargets(c: Setting, tally: Tally, targets: seq<PollTarget>, quotes: seq<Quote>, startedAt: Instant,
                     byKey: map<QuoteKey, Quote>) returns (polls: seq<Poll>)
    requires Indexes(byKey, quotes)
    modifies tally`seen, tally`rejected, tally`noPrice
    ensures polls == PollsFor(c, targets, quotes, startedAt)
    ensures tally.seen == old(tally.seen) + |targets|
    ensures tally.rejected == old(tally.rejected) + |targets| - |PricedOf(polls)|
    ensures tally.noPrice == old(tally.noPrice) + |WithoutPrice(polls)|
  {
    hide PollFor, Indexes, PricedOf;
    polls := [];
    for i := 0 to |targets|
      invariant polls == PollsFor(c, targets[..i], quotes, startedAt)
      invariant tally.seen == old(tally.seen) + i
      invariant tally.rejected == old(tally.rejected) + i - |PricedOf(polls)|
      invariant tally.noPrice == old(tally.noPrice) + |WithoutPrice(polls)|
    {
      var poll := ReadTarget(c, tally, targets[i], quotes, startedAt, byKey);
      PollsForPrefix(c, targets, quotes, startedAt, i);
      PricedGrows(polls, poll);
      WithoutPriceGrows(polls, poll);
      polls := polls + [poll];
    }
    assert targets[..|targets|] == targets;
  }

  lemma UnaskedGrows(targets: seq<PollTarget>, quotes: seq<Quote>, i: nat)
    requires i < |quotes|
    ensures |Unasked(targets, quotes[..i + 1])|
         == |Unasked(targets, quotes[..i])| + if forall t :: t in targets ==> TargetKey(t) != KeyOf(quotes[i]) then 1 else 0
  {
    var gained: set<nat> := if forall t :: t in targets ==> TargetKey(t) != KeyOf(quotes[i]) then {i} else {};
    assert Unasked(targets, quotes[..i + 1]) == Unasked(targets, quotes[..i]) + gained;
    assert i !in Unasked(targets, quotes[..i]);
  }

  /** Counts the quotes nobody asked for, each a rejection. */
  method CountUnasked(tally: Tally, targets: seq<PollTarget>, quotes: seq<Quote>)
    modifies tally`seen, tally`rejected
    ensures tally.seen == old(tally.seen) + |Unasked(targets, quotes)|
    ensures tally.rejected == old(tally.rejected) + |Unasked(targets, quotes)|
  {
    var asked := set t | t in targets :: TargetKey(t);
    for i := 0 to |quotes|
      invariant tally.seen == old(tally.seen) + |Unasked(targets, quotes[..i])|
      invariant tally.rejected == old(tally.rejected) + |Unasked(targets, quotes[..i])|
    {
      UnaskedGrows(targets, quotes, i);
      if KeyOf(quotes[i]) !in asked {
        assert forall t :: t in targets ==> TargetKey(t) in asked;
        tally.seen, tally.rejected := tally.seen + 1, tally.rejected + 1;
      }
    }
    assert quotes[..|quotes|] == quotes;
  }

  /** Everything the payload says, counted: what was asked, what was not, and what it said twice. */
  method ReadPayload(c: Setting, tally: Tally, targets: seq<PollTarget>, quotes: seq<Quote>, startedAt: Instant)
    returns (polls: seq<Poll>)
    modifies tally`seen, tally`rejected, tally`noPrice
    ensures polls == PollsFor(c, targets, quotes, startedAt)
    ensures tally.seen == old(tally.seen) + |targets| + Extra(targets, quotes)
    ensures tally.rejected == old(tally.rejected) + |targets| - |PricedOf(polls)| + Extra(targets, quotes)
    ensures tally.noPrice == old(tally.noPrice) + |WithoutPrice(polls)|
  {
    var byKey, contradicted := IndexQuotes(quotes);
    polls := ReadTargets(c, tally, targets, quotes, startedAt, byKey);
    CountUnasked(tally, targets, quotes);
    if contradicted > 0 {
      tally.seen, tally.rejected := tally.seen + contradicted, tally.rejected + contradicted;
    }
  }

  /** The records beyond the targets: quotes nobody asked for, and quotes a later one contradicted. */
  function Extra(targets: seq<PollTarget>, quotes: seq<Quote>): nat {
    |Unasked(targets, quotes)| + |Contradictions(quotes)|
  }

  /**
   * Reads a payload for the targets it was asked for and stores the result as one
   * batch. When it does not parse, or the query for its targets fails, nothing is
   * counted either; when it does not commit, no table has changed.
   */
  method IngestBatch(c: Setting, db: D.Database, tally: Tally, run: RunId, startedAt: Instant, requested: seq<string>,
                     envelope: Envelope, attempt: Attempt) returns (ok: bool, targets: seq<PollTarget>)
    modifies db, tally`seen, tally`rejected, tally`noPrice, tally`written, tally`repeated
    ensures c.parse(envelope).Some? && attempt.listed ==> ListsPollTargets(c, old(db.View()), requested, targets)
    ensures !ok ==> db.View() == old(db.View()) && tally.written == old(tally.written) && tally.repeated == old(tally.repeated)
    ensures if c.parse(envelope).None? || !attempt.listed
            then !ok && tally.seen == old(tally.seen) && tally.rejected == old(tally.rejected)
                 && tally.noPrice == old(tally.noPrice)
            else
              var quotes := c.parse(envelope).value;
              var polls := PollsFor(c, targets, quotes, startedAt);
              && (ok <==> attempt.reachable && AllStorable(PricedOf(polls)))
              && tally.seen == old(tally.seen) + |targets| + Extra(targets, quotes)
              && tally.rejected == old(tally.rejected) + |targets| - |PricedOf(polls)| + Extra(targets, quotes)
              && tally.noPrice == old(tally.noPrice) + |WithoutPrice(polls)|
              && (ok ==> db.View() == StorePolls(old(db.View()), polls, attempt.at, attempt.now, run)
                         && tally.written == old(tally.written) + |db.observations| - |old(db.observations)|
                         && tally.written + tally.repeated
                            == old(tally.written) + old(tally.repeated) + |PricedOf(polls)|)
  {
    ok, targets := false, [];
    var parsed := c.parse(envelope);
    if parsed.None? || !attempt.listed {
      return;
    }
    targets := db.PollTargetsFor(c, requested);
    var polls := ReadPayload(c, tally, targets, parsed.value, startedAt);
    var counts := db.WritePolls(polls, attempt.at, attempt.now, run, attempt.reachable);
    ok := counts.Some?;
    if ok {
      tally.written, tally.repeated := tally.written + counts.value.written, tally.repeated + counts.value.repeated;
    }
  }
}
