/** What one archived payload says about the targets it was asked for. */
module Reading {
  import opened Domain
  import opened Quotes
  import opened Ledger

  function TargetKey(target: PollTarget): QuoteKey { QuoteKey(target.externalId, target.platform) }

  function TargetPair(target: PollTarget): Pair { Pair(target.asset, target.market) }

  /** The row an accepted quote becomes, at ingest as at replay. */
  function ObservationOf(c: Setting, target: PollTarget, q: Quote, price: int, at: Instant): Observation {
    Observation(ObsKey(target.asset, target.market, c.source, at, price), Detail(q.minPrice, q.maxPrice, q.externalId))
  }

  /** One asked-about target and what came back for it. */
  function PollFor(c: Setting, target: PollTarget, quotes: seq<Quote>, startedAt: Instant): Poll {
    match LastQuote(quotes, TargetKey(target))
    case None => Poll(TargetPair(target), None, Failed(PollOutcome.NoPrice))
    case Some(q) =>
      match Validate(c, target.name, q, startedAt)
      case Ok(reading) =>
        Poll(TargetPair(target), q.observedAt, Priced(ObservationOf(c, target, q, reading.0, reading.1)))
      case Err(why) =>
        Poll(TargetPair(target), q.observedAt,
             Failed(if why == Rejection.NoPrice then PollOutcome.NoPrice else PollOutcome.Rejected))
  }

  function PollsFor(c: Setting, targets: seq<PollTarget>, quotes: seq<Quote>, startedAt: Instant): (polls: seq<Poll>)
    ensures |polls| == |targets|
    ensures forall i :: 0 <= i < |targets| ==> polls[i] == PollFor(c, targets[i], quotes, startedAt)
  {
    seq(|targets|, i requires 0 <= i < |targets| => PollFor(c, targets[i], quotes, startedAt))
  }

  /** The observations one payload yields: what ingest stores for it, and what a replay writes again. */
  function Readings(c: Setting, targets: seq<PollTarget>, quotes: seq<Quote>, startedAt: Instant): seq<Observation> {
    PricedOf(PollsFor(c, targets, quotes, startedAt))
  }

  /** Column by column, the row is of the target and says what the quote says. */
  predicate Says(c: Setting, target: PollTarget, q: Quote, o: Observation) {
    && o.key.asset == target.asset && o.key.market == target.market && o.key.source == c.source
    && q.price == Some(o.key.price) && q.observedAt == Some(o.key.observedAt)
    && o.detail.minPrice == q.minPrice && o.detail.maxPrice == q.maxPrice && o.detail.sourceRef == q.externalId
  }

  /** The target reads the row from the payload, name rule aside: the last quote of its key meets the rules and says it. */
  predicate ReadsAs(c: Setting, target: PollTarget, quotes: seq<Quote>, startedAt: Instant, o: Observation) {
    && var q := LastQuote(quotes, TargetKey(target));
    && q.Some?
    && NumbersHold(q.value, c.releasedAt, startedAt)
    && Says(c, target, q.value, o)
  }

  predicate NameHolds(c: Setting, target: PollTarget, quotes: seq<Quote>) {
    var q := LastQuote(quotes, TargetKey(target));
    q.Some? ==> NameAgrees(c.fold, q.value, target.name)
  }

  lemma PollForReads(c: Setting, target: PollTarget, quotes: seq<Quote>, startedAt: Instant)
    ensures var poll := PollFor(c, target, quotes, startedAt);
            && poll.pair == TargetPair(target)
            && (poll.result.Failed? ==> !Succeeded(poll.result.outcome))
            && (forall o :: poll.result == Priced(o) <==>
                  ReadsAs(c, target, quotes, startedAt, o) && NameHolds(c, target, quotes))
  {
  }

  /**
   * What one poll reports. A price exactly when the last quote of the target's identifier
   * and platform states a name consistent with the one held, a positive price and an
   * instant in range; no price exactly when there is no such quote, or only its price is
   * missing so far; and a rejection otherwise. The source's own instant is kept whatever
   * the verdict.
   */
  lemma PollForReports(c: Setting, target: PollTarget, quotes: seq<Quote>, startedAt: Instant)
    ensures var poll, q := PollFor(c, target, quotes, startedAt),
                           LastQuote(quotes, QuoteKey(target.externalId, target.platform));
            var misnamed := q.Some? && q.value.name.Some? && c.fold(target.name) != ""
                            && c.fold(q.value.name.value) != c.fold(target.name);
            var priced := q.Some? && q.value.price.Some? && q.value.price.value > 0;
            var timely := q.Some? && q.value.observedAt.Some?
                          && c.releasedAt <= q.value.observedAt.value && q.value.observedAt.value - startedAt <= 300_000_000;
            && poll.pair == Pair(target.asset, target.market)
            && poll.sourceObservedAt == (if q.Some? then q.value.observedAt else None)
            && (poll.result.Priced? <==> priced && timely && !misnamed)
            && (poll.result == Failed(PollOutcome.NoPrice) <==> !priced && !misnamed)
            && (poll.result == Failed(PollOutcome.Rejected) <==> misnamed || (priced && !timely))
  {
  }

  /** A payload yields exactly the observations its targets read under all three rules. */
  lemma ReadingsAre(c: Setting, targets: seq<PollTarget>, quotes: seq<Quote>, startedAt: Instant)
    ensures forall o :: o in Readings(c, targets, quotes, startedAt) <==>
              exists target :: target in targets && ReadsAs(c, target, quotes, startedAt, o) && NameHolds(c, target, quotes)
  {
    var polls := PollsFor(c, targets, quotes, startedAt);
    PricedOfMembers(polls);
    forall i | 0 <= i < |targets| {
      PollForReads(c, targets[i], quotes, startedAt);
    }
    forall o | o in PricedOf(polls)
      ensures exists target :: target in targets && ReadsAs(c, target, quotes, startedAt, o) && NameHolds(c, target, quotes)
    {
      var i :| 0 <= i < |polls| && polls[i].result == Priced(o);
      assert targets[i] in targets;
    }
    forall o, target | target in targets && ReadsAs(c, target, quotes, startedAt, o) && NameHolds(c, target, quotes)
      ensures o in PricedOf(polls)
    {
      var i :| 0 <= i < |targets| && targets[i] == target;
      assert polls[i].result == Priced(o);
    }
  }

  /** Targets with distinct pairs give a well-formed batch. */
  lemma PollsAreWellFormed(c: Setting, targets: seq<PollTarget>, quotes: seq<Quote>, startedAt: Instant)
    requires forall i, j :: 0 <= i < j < |targets| ==> TargetPair(targets[i]) != TargetPair(targets[j])
    ensures WellFormedPolls(PollsFor(c, targets, quotes, startedAt))
  {
    forall i | 0 <= i < |targets| {
      PollForReads(c, targets[i], quotes, startedAt);
    }
  }

  /** Quotes of keys nobody asked about cannot change any poll of the batch. */
  lemma OnlyAskedKeysMatter(c: Setting, targets: seq<PollTarget>, quotes: seq<Quote>, others: seq<Quote>, startedAt: Instant)
    requires forall i :: 0 <= i < |targets| ==>
               ForKey(quotes, TargetKey(targets[i])) == ForKey(others, TargetKey(targets[i]))
    ensures PollsFor(c, targets, quotes, startedAt) == PollsFor(c, targets, others, startedAt)
  {
    forall i | 0 <= i < |targets| {
      OtherKeysDoNotMatter(quotes, others, TargetKey(targets[i]));
    }
  }

  /** A payload that states each key once yields the same batch in any order. */
  lemma PayloadOrderDoesNotMatter(c: Setting, targets: seq<PollTarget>, quotes: seq<Quote>, permuted: seq<Quote>,
                                  startedAt: Instant)
    requires DistinctKeys(quotes) && multiset(quotes) == multiset(permuted)
    ensures PollsFor(c, targets, quotes, startedAt) == PollsFor(c, targets, permuted, startedAt)
  {
    OrderDoesNotMatter(quotes, permuted);
  }
}
