/** Terms used throughout, and the three rules a quote has to meet. */
module Domain {

  datatype Option<+T> = None | Some(value: T)

  datatype Result<+T, +E> = Ok(value: T) | Err(error: E)

  // ---------------------------------------------------------------------------
  // Time
  // ---------------------------------------------------------------------------

  /** Microseconds since the Unix epoch, UTC: the resolution of TIMESTAMPTZ. */
  type Instant = int

  const SECOND: int := 1_000_000
  const DAY: int := 86_400 * SECOND

  /** The number of the UTC day an instant falls in. Dafny's `/` floors for a positive divisor. */
  function DayOf(t: Instant): int { t / DAY }

  /** NULLS FIRST: what never happened is earliest. */
  predicate Earlier(a: Option<Instant>, b: Option<Instant>) {
    b.Some? && (a.Some? ==> a.value < b.value)
  }

  // ---------------------------------------------------------------------------
  // Identifiers and rows
  // ---------------------------------------------------------------------------

  /** An unsigned 32-bit integer. */
  type U32 = n: nat | n < 0x1_0000_0000

  type AssetId = nat
  type MarketId = nat
  type GameId = nat

  /** A run is named by the text of its UUID, which is always 36 characters long. */
  type RunId = s: string | |s| == 36 witness seq(36, i => '0')

  datatype Platform = Playstation | Pc

  /** One market row is identified by an asset on a platform's market. */
  datatype Pair = Pair(asset: AssetId, market: MarketId)

  datatype Rarity = Common | Rare

  datatype Asset = Asset(
    game: GameId, name: string, rating: Option<int>, rarity: Rarity, version: string, lastSeen: Option<Instant>)

  datatype Market = Market(game: GameId, platform: Platform)

  /** One provider quote after conversion. Any field the provider omits is None. */
  datatype Quote = Quote(
    externalId: string, platform: Platform, price: Option<int>, minPrice: Option<int>, maxPrice: Option<int>,
    observedAt: Option<Instant>, name: Option<string>)

  /** The archived payload: the response body, and the identifiers it was asked for. */
  datatype Envelope = Envelope(requestedIds: seq<string>, body: string)

  /**
   * What stays fixed while a ledger runs: which provider and game, how a body is
   * parsed (None is a parse error), and how a name is folded for comparison.
   */
  datatype Setting = Setting(
    source: string, game: GameId, releasedAt: Instant, dailyBudget: U32,
    parse: Envelope -> Option<seq<Quote>>, fold: string -> string)

  /** What a request is made for: a pair, with the provider's name for its card and the name we hold. */
  datatype PollTarget = PollTarget(
    asset: AssetId, market: MarketId, externalId: string, platform: Platform, name: string)

  // ---------------------------------------------------------------------------
  // Polling tiers and the trust window
  // ---------------------------------------------------------------------------

  const BASE_VERSION: string := "base"
  const UPSTREAM_REFRESH_SECONDS: int := 86_400
  const SLOWEST_POLL_INTERVAL_SECONDS: int := 3 * UPSTREAM_REFRESH_SECONDS
  const TRUSTED_PRICE_MAX_AGE_SECONDS: int := 2 * SLOWEST_POLL_INTERVAL_SECONDS

  /** A promotion, or a rating of 75 and above, earns a daily read. */
  function PollIntervalSeconds(version: string, rating: Option<int>): (seconds: int)
    ensures 0 < seconds <= SLOWEST_POLL_INTERVAL_SECONDS
    ensures seconds + SLOWEST_POLL_INTERVAL_SECONDS <= TRUSTED_PRICE_MAX_AGE_SECONDS
  {
    if version != BASE_VERSION || (rating.Some? && rating.value >= 75) then UPSTREAM_REFRESH_SECONDS
    else SLOWEST_POLL_INTERVAL_SECONDS
  }

  // ---------------------------------------------------------------------------
  // The validation rules
  // ---------------------------------------------------------------------------

  datatype Rejection = MissingTimestamp | TimestampOutOfRange | IdentityMismatch | NoPrice

  /** Rule 1: the two names fold alike, or we hold no name to defend. */
  predicate NameIsConsistent(fold: string -> string, payload: string, resolved: string) {
    fold(resolved) == "" || fold(payload) == fold(resolved)
  }

  predicate NameAgrees(fold: string -> string, q: Quote, resolved: string) {
    q.name.Some? ==> NameIsConsistent(fold, q.name.value, resolved)
  }

  /** Rule 2: within the game's life and at most five minutes past the run's own start. */
  predicate TimestampInRange(observedAt: Instant, releasedAt: Instant, startedAt: Instant) {
    releasedAt <= observedAt <= startedAt + 300 * SECOND
  }

  /** Rules 2 and 3 and the price check: everything but the name. */
  predicate NumbersHold(q: Quote, releasedAt: Instant, startedAt: Instant) {
    && q.price.Some? && q.price.value > 0
    && q.observedAt.Some? && TimestampInRange(q.observedAt.value, releasedAt, startedAt)
  }

  /** The rules in the order the run applies them; the first that fails is the reason. */
  function Validate(c: Setting, name: string, q: Quote, startedAt: Instant): (r: Result<(int, Instant), Rejection>)
    ensures r.Ok? <==> NameAgrees(c.fold, q, name) && NumbersHold(q, c.releasedAt, startedAt)
    ensures r.Ok? <==>
              && (q.name.Some? && c.fold(name) != "" ==> c.fold(q.name.value) == c.fold(name))
              && q.price.Some? && q.price.value > 0
              && q.observedAt.Some? && c.releasedAt <= q.observedAt.value <= startedAt + 300_000_000
    ensures r.Ok? ==> q.price == Some(r.value.0) && q.observedAt == Some(r.value.1)
    ensures r == Err(IdentityMismatch) <==> !NameAgrees(c.fold, q, name)
    ensures r == Err(NoPrice) <==>
            NameAgrees(c.fold, q, name) && !(q.price.Some? && q.price.value > 0)
  {
    if q.name.Some? && !NameIsConsistent(c.fold, q.name.value, name) then Err(IdentityMismatch)
    else if q.price.None? || q.price.value <= 0 then Err(NoPrice)
    else if q.observedAt.None? then Err(MissingTimestamp)
    else if !TimestampInRange(q.observedAt.value, c.releasedAt, startedAt) then Err(TimestampOutOfRange)
    else Ok((q.price.value, q.observedAt.value))
  }

  /** A later start accepts everything an earlier start accepted, with the same result. */
  lemma LaterStartAccepts(c: Setting, name: string, q: Quote, early: Instant, late: Instant)
    requires early <= late && Validate(c, name, q, early).Ok?
    ensures Validate(c, name, q, late) == Validate(c, name, q, early)
  {
  }
}
