/** Which identifiers a run reads, and how long one that is due can be made to wait. */
module Scheduler {
  import opened Domain
  import opened Ledger
  import opened Sets
  import opened Bookkeeping

  const MAX_FAILURE_BACKOFF: int := 8

  // ---------------------------------------------------------------------------
  // due_external_ids
  // ---------------------------------------------------------------------------

  /** LEAST(consecutive_failures + 1, 8): a failing row is retried more slowly, never never. */
  function Backoff(failures: nat): int { if failures + 1 < MAX_FAILURE_BACKOFF then failures + 1 else MAX_FAILURE_BACKOFF }

  predicate RowDue(row: PollState, now: Instant) {
    row.lastPolled.Some? ==> row.lastPolled.value + row.intervalSeconds * Backoff(row.failures) * SECOND <= now
  }

  /**
   * A row is never due before its interval has passed, is due after eight of them
   * however often it has failed, and one more failure never makes it due sooner.
   */
  lemma BackoffIsBounded(row: PollState, now: Instant)
    requires row.lastPolled.Some? && row.intervalSeconds > 0
    ensures RowDue(row, now) ==> row.lastPolled.value + row.intervalSeconds * SECOND <= now
    ensures row.lastPolled.value + row.intervalSeconds * MAX_FAILURE_BACKOFF * SECOND <= now ==> RowDue(row, now)
    ensures RowDue(row.(failures := row.failures + 1), now) ==> RowDue(row, now)
    ensures row.failures == 0 && row.lastPolled.value + row.intervalSeconds * SECOND <= now ==> RowDue(row, now)
  {
    var more := row.(failures := row.failures + 1);
    assert Backoff(0) == 1;
    Slower(row.intervalSeconds, 1, Backoff(row.failures));
    Slower(row.intervalSeconds, Backoff(row.failures), MAX_FAILURE_BACKOFF);
    Slower(row.intervalSeconds, Backoff(row.failures), Backoff(more.failures));
  }

  /**
   * When a row is due: always before its first read; after up to seven failures once one
   * interval more than it has failures has passed since its last; and from then on once
   * eight have.
   */
  lemma RowDueIff(row: PollState, now: Instant)
    ensures row.lastPolled.None? ==> RowDue(row, now)
    ensures row.lastPolled.Some? && row.failures <= 7 ==>
              (RowDue(row, now) <==> row.lastPolled.value + row.intervalSeconds * (row.failures + 1) * 1_000_000 <= now)
    ensures row.lastPolled.Some? && row.failures >= 7 ==>
              (RowDue(row, now) <==> row.lastPolled.value + row.intervalSeconds * 8 * 1_000_000 <= now)
  {
  }

  /** The query asks for an identifier exactly when some row of its card is unread or has waited out its failures. */
  lemma DueIdsAre(c: Setting, t: Tables, now: Instant, id: string)
    ensures id in DueIds(c, t, now) <==>
              && SourceKey(c.game, c.source, id) in t.sourceIds
              && var asset := t.sourceIds[SourceKey(c.game, c.source, id)];
              && asset in t.assets && t.assets[asset].game == c.game
              && exists p :: p in t.schedule && p.asset == asset
                             && (t.schedule[p].lastPolled.Some? ==>
                                   var waits := if t.schedule[p].failures < 7 then t.schedule[p].failures + 1 else 8;
                                   t.schedule[p].lastPolled.value + t.schedule[p].intervalSeconds * waits * 1_000_000 <= now)
  {
    hide RowDue;
    forall p | p in t.schedule {
      RowDueIff(t.schedule[p], now);
    }
    var k := SourceKey(c.game, c.source, id);
    if id in Roster(c, t) {
      var key :| key in t.sourceIds && key.game == c.game && key.source == c.source && key.externalId == id;
      assert key == k;
    }
    if k in t.sourceIds && RowsOf(c, t, id) != {} {
      assert id in Roster(c, t);
    }
    assert forall p :: p in RowsOf(c, t, id) <==> p in t.schedule && Maps(c, t, id, p.asset) && t.assets[p.asset].game == c.game;
  }

  lemma Slower(interval: int, few: int, many: int)
    requires interval > 0 && few <= many
    ensures interval * few * SECOND <= interval * many * SECOND
  {
    assert interval * many == interval * few + interval * (many - few);
  }

  /** The schedule rows one identifier's request reads. */
  function RowsOf(c: Setting, t: Tables, id: string): set<Pair> {
    set p | p in t.schedule && Maps(c, t, id, p.asset) && t.assets[p.asset].game == c.game
  }

  /** The identifiers on the schedule. */
  function Roster(c: Setting, t: Tables): set<string> {
    set k | k in t.sourceIds && k.game == c.game && k.source == c.source && RowsOf(c, t, k.externalId) != {} :: k.externalId
  }

  predicate IsDue(c: Setting, t: Tables, id: string, now: Instant) {
    exists p :: p in RowsOf(c, t, id) && RowDue(t.schedule[p], now)
  }

  function DueIds(c: Setting, t: Tables, now: Instant): set<string> {
    set id | id in Roster(c, t) && IsDue(c, t, id, now)
  }

  /** The oldest due row of y is strictly older than every due row of x: the order outside the DISTINCT ON. */
  predicate Precedes(c: Setting, t: Tables, now: Instant, y: string, x: string) {
    exists p :: p in RowsOf(c, t, y) && RowDue(t.schedule[p], now)
                && forall q :: q in RowsOf(c, t, x) && RowDue(t.schedule[q], now) ==>
                     Earlier(t.schedule[p].lastPolled, t.schedule[q].lastPolled)
  }

  /** A list the query may return: due identifiers, oldest first, as many as the limit allows; ties in any order. */
  ghost predicate IsDueSelection(c: Setting, t: Tables, now: Instant, limit: nat, selected: seq<string>) {
    && NoDuplicates(selected)
    && (forall id :: id in selected ==> id in DueIds(c, t, now))
    && |selected| == (if limit < |DueIds(c, t, now)| then limit else |DueIds(c, t, now)|)
    && InOrder(c, t, now, selected)
    && (forall x, y :: x in selected && y in DueIds(c, t, now) && y !in selected ==> !Precedes(c, t, now, y, x))
  }

  /** An identifier that is read has some due row, unread or read no later than a given reading. */
  predicate ReadNoLater(c: Setting, t: Tables, now: Instant, x: string, last: Option<Instant>) {
    exists q :: q in RowsOf(c, t, x) && RowDue(t.schedule[q], now)
                && (t.schedule[q].lastPolled.None?
                    || (last.Some? && t.schedule[q].lastPolled.value <= last.value))
  }

  /**
   * The order of the answer on the rows. Against each due row of a later identifier, or of
   * one left out, an earlier identifier has a due row that is unread or was read no later.
   */
  lemma OldestFirst(c: Setting, t: Tables, now: Instant, limit: nat, selected: seq<string>, y: string, p: Pair)
    requires IsDueSelection(c, t, now, limit, selected)
    requires y in DueIds(c, t, now) && p in RowsOf(c, t, y) && RowDue(t.schedule[p], now)
    ensures forall i, j :: 0 <= i < j < |selected| && selected[j] == y ==>
              ReadNoLater(c, t, now, selected[i], t.schedule[p].lastPolled)
    ensures y !in selected ==> forall x :: x in selected ==> ReadNoLater(c, t, now, x, t.schedule[p].lastPolled)
  {
    hide RowDue, Roster;
    forall x | x in selected && !Precedes(c, t, now, y, x)
      ensures ReadNoLater(c, t, now, x, t.schedule[p].lastPolled)
    {
      var q :| q in RowsOf(c, t, x) && RowDue(t.schedule[q], now)
               && !Earlier(t.schedule[p].lastPolled, t.schedule[q].lastPolled);
    }
    forall i, j | 0 <= i < j < |selected| && selected[j] == y
      ensures ReadNoLater(c, t, now, selected[i], t.schedule[p].lastPolled)
    {
      assert selected[i] in selected && !Precedes(c, t, now, selected[j], selected[i]);
    }
  }

  lemma PrecedesIsTransitive(c: Setting, t: Tables, now: Instant, x: string, y: string, z: string)
    requires Precedes(c, t, now, x, y) && Precedes(c, t, now, y, z)
    ensures Precedes(c, t, now, x, z)
  {
    var p :| p in RowsOf(c, t, x) && RowDue(t.schedule[p], now)
             && forall q :: q in RowsOf(c, t, y) && RowDue(t.schedule[q], now) ==>
                  Earlier(t.schedule[p].lastPolled, t.schedule[q].lastPolled);
    var r :| r in RowsOf(c, t, y) && RowDue(t.schedule[r], now)
             && forall q :: q in RowsOf(c, t, z) && RowDue(t.schedule[q], now) ==>
                  Earlier(t.schedule[r].lastPolled, t.schedule[q].lastPolled);
    assert Earlier(t.schedule[p].lastPolled, t.schedule[r].lastPolled);
  }

  lemma PrecedesIsIrreflexive(c: Setting, t: Tables, now: Instant, x: string)
    ensures !Precedes(c, t, now, x, x)
  {
  }

  // Drawing a selection one identifier at a time.

  ghost predicate NonePrecedes(c: Setting, t: Tables, now: Instant, ids: set<string>, x: string) {
    forall y :: y in ids ==> !Precedes(c, t, now, y, x)
  }

  ghost predicate InOrder(c: Setting, t: Tables, now: Instant, selected: seq<string>) {
    forall i, j :: 0 <= i < j < |selected| ==> !Precedes(c, t, now, selected[j], selected[i])
  }

  ghost predicate NonePrecedesAny(c: Setting, t: Tables, now: Instant, ids: set<string>, selected: seq<string>) {
    forall x :: x in selected ==> NonePrecedes(c, t, now, ids, x)
  }

  /** `selected` was drawn from `due` in order, `left` is the rest, and nothing left precedes anything drawn. */
  ghost predicate Drawn(c: Setting, t: Tables, now: Instant, due: set<string>, left: set<string>, selected: seq<string>) {
    && left <= due && NoDuplicates(selected) && |selected| + |left| == |due|
    && (forall x :: x in selected <==> x in due && x !in left)
    && InOrder(c, t, now, selected) && NonePrecedesAny(c, t, now, left, selected)
  }

  lemma DrawnAtFirst(c: Setting, t: Tables, now: Instant, due: set<string>)
    ensures Drawn(c, t, now, due, due, [])
  {
  }

  lemma DrawNext(c: Setting, t: Tables, now: Instant, due: set<string>, left: set<string>, selected: seq<string>, x: string)
    requires Drawn(c, t, now, due, left, selected) && x in left && NonePrecedes(c, t, now, left, x)
    ensures Drawn(c, t, now, due, left - {x}, selected + [x])
  {
    var longer := selected + [x];
    forall i, j | 0 <= i < j < |longer|
      ensures !Precedes(c, t, now, longer[j], longer[i]) && longer[i] != longer[j]
    {
      assert longer[i] in selected;
      assert NonePrecedes(c, t, now, left, longer[i]);
    }
    forall y | y in longer
      ensures NonePrecedes(c, t, now, left - {x}, y)
    {
      assert y in selected || y == x;
    }
  }

  lemma DrawnIsASelection(c: Setting, t: Tables, now: Instant, limit: nat, left: set<string>, selected: seq<string>)
    requires Drawn(c, t, now, DueIds(c, t, now), left, selected) && |selected| <= limit
    requires left == {} || |selected| == limit
    ensures IsDueSelection(c, t, now, limit, selected)
  {
    forall x, y | x in selected && y in DueIds(c, t, now) && y !in selected
      ensures !Precedes(c, t, now, y, x)
    {
      assert NonePrecedes(c, t, now, left, x);
    }
  }

  // ---------------------------------------------------------------------------
  // Rounds
  // ---------------------------------------------------------------------------

  /** One pass over the due identifiers: asked at one instant, over by another. */
  datatype Round = Round(askedAt: Instant, endedAt: Instant, limit: nat, selected: seq<string>)

  /** The schedule keeps its rows and intervals, and every identifier reads the rows it read. */
  ghost predicate SameRoster(c: Setting, t: Tables, t': Tables) {
    && t'.schedule.Keys == t.schedule.Keys
    && (forall p :: p in t.schedule ==> t'.schedule[p].intervalSeconds == t.schedule[p].intervalSeconds)
    && forall id :: RowsOf(c, t', id) == RowsOf(c, t, id)
  }

  /** No row is read for two identifiers. */
  ghost predicate RowsApart(c: Setting, t: Tables) {
    forall x, y, p :: p in RowsOf(c, t, x) && p in RowsOf(c, t, y) ==> x == y
  }

  /** The query answered, and every row of every selected identifier was read, well or badly; no other row moved. */
  ghost predicate IsRound(c: Setting, t: Tables, t': Tables, r: Round) {
    && r.askedAt <= r.endedAt && SameRoster(c, t, t')
    && IsDueSelection(c, t, r.askedAt, r.limit, r.selected)
    && (forall id, p :: id in r.selected && p in RowsOf(c, t, id) ==>
          t'.schedule[p].lastPolled.Some? && r.askedAt <= t'.schedule[p].lastPolled.value <= r.endedAt)
    && (forall p :: p in t.schedule && (forall id :: id in r.selected ==> p !in RowsOf(c, t, id)) ==>
          t'.schedule[p] == t.schedule[p])
  }

  /** A row was left as it was, or read at or after an instant. */
  predicate LeftOrRead(row: PollState, row': PollState, from: Instant) {
    row' == row || (row'.lastPolled.Some? && from <= row'.lastPolled.value)
  }

  /** As a round, but other rows may have been read as well, at or after the query. */
  ghost predicate IsAdvance(c: Setting, t: Tables, t': Tables, r: Round) {
    && r.askedAt <= r.endedAt && SameRoster(c, t, t')
    && IsDueSelection(c, t, r.askedAt, r.limit, r.selected)
    && (forall id, p :: id in r.selected && p in RowsOf(c, t, id) ==>
          t'.schedule[p].lastPolled.Some? && r.askedAt <= t'.schedule[p].lastPolled.value <= r.endedAt)
    && (forall p :: p in t.schedule ==> LeftOrRead(t.schedule[p], t'.schedule[p], r.askedAt))
  }

  lemma RoundIsAnAdvance(c: Setting, t: Tables, t': Tables, r: Round)
    requires IsRound(c, t, t', r)
    ensures IsAdvance(c, t, t', r)
  {
  }

  ghost predicate AreAdvances(c: Setting, ts: seq<Tables>, rs: seq<Round>, k: nat) {
    && |ts| == |rs| + 1
    && (forall i :: 0 <= i < |rs| ==> IsAdvance(c, ts[i], ts[i + 1], rs[i]) && k <= rs[i].limit)
    && (forall i :: 0 <= i < |rs| - 1 ==> rs[i].endedAt <= rs[i + 1].askedAt)
  }

  /** Rounds one after another, each with room for at least k identifiers. */
  ghost predicate AreRounds(c: Setting, ts: seq<Tables>, rs: seq<Round>, k: nat) {
    && |ts| == |rs| + 1
    && (forall i :: 0 <= i < |rs| ==> IsRound(c, ts[i], ts[i + 1], rs[i]) && k <= rs[i].limit)
    && (forall i :: 0 <= i < |rs| - 1 ==> rs[i].endedAt <= rs[i + 1].askedAt)
  }

  predicate PositiveIntervals(t: Tables) { forall p :: p in t.schedule ==> t.schedule[p].intervalSeconds > 0 }

  // ---------------------------------------------------------------------------
  // Bounded wait
  // ---------------------------------------------------------------------------

  /** The other identifiers with some row no newer than a given reading: those that may be read first. */
  function Ahead(c: Setting, t: Tables, x: string, last: Option<Instant>): set<string> {
    set y | y in Roster(c, t) && y != x
            && exists q :: q in RowsOf(c, t, y) && !Earlier(last, t.schedule[q].lastPolled)
  }

  lemma SameRowsSameRoster(c: Setting, t: Tables, t': Tables)
    requires SameRoster(c, t, t')
    ensures Roster(c, t') == Roster(c, t)
  {
    forall id
      ensures id in Roster(c, t') <==> id in Roster(c, t)
    {
      OnTheRosterIff(c, t, id);
      OnTheRosterIff(c, t', id);
    }
  }

  lemma OnTheRosterIff(c: Setting, t: Tables, id: string)
    ensures id in Roster(c, t) <==> RowsOf(c, t, id) != {}
  {
    var key := SourceKey(c.game, c.source, id);
    if p :| p in RowsOf(c, t, id) {
      assert key in t.sourceIds && key.externalId == id;
    }
  }

  /** The roster is the same when identities are. */
  lemma SameIdentitiesSameRows(c: Setting, t: Tables, t': Tables)
    requires t'.assets == t.assets && t'.sourceIds == t.sourceIds && t'.schedule.Keys == t.schedule.Keys
    ensures forall id :: RowsOf(c, t', id) == RowsOf(c, t, id)
  {
    forall id
      ensures RowsOf(c, t', id) == RowsOf(c, t, id)
    {
    }
  }

  lemma RowsAreDisjoint(c: Setting, t: Tables, x: string, y: string, p: Pair)
    requires OneToOne(c, t) && p in RowsOf(c, t, x) && p in RowsOf(c, t, y)
    ensures x == y
  {
    assert SourceKey(c.game, c.source, x) == SourceKey(c.game, c.source, y);
  }

  /** One-to-one identities keep the rows apart. */
  lemma OneToOneKeepsApart(c: Setting, t: Tables)
    requires OneToOne(c, t)
    ensures RowsApart(c, t)
  {
    forall x, y, p | p in RowsOf(c, t, x) && p in RowsOf(c, t, y)
      ensures x == y
    {
      RowsAreDisjoint(c, t, x, y, p);
    }
  }

  /** A due row was last read strictly before the instant it is due at. */
  lemma DueIsInThePast(row: PollState, now: Instant)
    requires row.intervalSeconds > 0 && RowDue(row, now) && row.lastPolled.Some?
    ensures row.lastPolled.value < now
  {
    var factor := Backoff(row.failures);
    assert factor >= 1;
    assert row.intervalSeconds * factor >= 1;
  }

  lemma DueStaysDue(row: PollState, now: Instant, later: Instant)
    requires RowDue(row, now) && now <= later
    ensures RowDue(row, later)
  {
  }

  lemma SelectedWereAhead(c: Setting, t: Tables, r: Round, x: string, p: Pair, y: string)
    requires IsDueSelection(c, t, r.askedAt, r.limit, r.selected)
    requires p in RowsOf(c, t, x) && RowDue(t.schedule[p], r.askedAt) && x in Roster(c, t) && x !in r.selected
    requires y in r.selected
    ensures y in Ahead(c, t, x, t.schedule[p].lastPolled)
  {
    assert x in DueIds(c, t, r.askedAt);
    assert y in DueIds(c, t, r.askedAt) && !Precedes(c, t, r.askedAt, x, y);
  }

  lemma WaitingFillsTheRound(c: Setting, t: Tables, r: Round, x: string)
    requires IsDueSelection(c, t, r.askedAt, r.limit, r.selected)
    requires x in DueIds(c, t, r.askedAt) && x !in r.selected
    ensures |r.selected| == r.limit
  {
    DistinctCount(r.selected);
    var chosen := Members(r.selected);
    assert chosen <= DueIds(c, t, r.askedAt) - {x};
    SmallerSet(chosen, DueIds(c, t, r.askedAt) - {x});
  }

  /** Nobody new gets ahead, and everybody just read falls behind. */
  lemma AheadShrinks(c: Setting, t: Tables, t': Tables, r: Round, x: string, p: Pair)
    requires PositiveIntervals(t) && IsAdvance(c, t, t', r)
    requires p in RowsOf(c, t, x) && RowDue(t.schedule[p], r.askedAt) && x in Roster(c, t) && x !in r.selected
    ensures Ahead(c, t', x, t.schedule[p].lastPolled)
         <= Ahead(c, t, x, t.schedule[p].lastPolled) - Members(r.selected)
  {
    SameRowsSameRoster(c, t, t');
    var last := t.schedule[p].lastPolled;
    if last.Some? {
      DueIsInThePast(t.schedule[p], r.askedAt);
    }
    forall y | y in Ahead(c, t', x, last)
      ensures y in Ahead(c, t, x, last) && y !in r.selected
    {
      var q :| q in RowsOf(c, t', y) && !Earlier(last, t'.schedule[q].lastPolled);
      assert q in RowsOf(c, t, y);
      assert LeftOrRead(t.schedule[q], t'.schedule[q], r.askedAt);
    }
  }

  lemma RowKeepsWaiting(c: Setting, t: Tables, t': Tables, r: Round, x: string, p: Pair)
    requires RowsApart(c, t) && IsRound(c, t, t', r) && p in RowsOf(c, t, x) && x !in r.selected
    ensures p in RowsOf(c, t', x) && t'.schedule[p] == t.schedule[p]
  {
    assert p in RowsOf(c, t', x);
  }

  lemma OneRoundOfWaiting(c: Setting, t: Tables, t': Tables, r: Round, k: nat, x: string, p: Pair)
    requires PositiveIntervals(t) && IsAdvance(c, t, t', r) && k <= r.limit
    requires p in RowsOf(c, t, x) && RowDue(t.schedule[p], r.askedAt) && x in Roster(c, t) && x !in r.selected
    ensures |Ahead(c, t', x, t.schedule[p].lastPolled)| + k <= |Ahead(c, t, x, t.schedule[p].lastPolled)|
  {
    var last := t.schedule[p].lastPolled;
    var chosen := Members(r.selected);
    WaitingFillsTheRound(c, t, r, x);
    DistinctCount(r.selected);
    forall y | y in chosen
      ensures y in Ahead(c, t, x, last)
    {
      SelectedWereAhead(c, t, r, x, p, y);
    }
    AheadShrinks(c, t, t', r, x, p);
    SmallerSet(Ahead(c, t', x, last), Ahead(c, t, x, last) - chosen);
    assert |Ahead(c, t, x, last) - chosen| == |Ahead(c, t, x, last)| - |chosen|;
  }

  /** From t0 to t, m rounds went by without x: its row is as it was, and m * k identifiers ahead of it no longer are. */
  ghost predicate HasWaited(c: Setting, t0: Tables, t: Tables, k: nat, x: string, p: Pair, m: nat) {
    && SameRoster(c, t0, t) && p in t0.schedule && p in t.schedule && t.schedule[p] == t0.schedule[p]
    && |Ahead(c, t, x, t0.schedule[p].lastPolled)| + m * k < |Roster(c, t0)|
  }

  predicate Waits(t: Tables, t': Tables, p: Pair) {
    p in t.schedule && p in t'.schedule && t'.schedule[p] == t.schedule[p]
  }

  lemma WaitsOn(c: Setting, t0: Tables, t: Tables, t': Tables, r: Round, k: nat, x: string, p: Pair, m: nat)
    requires PositiveIntervals(t0) && p in RowsOf(c, t0, x) && HasWaited(c, t0, t, k, x, p, m)
    requires IsAdvance(c, t, t', r) && k <= r.limit && RowDue(t.schedule[p], r.askedAt) && x !in r.selected
    requires Waits(t, t', p)
    ensures HasWaited(c, t0, t', k, x, p, m + 1)
  {
    assert p in RowsOf(c, t, x);
    OnTheRosterIff(c, t, x);
    OneRoundOfWaiting(c, t, t', r, k, x, p);
    assert (m + 1) * k == m * k + k;
  }

  /** After m rounds that left its row alone, at least m * k identifiers that were ahead of x no longer are. */
  lemma {:induction false} WaitingIsCounted(c: Setting, ts: seq<Tables>, rs: seq<Round>, k: nat, x: string, p: Pair, m: nat)
    requires AreAdvances(c, ts, rs, k) && m <= |rs| && PositiveIntervals(ts[0])
    requires rs != [] && p in RowsOf(c, ts[0], x) && RowDue(ts[0].schedule[p], rs[0].askedAt)
    requires forall j :: 0 <= j < m ==> x !in rs[j].selected && Waits(ts[j], ts[j + 1], p)
    ensures HasWaited(c, ts[0], ts[m], k, x, p, m)
    ensures m > 0 ==> rs[0].askedAt <= rs[m - 1].endedAt
  {
    if m == 0 {
      var last := ts[0].schedule[p].lastPolled;
      OnTheRosterIff(c, ts[0], x);
      assert Ahead(c, ts[0], x, last) <= Roster(c, ts[0]) - {x};
      SmallerSet(Ahead(c, ts[0], x, last), Roster(c, ts[0]) - {x});
    } else {
      var t, t', r := ts[m - 1], ts[m], rs[m - 1];
      WaitingIsCounted(c, ts, rs, k, x, p, m - 1);
      assert IsAdvance(c, t, t', r) && Waits(ts[m - 1], ts[m - 1 + 1], p);
      assert rs[0].askedAt <= r.askedAt;
      DueStaysDue(t.schedule[p], rs[0].askedAt, r.askedAt);
      WaitsOn(c, ts[0], t, t', r, k, x, p, m - 1);
    }
  }

  /** How many rounds of k it takes to read n: n / k, rounded up. */
  function RoundsFor(n: nat, k: nat): nat
    requires k > 0
  {
    (n + k - 1) / k
  }

  /** That many rounds have room for n, and one fewer has not. */
  lemma EnoughRounds(n: nat, k: nat, m: nat)
    requires k > 0
    ensures m * k < n <==> m < RoundsFor(n, k)
  {
    var q, r := RoundsFor(n, k), (n + k - 1) % k;
    assert q * k + r == n + k - 1;
    if m >= q {
      MoreRoundsReadMore(q, m, k);
    } else {
      MoreRoundsReadMore(m + 1, q, k);
      assert (m + 1) * k == m * k + k;
    }
  }

  lemma MoreRoundsReadMore(few: nat, many: nat, k: nat)
    requires few <= many
    ensures few * k <= many * k
  {
    assert many * k == few * k + (many - few) * k;
  }

  lemma {:induction false} RosterStays(c: Setting, ts: seq<Tables>, rs: seq<Round>, k: nat, i: nat)
    requires AreAdvances(c, ts, rs, k) && i < |ts|
    ensures SameRoster(c, ts[0], ts[i])
  {
    hide IsDueSelection, RowsOf;
    if i > 0 {
      RosterStays(c, ts, rs, k, i - 1);
      assert IsAdvance(c, ts[i - 1], ts[i - 1 + 1], rs[i - 1]);
    }
  }

  /**
   * Bounded read: with room for k identifiers a round and n on the schedule, a row that
   * is due is read within n / k rounds, rounded up. Ties, backoff, identifiers that fall
   * due in the meantime and rows read out of turn change nothing.
   */
  lemma BoundedRead(c: Setting, ts: seq<Tables>, rs: seq<Round>, k: nat, x: string, p: Pair)
    requires k > 0 && AreAdvances(c, ts, rs, k) && rs != [] && PositiveIntervals(ts[0])
    requires p in RowsOf(c, ts[0], x) && RowDue(ts[0].schedule[p], rs[0].askedAt)
    requires RoundsFor(|Roster(c, ts[0])|, k) <= |rs|
    ensures exists j :: 0 <= j < |rs| && (x in rs[j].selected || !Waits(ts[j], ts[j + 1], p))
  {
    if forall j :: 0 <= j < |rs| ==> x !in rs[j].selected && Waits(ts[j], ts[j + 1], p) {
      WaitingIsCounted(c, ts, rs, k, x, p, |rs|);
      EnoughRounds(|Roster(c, ts[0])|, k, |rs|);
    }
  }

  lemma RoundThatReads(c: Setting, ts: seq<Tables>, rs: seq<Round>, k: nat, x: string, p: Pair) returns (j: nat)
    requires k > 0 && AreAdvances(c, ts, rs, k) && rs != [] && PositiveIntervals(ts[0])
    requires p in RowsOf(c, ts[0], x) && RowDue(ts[0].schedule[p], rs[0].askedAt)
    requires RoundsFor(|Roster(c, ts[0])|, k) <= |rs|
    ensures j < |rs| && (x in rs[j].selected || !Waits(ts[j], ts[j + 1], p)) && p in RowsOf(c, ts[j], x)
  {
    hide IsAdvance, RowsOf, Roster;
    BoundedRead(c, ts, rs, k, x, p);
    j :| 0 <= j < |rs| && (x in rs[j].selected || !Waits(ts[j], ts[j + 1], p));
    RosterStays(c, ts, rs, k, j);
  }

  /**
   * Bounded wait: when nothing is read out of turn, an identifier that is due is itself
   * selected within as many rounds.
   */
  lemma BoundedWait(c: Setting, ts: seq<Tables>, rs: seq<Round>, k: nat, x: string)
    requires k > 0 && AreRounds(c, ts, rs, k) && rs != [] && RowsApart(c, ts[0]) && PositiveIntervals(ts[0])
    requires IsDue(c, ts[0], x, rs[0].askedAt)
    requires RoundsFor(|Roster(c, ts[0])|, k) <= |rs|
    ensures exists j :: 0 <= j < |rs| && x in rs[j].selected
  {
    hide IsRound, AreAdvances, Roster, Waits;
    var p :| p in RowsOf(c, ts[0], x) && RowDue(ts[0].schedule[p], rs[0].askedAt);
    RoundsAreAdvances(c, ts, rs, k);
    var j := RoundThatReads(c, ts, rs, k, x, p);
    if x !in rs[j].selected {
      RowsKeepWaiting(c, ts, rs, k, x, p, j);
    }
  }

  lemma RoundsAreAdvances(c: Setting, ts: seq<Tables>, rs: seq<Round>, k: nat)
    requires AreRounds(c, ts, rs, k)
    ensures AreAdvances(c, ts, rs, k)
  {
    hide IsRound, IsAdvance;
    forall i | 0 <= i < |rs|
      ensures IsAdvance(c, ts[i], ts[i + 1], rs[i])
    {
      RoundIsAnAdvance(c, ts[i], ts[i + 1], rs[i]);
    }
  }

  /** A round that does not select an identifier leaves every row of it alone. */
  lemma RowsKeepWaiting(c: Setting, ts: seq<Tables>, rs: seq<Round>, k: nat, x: string, p: Pair, j: nat)
    requires AreRounds(c, ts, rs, k) && RowsApart(c, ts[0]) && j < |rs| && x !in rs[j].selected
    requires p in RowsOf(c, ts[j], x)
    ensures Waits(ts[j], ts[j + 1], p)
  {
    hide IsRound;
    RoundsAreAdvances(c, ts, rs, k);
    RosterStays(c, ts, rs, k, j);
    RowKeepsWaiting(c, ts[j], ts[j + 1], rs[j], x, p);
  }
}
