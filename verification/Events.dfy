/** Happenings in the game, recorded once each and corrected only by appending. */
module Events {
  import opened Domain

  type EventId = nat

  datatype Event = Event(
    id: EventId, game: GameId, kind: string, name: string, occurredAt: Instant, endedAt: Option<Instant>,
    recordedAt: Instant, supersedes: Option<EventId>, note: Option<string>)

  datatype NewEvent = NewEvent(
    kind: string, name: string, occurredAt: Instant, endedAt: Option<Instant>, note: Option<string>,
    supersedes: Option<EventId>)

  // ---------------------------------------------------------------------------
  // What a study sees
  // ---------------------------------------------------------------------------

  /** Row k corrects row i, in the same game, and was known by the instant. */
  predicate Corrects(rows: seq<Event>, asOf: Instant, k: nat, i: nat) {
    && k < |rows| && i < |rows|
    && rows[k].supersedes == Some(rows[i].id) && rows[k].game == rows[i].game && rows[k].recordedAt <= asOf
  }

  /** Bounded by when a row was recorded, not by when it says something happened. */
  predicate KnownAt(rows: seq<Event>, game: GameId, asOf: Instant, i: nat) {
    && i < |rows| && rows[i].game == game && rows[i].recordedAt <= asOf
    && forall k :: 0 <= k < |rows| ==> !Corrects(rows, asOf, k, i)
  }

  /** The events of a game a study would see. */
  function Known(rows: seq<Event>, game: GameId, asOf: Instant): set<Event> {
    set i: nat | i < |rows| && KnownAt(rows, game, asOf, i) :: rows[i]
  }

  predicate DistinctIds(rows: seq<Event>) { forall i, j :: 0 <= i < j < |rows| ==> rows[i].id != rows[j].id }

  /** Row k corrects an earlier row of its own game, if it corrects any. */
  predicate CorrectsAnEarlierRow(rows: seq<Event>, k: nat)
    requires k < |rows|
  {
    rows[k].supersedes.Some? ==>
      exists i :: 0 <= i < k && rows[i].id == rows[k].supersedes.value && rows[i].game == rows[k].game
  }

  /** What the write path keeps true: fresh identifiers, corrections of rows already there, and a clock that never runs back. */
  ghost predicate Appended(rows: seq<Event>) {
    && DistinctIds(rows)
    && (forall k :: 0 <= k < |rows| ==> CorrectsAnEarlierRow(rows, k))
    && (forall i, j :: 0 <= i < j < |rows| ==> rows[i].recordedAt <= rows[j].recordedAt)
  }

  // ---------------------------------------------------------------------------
  // The write path
  // ---------------------------------------------------------------------------

  datatype Refusal = OtherGame | BadShape | AlreadyRecorded

  /** The CHECK constraints a folded row can still break. */
  predicate WellShaped(kind: string, name: string, e: NewEvent) {
    kind != "" && name != "" && (e.endedAt.Some? ==> e.occurredAt <= e.endedAt.value)
  }

  /** The unique index on rows that supersede nothing. */
  predicate SameFirstRecord(x: Event, game: GameId, kind: string, name: string, e: NewEvent) {
    && x.supersedes.None? && e.supersedes.None?
    && x.game == game && x.kind == kind && x.name == name && x.occurredAt == e.occurredAt
  }

  /** Every row has a kind and a name and does not end before it begins. */
  predicate InShape(rows: seq<Event>) {
    forall x :: x in rows ==> x.kind != "" && x.name != "" && (x.endedAt.Some? ==> x.occurredAt <= x.endedAt.value)
  }

  /** No event of a game is first recorded twice under one kind, name and instant. */
  predicate FirstRecordedOnce(rows: seq<Event>) {
    forall i, j :: 0 <= i < j < |rows| && rows[i].supersedes.None? && rows[j].supersedes.None? ==>
      rows[i].game != rows[j].game || rows[i].kind != rows[j].kind || rows[i].name != rows[j].name
      || rows[i].occurredAt != rows[j].occurredAt
  }

  class MarketEvents {
    var rows: seq<Event>

    ghost predicate Valid() reads this { Appended(rows) && InShape(rows) && FirstRecordedOnce(rows) }

    constructor ()
      ensures Valid() && rows == []
    {
      rows := [];
    }

    /** Checks that what the event corrects belongs to this game, then appends it. */
    method Record(game: GameId, e: NewEvent, foldKind: string -> string, trim: string -> string, id: EventId, now: Instant)
      returns (r: Result<Event, Refusal>)
      requires Valid() && (forall x :: x in rows ==> x.id != id && x.recordedAt <= now)
      modifies this
      ensures Valid()
      ensures r == Err(OtherGame) <==>
                e.supersedes.Some? && forall x :: x in old(rows) ==> x.id != e.supersedes.value || x.game != game
      ensures r.Ok? <==>
                && (e.supersedes.Some? ==> exists x :: x in old(rows) && x.id == e.supersedes.value && x.game == game)
                && WellShaped(foldKind(e.kind), trim(e.name), e)
                && forall x :: x in old(rows) ==> !SameFirstRecord(x, game, foldKind(e.kind), trim(e.name), e)
      ensures r.Ok? ==> rows == old(rows) + [r.value]
      ensures r.Ok? ==> r.value == Event(id, game, foldKind(e.kind), trim(e.name), e.occurredAt, e.endedAt, now,
                                         e.supersedes, e.note)
      ensures r == Err(BadShape) ==>
                foldKind(e.kind) == "" || trim(e.name) == "" || (e.endedAt.Some? && e.endedAt.value < e.occurredAt)
      ensures r == Err(AlreadyRecorded) ==>
                && e.supersedes.None?
                && exists x :: x in old(rows) && x.supersedes.None? && x.game == game && x.kind == foldKind(e.kind)
                               && x.name == trim(e.name) && x.occurredAt == e.occurredAt
      ensures r.Err? ==> rows == old(rows)
    {
      var kind, name := foldKind(e.kind), trim(e.name);
      if e.supersedes.Some? && !(exists x :: x in rows && x.id == e.supersedes.value && x.game == game) {
        return Err(OtherGame);
      }
      if !WellShaped(kind, name, e) {
        return Err(BadShape);
      }
      if exists x :: x in rows && SameFirstRecord(x, game, kind, name, e) {
        return Err(AlreadyRecorded);
      }
      var event := Event(id, game, kind, name, e.occurredAt, e.endedAt, now, e.supersedes, e.note);
      AppendKeepsAppended(rows, event);
      rows := rows + [event];
      return Ok(event);
    }
  }

  lemma AppendKeepsAppended(rows: seq<Event>, e: Event)
    requires Appended(rows) && (forall x :: x in rows ==> x.id != e.id && x.recordedAt <= e.recordedAt)
    requires e.supersedes.Some? ==> exists x :: x in rows && x.id == e.supersedes.value && x.game == e.game
    ensures Appended(rows + [e])
  {
    var longer := rows + [e];
    forall k | 0 <= k < |longer|
      ensures CorrectsAnEarlierRow(longer, k)
    {
      if k < |rows| {
        assert CorrectsAnEarlierRow(rows, k);
        if longer[k].supersedes.Some? {
          var i :| 0 <= i < k && rows[i].id == rows[k].supersedes.value && rows[i].game == rows[k].game;
          assert longer[i] == rows[i];
        }
      } else if e.supersedes.Some? {
        var x :| x in rows && x.id == e.supersedes.value && x.game == e.game;
        var i :| 0 <= i < |rows| && rows[i] == x;
        assert longer[i] == rows[i];
      }
    }
  }

  // ---------------------------------------------------------------------------
  // The past does not change
  // ---------------------------------------------------------------------------

  lemma AppendedRowsKnown(rows: seq<Event>, e: Event, game: GameId, asOf: Instant, i: nat)
    requires i < |rows|
    ensures KnownAt(rows + [e], game, asOf, i) <==> KnownAt(rows, game, asOf, i) && !Corrects(rows + [e], asOf, |rows|, i)
  {
    forall k | 0 <= k < |rows|
      ensures Corrects(rows + [e], asOf, k, i) <==> Corrects(rows, asOf, k, i)
    {
    }
  }

  /**
   * A row changes what a study of a game saw at an instant exactly when it belongs
   * to the game and was recorded by that instant: later records never reach back,
   * and another game's rows never hide an event, however they got in.
   */
  lemma PastAnswerUnchangedIff(rows: seq<Event>, e: Event, game: GameId, asOf: Instant)
    requires forall i :: 0 <= i < |rows| ==> rows[i].id != e.id && rows[i].supersedes != Some(e.id)
    requires e.supersedes != Some(e.id)
    ensures Known(rows + [e], game, asOf) == Known(rows, game, asOf) <==> e.game != game || e.recordedAt > asOf
  {
    var longer := rows + [e];
    forall i: nat | i < |rows|
      ensures KnownAt(longer, game, asOf, i) <==> KnownAt(rows, game, asOf, i) && !Corrects(longer, asOf, |rows|, i)
    {
      AppendedRowsKnown(rows, e, game, asOf, i);
    }
    if e.game != game || e.recordedAt > asOf {
      forall i: nat | i < |longer|
        ensures KnownAt(longer, game, asOf, i) <==> i < |rows| && KnownAt(rows, game, asOf, i)
      {
      }
      forall x
        ensures x in Known(longer, game, asOf) <==> x in Known(rows, game, asOf)
      {
        if x in Known(longer, game, asOf) {
          var i: nat :| i < |longer| && KnownAt(longer, game, asOf, i) && longer[i] == x;
          assert rows[i] == x;
        }
        if x in Known(rows, game, asOf) {
          var i: nat :| i < |rows| && KnownAt(rows, game, asOf, i) && rows[i] == x;
          assert longer[i] == x;
        }
      }
    } else {
      assert KnownAt(longer, game, asOf, |rows|);
      assert longer[|rows|] in Known(longer, game, asOf);
    }
  }

  // ---------------------------------------------------------------------------
  // Every chain of corrections has a live head
  // ---------------------------------------------------------------------------

  /** Row j is row i or corrects it, through any number of corrections known by the instant. */
  ghost predicate Reaches(rows: seq<Event>, asOf: Instant, i: nat, j: nat)
    decreases |rows| - i
  {
    i == j || exists k :: i < k < |rows| && Corrects(rows, asOf, k, i) && Reaches(rows, asOf, k, j)
  }

  lemma CorrectionsAreLater(rows: seq<Event>, asOf: Instant, k: nat, i: nat)
    requires Appended(rows) && Corrects(rows, asOf, k, i)
    ensures i < k
  {
    assert CorrectsAnEarlierRow(rows, k);
    var j :| 0 <= j < k && rows[j].id == rows[k].supersedes.value && rows[j].game == rows[k].game;
    assert j == i;
  }

  /** Every event known by an instant has a live row among its corrections at that instant. */
  lemma {:induction false} LiveHead(rows: seq<Event>, asOf: Instant, i: nat) returns (head: nat)
    requires Appended(rows) && i < |rows| && rows[i].recordedAt <= asOf
    ensures KnownAt(rows, rows[i].game, asOf, head) && Reaches(rows, asOf, i, head)
    decreases |rows| - i
  {
    if k :| 0 <= k < |rows| && Corrects(rows, asOf, k, i) {
      CorrectionsAreLater(rows, asOf, k, i);
      head := LiveHead(rows, asOf, k);
    } else {
      head := i;
    }
  }

  lemma {:induction false} ReachesIsForward(rows: seq<Event>, asOf: Instant, i: nat, j: nat)
    requires Reaches(rows, asOf, i, j)
    ensures i <= j && (j != i ==> j < |rows|)
    decreases |rows| - i
  {
    if i != j {
      var k :| i < k < |rows| && Corrects(rows, asOf, k, i) && Reaches(rows, asOf, k, j);
      ReachesIsForward(rows, asOf, k, j);
    }
  }

  /** The last step of a chain. */
  lemma {:induction false} LastStep(rows: seq<Event>, asOf: Instant, i: nat, j: nat) returns (p: nat)
    requires Reaches(rows, asOf, i, j) && i != j
    ensures Reaches(rows, asOf, i, p) && Corrects(rows, asOf, j, p)
    decreases |rows| - i
  {
    var k :| i < k < |rows| && Corrects(rows, asOf, k, i) && Reaches(rows, asOf, k, j);
    if k == j {
      p := i;
    } else {
      p := LastStep(rows, asOf, k, j);
    }
  }

  /** A row corrects one row at most, so two chains that end in one row lie on one line. */
  lemma {:induction false} OneLine(rows: seq<Event>, asOf: Instant, a: nat, b: nat, j: nat)
    requires Appended(rows) && a <= b && Reaches(rows, asOf, a, j) && Reaches(rows, asOf, b, j)
    ensures Reaches(rows, asOf, a, b)
    decreases j
  {
    ReachesIsForward(rows, asOf, b, j);
    if b != j {
      var p := LastStep(rows, asOf, a, j);
      var q := LastStep(rows, asOf, b, j);
      assert p == q;
      CorrectionsAreLater(rows, asOf, j, p);
      ReachesIsForward(rows, asOf, b, p);
      OneLine(rows, asOf, a, b, p);
    }
  }

  /** Some row of the chain from i was corrected twice by the instant. */
  ghost predicate Forks(rows: seq<Event>, asOf: Instant, i: nat) {
    exists j, k, l :: Reaches(rows, asOf, i, j) && Corrects(rows, asOf, k, j) && Corrects(rows, asOf, l, j) && k != l
  }

  ghost predicate IsHead(rows: seq<Event>, asOf: Instant, i: nat, h: nat) {
    i < |rows| && KnownAt(rows, rows[i].game, asOf, h) && Reaches(rows, asOf, i, h)
  }

  lemma {:induction false} ReachesOn(rows: seq<Event>, asOf: Instant, i: nat, j: nat, k: nat)
    requires Reaches(rows, asOf, i, j) && Reaches(rows, asOf, j, k)
    ensures Reaches(rows, asOf, i, k)
    decreases |rows| - i
  {
    if i != j {
      var m :| i < m < |rows| && Corrects(rows, asOf, m, i) && Reaches(rows, asOf, m, j);
      ReachesOn(rows, asOf, m, j, k);
    }
  }

  lemma BeforeACorrection(rows: seq<Event>, asOf: Instant, k: nat, l: nat, j: nat)
    requires DistinctIds(rows) && Corrects(rows, asOf, l, j) && Reaches(rows, asOf, k, l) && k != l
    ensures Reaches(rows, asOf, k, j)
  {
    var p := LastStep(rows, asOf, k, l);
  }

  /** Corrections of one row lead to different heads. */
  lemma SiblingsDoNotMeet(rows: seq<Event>, asOf: Instant, j: nat, k: nat, l: nat, h: nat)
    requires Appended(rows) && Corrects(rows, asOf, k, j) && Corrects(rows, asOf, l, j) && k < l
    ensures !(Reaches(rows, asOf, k, h) && Reaches(rows, asOf, l, h))
  {
    CorrectionsAreLater(rows, asOf, k, j);
    if Reaches(rows, asOf, k, h) && Reaches(rows, asOf, l, h) {
      OneLine(rows, asOf, k, l, h);
      BeforeACorrection(rows, asOf, k, l, j);
      ReachesIsForward(rows, asOf, k, j);
    }
  }

  lemma {:induction false} OneHead(rows: seq<Event>, asOf: Instant, i: nat, h: nat, h': nat)
    requires Appended(rows) && !Forks(rows, asOf, i) && IsHead(rows, asOf, i, h) && IsHead(rows, asOf, i, h')
    ensures h == h'
    decreases |rows| - i
  {
    if k :| 0 <= k < |rows| && Corrects(rows, asOf, k, i) {
      var m :| i < m < |rows| && Corrects(rows, asOf, m, i) && Reaches(rows, asOf, m, h);
      var m' :| i < m' < |rows| && Corrects(rows, asOf, m', i) && Reaches(rows, asOf, m', h');
      assert Reaches(rows, asOf, i, i);
      assert m == m';
      forall j | Reaches(rows, asOf, m, j)
        ensures Reaches(rows, asOf, i, j)
      {
      }
      OneHead(rows, asOf, m, h, h');
    }
  }

  /** An event has exactly one live row at an instant if and only if no row of its chain had been corrected twice. */
  lemma OneLiveRowIff(rows: seq<Event>, asOf: Instant, i: nat)
    requires Appended(rows) && i < |rows| && rows[i].recordedAt <= asOf
    ensures (exists h :: IsHead(rows, asOf, i, h) && forall h' :: IsHead(rows, asOf, i, h') ==> h' == h)
            <==> !Forks(rows, asOf, i)
  {
    var head := LiveHead(rows, asOf, i);
    assert IsHead(rows, asOf, i, head);
    if Forks(rows, asOf, i) {
      var j, k, l :| Reaches(rows, asOf, i, j) && Corrects(rows, asOf, k, j) && Corrects(rows, asOf, l, j) && k < l;
      TwoHeads(rows, asOf, i, j, k, l);
    } else {
      forall h | IsHead(rows, asOf, i, h)
        ensures h == head
      {
        OneHead(rows, asOf, i, h, head);
      }
    }
  }

  lemma {:induction false} SameGame(rows: seq<Event>, asOf: Instant, i: nat, j: nat)
    requires i < |rows| && Reaches(rows, asOf, i, j)
    ensures j < |rows| && rows[j].game == rows[i].game
    decreases |rows| - i
  {
    if i != j {
      var k :| i < k < |rows| && Corrects(rows, asOf, k, i) && Reaches(rows, asOf, k, j);
      SameGame(rows, asOf, k, j);
    }
  }

  lemma TwoHeads(rows: seq<Event>, asOf: Instant, i: nat, j: nat, k: nat, l: nat)
    requires Appended(rows) && i < |rows| && Reaches(rows, asOf, i, j)
    requires Corrects(rows, asOf, k, j) && Corrects(rows, asOf, l, j) && k < l
    ensures exists h, h' :: IsHead(rows, asOf, i, h) && IsHead(rows, asOf, i, h') && h != h'
  {
    SameGame(rows, asOf, i, j);
    CorrectionsAreLater(rows, asOf, k, j);
    CorrectionsAreLater(rows, asOf, l, j);
    var h := LiveHead(rows, asOf, k);
    var h' := LiveHead(rows, asOf, l);
    SiblingsDoNotMeet(rows, asOf, j, k, l, h);
    assert Reaches(rows, asOf, j, h) && Reaches(rows, asOf, j, h');
    ReachesOn(rows, asOf, i, j, h);
    ReachesOn(rows, asOf, i, j, h');
    assert IsHead(rows, asOf, i, h) && IsHead(rows, asOf, i, h');
  }

  /**
   * Nothing refuses a second correction of one event. Recorded after the first, it
   * leaves both corrections live.
   */
  method CorrectTwice(game: GameId) returns (m: MarketEvents)
    ensures fresh(m) && m.Valid() && |m.rows| == 3
    ensures m.rows[1].supersedes == Some(m.rows[0].id) && m.rows[2].supersedes == Some(m.rows[0].id)
    ensures IsHead(m.rows, 2, 0, 1) && IsHead(m.rows, 2, 0, 2)
  {
    hide InShape, FirstRecordedOnce, Appended;
    m := new MarketEvents();
    var event := NewEvent("promo", "first", 0, None, None, None);
    var same := (text: string) => text;
    var correction := event.(supersedes := Some(0));
    assert |"promo"| > 0 && |"first"| > 0;
    assert WellShaped(same(event.kind), same(event.name), event);
    assert WellShaped(same(correction.kind), same(correction.name), correction);
    var first := m.Record(game, event, same, same, 0, 0);
    assert first.Ok? && m.rows == [first.value];
    var second := m.Record(game, correction, same, same, 1, 1);
    assert m.rows[0] in m.rows && second.Ok?;
    var third := m.Record(game, correction, same, same, 2, 2);
    assert third.Ok?;
    assert Corrects(m.rows, 2, 1, 0) && Corrects(m.rows, 2, 2, 0);
    assert Reaches(m.rows, 2, 1, 1) && Reaches(m.rows, 2, 2, 2);
  }
}
