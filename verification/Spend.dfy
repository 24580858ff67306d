/** The requests the run records say were spent. */
module Spend {
  import opened Domain
  import opened Ledger

  /** Instants from one on, up to but not including another when there is one. */
  datatype Window = Window(from: Instant, to: Option<Instant>)

  function Counted(run: Run, w: Window): nat {
    if run.startedAt >= w.from && (w.to.Some? ==> run.startedAt < w.to.value) then run.requests else 0
  }

  function OnDay(day: int): Window { Window(day * DAY, Some(day * DAY + DAY)) }

  /** A run counts on the day of 86,400 seconds it started in, whole or not at all, and from a day's start on once that day has begun. */
  lemma CountedOnItsDay(run: Run, day: int)
    ensures Counted(run, OnDay(day)) == if run.startedAt / 86_400_000_000 == day then run.requests else 0
    ensures Counted(run, Window(day * DAY, None)) == if run.startedAt / 86_400_000_000 >= day then run.requests else 0
  {
  }

  /** Requests recorded on the runs started inside a window. */
  ghost function Spent(runs: map<RunId, Run>, w: Window): nat
    decreases |runs|
  {
    if runs == map[] then 0
    else
      var r :| r in runs;
      Counted(runs[r], w) + Spent(runs - {r}, w)
  }

  /** The sum does not depend on the order it is taken in. */
  lemma {:induction false} SpentWithout(runs: map<RunId, Run>, r: RunId, w: Window)
    requires r in runs
    ensures Spent(runs, w) == Counted(runs[r], w) + Spent(runs - {r}, w)
    decreases |runs|
  {
    var first :| first in runs && Spent(runs, w) == Counted(runs[first], w) + Spent(runs - {first}, w);
    if first != r {
      SpentWithout(runs - {first}, r, w);
      SpentWithout(runs - {r}, first, w);
      assert runs - {first} - {r} == runs - {r} - {first};
    }
  }

  lemma SpentUpdate(runs: map<RunId, Run>, r: RunId, run: Run, w: Window)
    ensures Spent(runs[r := run], w)
            == Spent(runs, w) + Counted(run, w) - (if r in runs then Counted(runs[r], w) else 0)
  {
    var after := runs[r := run];
    SpentWithout(after, r, w);
    assert after - {r} == runs - {r};
    if r in runs {
      SpentWithout(runs, r, w);
    } else {
      assert runs - {r} == runs;
    }
  }

  /** Windows that count every run alike spend alike. */
  lemma {:induction false} SpentAlike(runs: map<RunId, Run>, w: Window, w': Window)
    requires forall r :: r in runs ==> Counted(runs[r], w) == Counted(runs[r], w')
    ensures Spent(runs, w) == Spent(runs, w')
    decreases |runs|
  {
    if runs != map[] {
      var r :| r in runs;
      SpentAlike(runs - {r}, w, w');
      SpentWithout(runs, r, w);
      SpentWithout(runs, r, w');
    }
  }

  lemma {:induction false} NothingSpent(runs: map<RunId, Run>, w: Window)
    requires forall r :: r in runs ==> Counted(runs[r], w) == 0
    ensures Spent(runs, w) == 0
    decreases |runs|
  {
    if runs != map[] {
      var r :| r in runs;
      NothingSpent(runs - {r}, w);
      SpentWithout(runs, r, w);
    }
  }
}
