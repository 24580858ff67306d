/** The backup timer as a machine: what its stamps keep whatever is restarted, listed in vain or fails. */
module BackupLoop {
  import opened Domain
  import opened Sets
  import opened Text
  import opened Calendar
  import opened Backup

  const BACKUP_INTERVAL_SECONDS: nat := 86_400
  const BACKUP_INTERVAL: nat := BACKUP_INTERVAL_SECONDS * 1_000_000
  const RETRY_AFTER_A_FAILED_DUMP: nat := 3_600 * 1_000_000

  /** Between two awaits the loop is about to list the bucket, or asleep until an instant. */
  datatype Phase = Looking | Waiting(until: Instant) | Pausing(until: Instant)

  /** `stored` remembers the second of every dump the loop stored; nothing in the system keeps it. */
  datatype Timer = Timer(bucket: set<string>, clock: Instant, phase: Phase, stored: seq<int>)

  /** A dump is named for the instant it began at and stored at a later one; another may be stored in between. */
  datatype Move =
    | Look(now: Instant, newest: Option<Instant>)     // the listing answered, and its last name said this
    | LookFails(now: Instant)
    | Dump(at: Instant, key: string, removed: set<string>, now: Instant) // stored and pruned; what cannot be deleted stays
    | DumpFails(at: Instant, now: Instant)            // the run failed before its dump was stored
    | PruneFails(at: Instant, key: string, now: Instant) // the run failed after its dump was stored
    | Resume(now: Instant)                            // the pause after a failure is over
    | Restart(now: Instant)                           // the process is killed, anywhere, and started again
    | ByHand(at: Instant, key: string, removed: set<string>, now: Instant) // the backup command

  function SecondAt(t: Instant): int { t / SECOND }

  /** The name a dump taken at an instant gets. */
  ghost predicate Names(key: string, at: Instant) {
    exists s :: FourDigitYear(s) && SecondsOf(s) == SecondAt(at) && key == DumpKey(s)
  }

  /** The instant a second begins. */
  function Start(second: int): Instant { second * SECOND }

  /** Every moment up to the year 9999 has a name. */
  lemma EveryMomentHasAName(at: Instant)
    requires OnCalendar(SecondAt(at)) && StampOf(SecondAt(at)).year < 10_000
    ensures Names(DumpKey(StampOf(SecondAt(at))), at)
    ensures TakenAt(DumpKey(StampOf(SecondAt(at)))) == Some(SecondAt(at))
  {
    TakenAtRoundTrip(StampOf(SecondAt(at)));
  }

  function InstantOf(second: Option<int>): Option<Instant> {
    match second
    case None => None
    case Some(value) => Some(Start(value))
  }

  /** What the newest dump's name says, when it can be read. */
  ghost predicate SaysNewest(bucket: set<string>, newest: Option<Instant>) {
    if bucket == {} then newest == None
    else exists key :: IsLast(bucket, key) && newest == InstantOf(TakenAt(key))
  }

  predicate CanPrune(bucket: set<string>, keep: nat, removed: set<string>) { removed <= Stale(bucket, keep) }

  ghost predicate CanMove(m: Timer, keep: nat, move: Move) {
    match move
    case Look(now, newest) => m.phase.Looking? && m.clock <= now && SaysNewest(m.bucket, newest)
    case LookFails(now) => m.phase.Looking? && m.clock <= now
    case Dump(at, key, removed, now) =>
      && m.phase.Waiting? && m.phase.until <= at <= now && m.clock <= now
      && Names(key, at) && CanPrune(m.bucket + {key}, keep, removed)
    case DumpFails(at, now) => m.phase.Waiting? && m.phase.until <= at <= now && m.clock <= now
    case PruneFails(at, key, now) => m.phase.Waiting? && m.phase.until <= at <= now && m.clock <= now && Names(key, at)
    case Resume(now) => m.phase.Pausing? && m.phase.until <= now && m.clock <= now
    case Restart(now) => m.clock <= now
    case ByHand(at, key, removed, now) =>
      at <= now && m.clock <= now && Names(key, at) && CanPrune(m.bucket + {key}, keep, removed)
  }

  /** The state after a move; a listing leads to the wait its newest name dictates. */
  function Moved(m: Timer, move: Move): Timer {
    match move
    case Look(now, newest) => m.(clock := now, phase := Waiting(now + WaitFor(newest, now, BACKUP_INTERVAL)))
    case LookFails(now) => m.(clock := now, phase := Waiting(now + BACKUP_INTERVAL))
    case Dump(at, key, removed, now) => Timer(m.bucket + {key} - removed, now, Looking, m.stored + [SecondAt(at)])
    case DumpFails(at, now) => m.(clock := now, phase := Pausing(now + RETRY_AFTER_A_FAILED_DUMP))
    case PruneFails(at, key, now) =>
      Timer(m.bucket + {key}, now, Pausing(now + RETRY_AFTER_A_FAILED_DUMP), m.stored + [SecondAt(at)])
    case Resume(now) => m.(clock := now, phase := Looking)
    case Restart(now) => m.(clock := now, phase := Looking)
    case ByHand(at, key, removed, now) => m.(clock := now, bucket := m.bucket + {key} - removed)
  }

  // ---------------------------------------------------------------------------
  // What every move keeps
  // ---------------------------------------------------------------------------

  predicate IsDump(key: string, s: Stamp) { FourDigitYear(s) && key == DumpKey(s) }

  /** Every name in the bucket is the name of a dump taken by now. */
  ghost predicate WellNamed(bucket: set<string>, clock: Instant) {
    forall key :: key in bucket ==> exists s :: IsDump(key, s) && Start(SecondsOf(s)) <= clock
  }

  /** Some dump in the bucket is no older than a given second. */
  ghost predicate HoldsSince(bucket: set<string>, second: int) {
    exists key, s :: key in bucket && IsDump(key, s) && SecondsOf(s) >= second
  }

  predicate Spaced(stored: seq<int>) {
    forall i, j :: 0 <= i < j < |stored| ==> stored[i] + BACKUP_INTERVAL_SECONDS <= stored[j]
  }

  ghost predicate OnSchedule(m: Timer) {
    && WellNamed(m.bucket, m.clock) && Spaced(m.stored)
    && (m.stored != [] ==>
          var last := m.stored[|m.stored| - 1];
          && HoldsSince(m.bucket, last) && Start(last) <= m.clock
          && (m.phase.Waiting? ==> Start(last) + BACKUP_INTERVAL <= m.phase.until))
  }

  /** Among well-formed names the last is the newest dump. */
  lemma LastIsNewest(bucket: set<string>, clock: Instant, last: string, second: int)
    requires WellNamed(bucket, clock) && IsLast(bucket, last) && HoldsSince(bucket, second)
    ensures TakenAt(last).Some? && second <= TakenAt(last).value && Start(TakenAt(last).value) <= clock
  {
    var s :| IsDump(last, s) && Start(SecondsOf(s)) <= clock;
    var key, k :| key in bucket && IsDump(key, k) && SecondsOf(k) >= second;
    TakenAtRoundTrip(s);
    KeysSortByTime(s, k);
  }

  /** Pruning never removes the newest dump, so what the bucket holds since a second it still holds. */
  lemma {:induction false} PruningKeepsTheNewest(bucket: set<string>, clock: Instant, keep: nat, removed: set<string>,
                                                 key: string, s: Stamp, second: int)
    requires WellNamed(bucket, clock) && CanPrune(bucket, keep, removed)
    requires key in bucket && IsDump(key, s) && SecondsOf(s) >= second
    ensures HoldsSince(bucket - removed, second)
    decreases |LaterKeys(bucket, key)|
  {
    if key in removed {
      assert |LaterKeys(bucket, key)| >= 1;
      var k :| k in LaterKeys(bucket, key);
      var later :| IsDump(k, later) && Start(SecondsOf(later)) <= clock;
      KeysSortByTime(s, later);
      LaterIsSmaller(bucket, key, k);
      PruningKeepsTheNewest(bucket, clock, keep, removed, k, later, second);
    } else {
      assert key in bucket - removed;
    }
  }

  lemma LaterIsSmaller(bucket: set<string>, key: string, k: string)
    requires k in LaterKeys(bucket, key)
    ensures |LaterKeys(bucket, k)| < |LaterKeys(bucket, key)|
  {
    TextOrderIsTotal(k, k);
    forall x | x in LaterKeys(bucket, k)
      ensures x in LaterKeys(bucket, key)
    {
      TextOrderIsTransitive(key, k, x);
    }
    SmallerSet(LaterKeys(bucket, k), LaterKeys(bucket, key) - {k});
  }

  lemma StoringKeepsNames(bucket: set<string>, clock: Instant, at: Instant, key: string, now: Instant)
    requires WellNamed(bucket, clock) && clock <= now && at <= now && Names(key, at)
    ensures WellNamed(bucket + {key}, now) && HoldsSince(bucket + {key}, SecondAt(at))
  {
    var s :| FourDigitYear(s) && SecondsOf(s) == SecondAt(at) && key == DumpKey(s);
    LaterClock(bucket, clock, now);
    assert key in bucket + {key} && IsDump(key, s);
  }

  lemma LaterClock(bucket: set<string>, clock: Instant, later: Instant)
    requires WellNamed(bucket, clock) && clock <= later
    ensures WellNamed(bucket, later)
  {
    forall key | key in bucket
      ensures exists s :: IsDump(key, s) && Start(SecondsOf(s)) <= later
    {
      var s :| IsDump(key, s) && Start(SecondsOf(s)) <= clock;
    }
  }

  /** A dump no earlier than the end of the wait is an interval after the one before it. */
  lemma StoredInTurn(stored: seq<int>, until: Instant, at: Instant)
    requires Spaced(stored) && until <= at
    requires stored != [] ==> Start(stored[|stored| - 1]) + BACKUP_INTERVAL <= until
    ensures Spaced(stored + [SecondAt(at)])
  {
    if stored != [] {
      var last := stored[|stored| - 1];
      assert at >= (last + BACKUP_INTERVAL_SECONDS) * SECOND;
      assert SecondAt(at) >= last + BACKUP_INTERVAL_SECONDS;
    }
  }

  lemma HeldThroughPruning(bucket: set<string>, clock: Instant, keep: nat, removed: set<string>, second: int)
    requires WellNamed(bucket, clock) && CanPrune(bucket, keep, removed) && HoldsSince(bucket, second)
    ensures HoldsSince(bucket - removed, second)
  {
    var key, s :| key in bucket && IsDump(key, s) && SecondsOf(s) >= second;
    PruningKeepsTheNewest(bucket, clock, keep, removed, key, s, second);
  }

  /** Storing and pruning keep names, hold the dump just stored, and whatever was held since a second. */
  lemma StoredAndPruned(bucket: set<string>, clock: Instant, keep: nat, at: Instant, key: string, removed: set<string>,
                        now: Instant, second: int)
    requires WellNamed(bucket, clock) && clock <= now && at <= now && Names(key, at)
    requires CanPrune(bucket + {key}, keep, removed)
    ensures WellNamed(bucket + {key} - removed, now) && HoldsSince(bucket + {key} - removed, SecondAt(at))
    ensures HoldsSince(bucket, second) ==> HoldsSince(bucket + {key} - removed, second)
  {
    StoringKeepsNames(bucket, clock, at, key, now);
    HeldThroughPruning(bucket + {key}, now, keep, removed, SecondAt(at));
    if HoldsSince(bucket, second) {
      var held, s :| held in bucket && IsDump(held, s) && SecondsOf(s) >= second;
      assert held in bucket + {key};
      HeldThroughPruning(bucket + {key}, now, keep, removed, second);
    }
  }

  lemma NewestSays(bucket: set<string>, clock: Instant, newest: Option<Instant>, second: int)
    requires WellNamed(bucket, clock) && SaysNewest(bucket, newest) && HoldsSince(bucket, second)
    ensures newest.Some? && Start(second) <= newest.value <= clock
  {
    var held, s :| held in bucket && IsDump(held, s) && SecondsOf(s) >= second;
    var key :| IsLast(bucket, key) && newest == InstantOf(TakenAt(key));
    LastIsNewest(bucket, clock, key, second);
  }

  lemma LookKeepsSchedule(m: Timer, now: Instant, newest: Option<Instant>)
    requires OnSchedule(m) && m.clock <= now && SaysNewest(m.bucket, newest)
    ensures OnSchedule(Moved(m, Look(now, newest)))
  {
    LaterClock(m.bucket, m.clock, now);
    if m.stored != [] {
      NewestSays(m.bucket, m.clock, newest, m.stored[|m.stored| - 1]);
    }
  }

  lemma ClockKeepsSchedule(m: Timer, now: Instant, phase: Phase)
    requires OnSchedule(m) && m.clock <= now && (phase.Waiting? ==> phase.until == now + BACKUP_INTERVAL)
    ensures OnSchedule(m.(clock := now, phase := phase))
  {
    LaterClock(m.bucket, m.clock, now);
  }

  lemma DumpKeepsSchedule(m: Timer, keep: nat, at: Instant, key: string, removed: set<string>, now: Instant)
    requires OnSchedule(m) && CanMove(m, keep, Dump(at, key, removed, now))
    ensures OnSchedule(Moved(m, Dump(at, key, removed, now)))
  {
    StoredInTurn(m.stored, m.phase.until, at);
    StoredAndPruned(m.bucket, m.clock, keep, at, key, removed, now, SecondAt(at));
  }

  lemma PruneFailsKeepsSchedule(m: Timer, keep: nat, at: Instant, key: string, now: Instant)
    requires OnSchedule(m) && CanMove(m, keep, PruneFails(at, key, now))
    ensures OnSchedule(Moved(m, PruneFails(at, key, now)))
  {
    StoredInTurn(m.stored, m.phase.until, at);
    StoringKeepsNames(m.bucket, m.clock, at, key, now);
  }

  /** A change to the bucket alone keeps the schedule as long as the newest dump is still held. */
  lemma BucketKeepsSchedule(m: Timer, bucket: set<string>, clock: Instant)
    requires OnSchedule(m) && m.clock <= clock && WellNamed(bucket, clock)
    requires m.stored != [] ==> HoldsSince(bucket, m.stored[|m.stored| - 1])
    ensures OnSchedule(m.(clock := clock, bucket := bucket))
  {
  }

  lemma ByHandKeepsSchedule(m: Timer, keep: nat, at: Instant, key: string, removed: set<string>, now: Instant)
    requires OnSchedule(m) && CanMove(m, keep, ByHand(at, key, removed, now))
    ensures OnSchedule(Moved(m, ByHand(at, key, removed, now)))
  {
    StoredAndPruned(m.bucket, m.clock, keep, at, key, removed, now, if m.stored == [] then 0 else m.stored[|m.stored| - 1]);
    BucketKeepsSchedule(m, m.bucket + {key} - removed, now);
  }

  lemma OneMoveKeepsSchedule(m: Timer, keep: nat, move: Move)
    requires OnSchedule(m) && CanMove(m, keep, move)
    ensures OnSchedule(Moved(m, move))
  {
    match move
    case Look(now, newest) => LookKeepsSchedule(m, now, newest);
    case LookFails(now) => ClockKeepsSchedule(m, now, Waiting(now + BACKUP_INTERVAL));
    case Dump(at, key, removed, now) => DumpKeepsSchedule(m, keep, at, key, removed, now);
    case DumpFails(at, now) => ClockKeepsSchedule(m, now, Pausing(now + RETRY_AFTER_A_FAILED_DUMP));
    case PruneFails(at, key, now) => PruneFailsKeepsSchedule(m, keep, at, key, now);
    case Resume(now) => ClockKeepsSchedule(m, now, Looking);
    case Restart(now) => ClockKeepsSchedule(m, now, Looking);
    case ByHand(at, key, removed, now) => ByHandKeepsSchedule(m, keep, at, key, removed, now);
  }

  /** The states a timer went through. */
  ghost predicate Ran(keep: nat, ms: seq<Timer>, moves: seq<Move>) {
    |ms| == |moves| + 1
    && forall i :: 0 <= i < |moves| ==> CanMove(ms[i], keep, moves[i]) && ms[i + 1] == Moved(ms[i], moves[i])
  }

  /**
   * Spacing survives restarts: from a bucket of well-formed names, any two dumps the
   * loop stores are at least one interval apart, whatever is killed, fails to list,
   * fails to dump, fails to prune or is dumped by hand in between.
   */
  lemma {:induction false} SpacingSurvivesRestarts(keep: nat, ms: seq<Timer>, moves: seq<Move>)
    requires Ran(keep, ms, moves) && ms[0].stored == [] && WellNamed(ms[0].bucket, ms[0].clock)
    ensures OnSchedule(ms[|moves|])
    ensures var stored := ms[|moves|].stored; forall i, j :: 0 <= i < j < |stored| ==> stored[i] + 86_400 <= stored[j]
  {
    if moves != [] {
      var n := |moves| - 1;
      assert Ran(keep, ms[..|ms| - 1], moves[..n]);
      SpacingSurvivesRestarts(keep, ms[..|ms| - 1], moves[..n]);
      OneMoveKeepsSchedule(ms[n], keep, moves[n]);
    }
  }

  /** Asleep, the loop looks again within a day, and within an hour of a failure. */
  predicate WakesInTime(m: Timer) {
    match m.phase
    case Looking => true
    case Waiting(until) => until <= m.clock + 86_400_000_000
    case Pausing(until) => until <= m.clock + 3_600_000_000
  }

  /** Whatever happens and whatever the names say, the loop never sleeps longer than one interval. */
  lemma {:induction false} NeverSleepsLong(keep: nat, ms: seq<Timer>, moves: seq<Move>)
    requires Ran(keep, ms, moves) && WakesInTime(ms[0])
    ensures WakesInTime(ms[|moves|])
  {
    if moves != [] {
      var n := |moves| - 1;
      assert Ran(keep, ms[..|ms| - 1], moves[..n]);
      NeverSleepsLong(keep, ms[..|ms| - 1], moves[..n]);
      NextWakesInTime(ms[n], keep, moves[n]);
    }
  }

  lemma NextWakesInTime(m: Timer, keep: nat, move: Move)
    requires CanMove(m, keep, move) && WakesInTime(m)
    ensures WakesInTime(Moved(m, move))
  {
  }

  // ---------------------------------------------------------------------------
  // One foreign name
  // ---------------------------------------------------------------------------

  /** A name in the bucket is a dump's, or cannot be read at all. */
  ghost predicate ReadableOrForeign(bucket: set<string>) {
    forall key :: key in bucket ==> (exists s :: IsDump(key, s)) || TakenAt(key).None?
  }

  /** The newest instant any name in the bucket states. */
  ghost predicate IsNewest(bucket: set<string>, at: Instant) {
    && (exists key :: key in bucket && InstantOf(TakenAt(key)) == Some(at))
    && forall key :: key in bucket && TakenAt(key).Some? ==> Start(TakenAt(key).value) <= at
  }

  lemma LastStatesTheNewest(bucket: set<string>, last: string, seconds: int)
    requires ReadableOrForeign(bucket) && IsLast(bucket, last) && TakenAt(last) == Some(seconds)
    ensures IsNewest(bucket, Start(seconds))
  {
    var s :| IsDump(last, s);
    TakenAtRoundTrip(s);
    forall k | k in bucket && TakenAt(k).Some?
      ensures TakenAt(k).value <= seconds
    {
      var t :| IsDump(k, t);
      TakenAtRoundTrip(t);
      KeysSortByTime(s, t);
    }
    assert InstantOf(TakenAt(last)) == Some(Start(seconds));
  }

  lemma OneLast(bucket: set<string>, key: string, last: string)
    requires IsLast(bucket, key) && IsLast(bucket, last)
    ensures key == last
  {
    TextOrderIsTotal(key, last);
  }

  /**
   * The wait runs from the newest dump exactly when the name that sorts last can be
   * read. A foreign name that sorts after the dumps hides all of them, and the next
   * dump is due at once however recent they are.
   */
  lemma NewestIsReadIff(bucket: set<string>, newest: Option<Instant>, last: string)
    requires ReadableOrForeign(bucket) && IsLast(bucket, last) && SaysNewest(bucket, newest)
    ensures newest.Some? && IsNewest(bucket, newest.value) <==> TakenAt(last).Some?
    ensures TakenAt(last).None? ==> forall now :: WaitFor(newest, now, BACKUP_INTERVAL) == 0
  {
    var key :| IsLast(bucket, key) && newest == InstantOf(TakenAt(key));
    OneLast(bucket, key, last);
    if TakenAt(last).Some? {
      LastStatesTheNewest(bucket, last, TakenAt(last).value);
    }
  }

  /** A name whose first character comes after the digits cannot be read as a stamp. */
  lemma NotAStamp(tail: string)
    requires tail != "" && tail[0] > '9' && forall i :: 0 <= i < |tail| ==> tail[i] != '/'
    ensures TakenAt(FOLDER + tail).None?
  {
    assert FOLDER + tail == "backup/pg" + "/" + tail;
    LastSegmentIs("backup/pg", tail);
    if StripSuffix(tail).Some? && StripSuffix(tail).value != "" {
      var text := StripSuffix(tail).value;
      assert text[0] == tail[0];
      assert |text| >= 4 ==> text[0..4][0] == text[0];
    }
  }

  lemma SortsAfterTheDumps(s: Stamp, tail: string)
    requires FourDigitYear(s) && tail != "" && tail[0] > '9'
    ensures TextLess(DumpKey(s), FOLDER + tail)
  {
    EqualHeads(FOLDER, StampText(s) + SUFFIX, tail);
    assert (StampText(s) + SUFFIX)[0] == Padded(s.year, 4)[0];
    assert DumpKey(s) == FOLDER + (StampText(s) + SUFFIX);
  }

  /**
   * Such names exist: one that begins with a letter, or with any character after the
   * digits, is last among whatever dumps are in the bucket and says nothing of when.
   */
  lemma AForeignNameHidesEveryDump(bucket: set<string>, tail: string)
    requires forall key :: key in bucket ==> exists s :: IsDump(key, s)
    requires tail != "" && tail[0] > '9' && forall i :: 0 <= i < |tail| ==> tail[i] != '/'
    ensures var name := FOLDER + tail;
            && IsLast(bucket + {name}, name) && TakenAt(name).None? && ReadableOrForeign(bucket + {name})
  {
    var name := FOLDER + tail;
    NotAStamp(tail);
    forall key | key in bucket + {name}
      ensures !TextLess(name, key)
    {
      TextOrderIsTotal(name, key);
      if key != name {
        var s :| IsDump(key, s);
        SortsAfterTheDumps(s, tail);
      }
    }
  }
}
