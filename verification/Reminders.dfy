/**
 The periodic reminder scan over serial runs: an appointment gets a reminder
 exactly when some scan finds it confirmed and due, and never a second one.
 */
module Reminders {
  import opened Calendar
  import opened Ledger
  import opened Invariant
  import opened Runs

  /** A scan that finds the appointment confirmed and due for this reminder. */
  predicate Catches(db: Db, call: Call, id: Id, kind: Kind)
    requires Guarded(kind)
  {
    call.Scanning? && id in db.appts && Due(db.appts[id], call.tenant, kind, call.now)
  }

  function CatchOf(id: Id, kind: Kind): (Db, Call) -> bool
    requires Guarded(kind)
  {
    (db: Db, call: Call) => Catches(db, call, id, kind)
  }

  lemma SentMeansLogged(db: Db, id: Id, kind: Kind)
    requires LogsOk(db) && id in db.appts
    ensures AlreadySent(db.logs, db.appts[id].tenant, id, kind) <==> db.logs[LogOf(id, db.appts[id], kind)] > 0
  {
    if log :| log in db.logs && log.tenant == db.appts[id].tenant && log.appointment == Some(id) && log.kind == kind {
      assert LogKnown(db.appts, log);
    }
  }

  /** One scan: the reminder is logged if it was, or if it is due now. */
  lemma ScanStep(db: Db, tenant: Id, now: int, id: Id, kind: Kind)
    requires Inv(db) && id in db.appts && Guarded(kind)
    ensures var log := LogOf(id, db.appts[id], kind);
            Scan(db, tenant, now).logs[log] ==
              if db.logs[log] == 0 && Due(db.appts[id], tenant, kind, now) then 1 else db.logs[log]
  {
    var mid := Remind(db, tenant, Reminder24h, now);
    RemindKeeps(db, tenant, Reminder24h, now);
    RemindCounts(db, tenant, Reminder24h, now, id, kind);
    RemindCounts(mid, tenant, Reminder2h, now, id, kind);
    SentMeansLogged(db, id, kind);
    SentMeansLogged(mid, id, kind);
  }

  /**
   The same in minutes: a scan reminds of a confirmed row of its tenant that
   starts 24 hours, or 2 hours, from now or less than 5 minutes later.
   */
  lemma ScanStepInMinutes(db: Db, tenant: Id, now: int, id: Id)
    requires Inv(db) && id in db.appts
    ensures var row, after := db.appts[id], Scan(db, tenant, now);
            var day, hour :=
                Log(row.tenant, Some(id), row.client, Reminder24h), Log(row.tenant, Some(id), row.client, Reminder2h);
            var mine := row.tenant == tenant && row.status == Confirmed;
            && after.logs[day] ==
                 (if mine && now + 1440 <= row.starts < now + 1445 && db.logs[day] == 0 then 1 else db.logs[day])
            && after.logs[hour] ==
                 (if mine && now + 120 <= row.starts < now + 125 && db.logs[hour] == 0 then 1 else db.logs[hour])
            && after == db.(logs := after.logs)
  {
    ScanStep(db, tenant, now, id, Reminder24h);
    ScanStep(db, tenant, now, id, Reminder2h);
  }

  lemma OtherCallsRemindNobody(db: Db, call: Call, log: Log)
    requires !call.Scanning? && Guarded(log.kind)
    ensures Exec(db, call).db.logs[log] == db.logs[log]
  {
    CallsAreQuiet(db, call);
  }

  lemma RowsStay(db: Db, call: Call, id: Id)
    requires id in db.appts
    ensures id in Exec(db, call).db.appts
    ensures forall kind :: LogOf(id, Exec(db, call).db.appts[id], kind) == LogOf(id, db.appts[id], kind)
  {
    CallsAreQuiet(db, call);
  }

  lemma ScanIsExecuted(db: Db, call: Call)
    requires call.Scanning?
    ensures Exec(db, call) == Done(Scan(db, call.tenant, call.now))
  {
  }

  /** The reminder logs of a row after a call: one more if this call is a scan that catches it unreminded. */
  function RemindersAfter(db: Db, call: Call, id: Id, kind: Kind): nat
    requires Guarded(kind) && id in db.appts
  {
    var before := db.logs[LogOf(id, db.appts[id], kind)];
    if before == 0 && Catches(db, call, id, kind) then 1 else before
  }

  lemma ScanReminds(db: Db, call: Call, id: Id, kind: Kind)
    requires Inv(db) && Guarded(kind) && id in db.appts && call.Scanning?
    ensures Exec(db, call).db.logs[LogOf(id, db.appts[id], kind)] == RemindersAfter(db, call, id, kind)
  {
    ScanIsExecuted(db, call);
    ScanStep(db, call.tenant, call.now, id, kind);
  }

  /** One successful call: the appointment is reminded if it was, or if this scan catches it. */
  lemma ReminderStep(db: Db, call: Call, id: Id, kind: Kind)
    requires Inv(db) && Guarded(kind) && id in db.appts
    ensures Exec(db, call).db.logs[LogOf(id, db.appts[id], kind)] == RemindersAfter(db, call, id, kind)
  {
    if call.Scanning? {
      ScanReminds(db, call, id, kind);
    } else {
      OtherCallsRemindNobody(db, call, LogOf(id, db.appts[id], kind));
    }
  }

  /** An appointment that is new after a call has had no reminder. */
  lemma NewRowsAreNotReminded(db: Db, call: Call, id: Id, kind: Kind)
    requires Inv(db) && Guarded(kind) && id !in db.appts && id in Exec(db, call).db.appts
    ensures Exec(db, call).db.logs[LogOf(id, Exec(db, call).db.appts[id], kind)] == 0
  {
    var log := LogOf(id, Exec(db, call).db.appts[id], kind);
    NewRowsHaveNoLogs(db, id, log);
    if !call.Scanning? { OtherCallsRemindNobody(db, call, log); }
  }

  /** One log if the row had one or is caught now; a row that is new has none. */
  lemma ReminderLogs(db: Db, call: Call, id: Id, kind: Kind)
    requires Inv(db) && Guarded(kind) && id in Exec(db, call).db.appts
    ensures var before := if id in db.appts then db.logs[LogOf(id, db.appts[id], kind)] else 0;
            Exec(db, call).db.logs[LogOf(id, Exec(db, call).db.appts[id], kind)] ==
              if before == 0 && Catches(db, call, id, kind) then 1 else before
  {
    if id in db.appts {
      RowsStay(db, call, id);
      ReminderStep(db, call, id, kind);
    } else {
      NewRowsAreNotReminded(db, call, id, kind);
    }
  }

  /**
   Main result: whatever ticks, failing scans, reschedules and other calls a run
   mixes, an appointment has one reminder log of a type if some successful scan
   of the run caught it, and none otherwise.
   */
  lemma {:induction false} RemindedExactlyWhenCaught(run: seq<Attempt>, id: Id, kind: Kind)
    requires Guarded(kind)
    ensures var db := After(run);
            if id in db.appts then
              db.logs[LogOf(id, db.appts[id], kind)] == if Tally(run, CatchOf(id, kind)) > 0 then 1 else 0
            else Tally(run, CatchOf(id, kind)) == 0
    decreases |run|
  {
    if run != [] {
      var before, a := run[..|run| - 1], run[|run| - 1];
      RemindedExactlyWhenCaught(before, id, kind);
      EveryRunKeeps(before);
      if Attempted(After(before), a).error.Some? {
        FailedCallChangesNothing(After(before), a);
      } else {
        CaughtRowsStay(After(before), a.call, id, kind);
        if id in After(run).appts { ReminderLogs(After(before), a.call, id, kind); }
      }
    }
  }

  lemma CaughtRowsStay(db: Db, call: Call, id: Id, kind: Kind)
    requires Guarded(kind)
    ensures id in db.appts ==> id in Exec(db, call).db.appts
    ensures Catches(db, call, id, kind) ==> id in db.appts
  {
    if id in db.appts { RowsStay(db, call, id); }
  }

  // ----- covering the time line

  /** Does a tick at this time remind of a start of this time? */
  predicate Covers(now: int, kind: Kind, starts: int)
    requires Guarded(kind)
  {
    now + LeadTime(kind) <= starts < now + LeadTime(kind) + INTERVAL
  }

  /** Consecutive ticks are at most one interval apart. */
  predicate NoLateTick(ticks: seq<int>) {
    forall k :: 0 < k < |ticks| ==> ticks[k - 1] <= ticks[k] <= ticks[k - 1] + INTERVAL
  }

  /** Between the reminder time of the first tick and the end of the last tick's window. */
  predicate InRange(ticks: seq<int>, kind: Kind, starts: int)
    requires Guarded(kind) && |ticks| > 0
  {
    ticks[0] + LeadTime(kind) <= starts < ticks[|ticks| - 1] + LeadTime(kind) + INTERVAL
  }

  lemma {:induction false} CoveringTick(ticks: seq<int>, kind: Kind, starts: int) returns (k: nat)
    requires Guarded(kind) && |ticks| > 0 && NoLateTick(ticks) && InRange(ticks, kind, starts)
    ensures k < |ticks| && Covers(ticks[k], kind, starts)
  {
    var last := |ticks| - 1;
    if Covers(ticks[last], kind, starts) {
      k := last;
    } else {
      k := CoveringTick(ticks[..last], kind, starts);
    }
  }

  ghost predicate CoversAll(ticks: seq<int>, kind: Kind)
    requires Guarded(kind) && |ticks| > 0
  {
    forall starts :: InRange(ticks, kind, starts) ==> exists k :: 0 <= k < |ticks| && Covers(ticks[k], kind, starts)
  }

  /** Ticks in time order miss no start in their range exactly when none of them is late. */
  lemma NothingMissedExactlyWithoutLateTicks(ticks: seq<int>, kind: Kind)
    requires Guarded(kind) && |ticks| > 0
    requires forall i, j :: 0 <= i <= j < |ticks| ==> ticks[i] <= ticks[j]
    ensures CoversAll(ticks, kind) <==> NoLateTick(ticks)
  {
    if NoLateTick(ticks) {
      forall starts | InRange(ticks, kind, starts)
        ensures exists k :: 0 <= k < |ticks| && Covers(ticks[k], kind, starts)
      {
        var k := CoveringTick(ticks, kind, starts);
      }
    } else {
      var late :| 0 < late < |ticks| && !(ticks[late - 1] <= ticks[late] <= ticks[late - 1] + INTERVAL);
      var missed := ticks[late - 1] + LeadTime(kind) + INTERVAL;
      assert ticks[0] <= ticks[late - 1] <= ticks[late] <= ticks[|ticks| - 1];
      assert InRange(ticks, kind, missed);
      forall k | 0 <= k < |ticks| ensures !Covers(ticks[k], kind, missed) {
        assert k <= late - 1 ==> ticks[k] <= ticks[late - 1];
        assert k >= late ==> ticks[late] <= ticks[k];
      }
    }
  }

  /** How many ticks remind of a start of this time? */
  function CoverCount(ticks: seq<int>, kind: Kind, starts: int): nat
    requires Guarded(kind)
  {
    if ticks == [] then 0
    else CoverCount(ticks[..|ticks| - 1], kind, starts) + (if Covers(ticks[|ticks| - 1], kind, starts) then 1 else 0)
  }

  /** Every start in range is covered by exactly one tick. */
  ghost predicate CoversAllOnce(ticks: seq<int>, kind: Kind)
    requires Guarded(kind) && |ticks| > 0
  {
    forall starts :: InRange(ticks, kind, starts) ==> CoverCount(ticks, kind, starts) == 1
  }

  /** Consecutive ticks are exactly one interval apart. */
  predicate Punctual(ticks: seq<int>) {
    forall k :: 0 < k < |ticks| ==> ticks[k] == ticks[k - 1] + INTERVAL
  }

  lemma {:induction false} PunctualTicks(ticks: seq<int>, k: nat)
    requires Punctual(ticks) && k < |ticks|
    ensures ticks[k] == ticks[0] + k * INTERVAL
  {
    if k > 0 { PunctualTicks(ticks, k - 1); }
  }

  /** Punctual ticks cover a start exactly once if it lies in their range, and never otherwise. */
  lemma {:induction false} PunctualTicksCoverOnce(ticks: seq<int>, kind: Kind, starts: int)
    requires Guarded(kind) && |ticks| > 0 && Punctual(ticks)
    ensures CoverCount(ticks, kind, starts) == if InRange(ticks, kind, starts) then 1 else 0
    decreases |ticks|
  {
    var rest, last := ticks[..|ticks| - 1], ticks[|ticks| - 1];
    if rest == [] {
      assert CoverCount(rest, kind, starts) == 0;
    } else {
      PunctualTicksCoverOnce(rest, kind, starts);
      assert rest[|rest| - 1] == ticks[|ticks| - 2];
      assert last == rest[|rest| - 1] + INTERVAL;
      PunctualTicks(ticks, |ticks| - 2);
    }
  }

  lemma {:induction false} SomeTickCovers(ticks: seq<int>, kind: Kind, starts: int) returns (k: nat)
    requires Guarded(kind) && CoverCount(ticks, kind, starts) > 0
    ensures k < |ticks| && Covers(ticks[k], kind, starts)
  {
    var last := |ticks| - 1;
    if Covers(ticks[last], kind, starts) { k := last; } else { k := SomeTickCovers(ticks[..last], kind, starts); }
  }

  lemma {:induction false} CoveringTickCounts(ticks: seq<int>, kind: Kind, starts: int, k: nat)
    requires Guarded(kind) && k < |ticks| && Covers(ticks[k], kind, starts)
    ensures CoverCount(ticks, kind, starts) >= 1
    decreases |ticks|
  {
    if k < |ticks| - 1 { CoveringTickCounts(ticks[..|ticks| - 1], kind, starts, k); }
  }

  /** Two ticks that cover the same start are counted twice. */
  lemma {:induction false} TwoTicksCountTwice(ticks: seq<int>, kind: Kind, starts: int, j: nat, k: nat)
    requires Guarded(kind) && j < k < |ticks| && Covers(ticks[j], kind, starts) && Covers(ticks[k], kind, starts)
    ensures CoverCount(ticks, kind, starts) >= 2
    decreases |ticks|
  {
    var rest := ticks[..|ticks| - 1];
    if k == |ticks| - 1 {
      CoveringTickCounts(rest, kind, starts, j);
    } else {
      TwoTicksCountTwice(rest, kind, starts, j, k);
    }
  }

  /** An early tick catches a start a second time. */
  lemma EarlyTickCatchesTwice(ticks: seq<int>, kind: Kind, k: nat)
    requires Guarded(kind) && 0 < k < |ticks| && ticks[k - 1] <= ticks[k] < ticks[k - 1] + INTERVAL
    ensures CoverCount(ticks, kind, ticks[k] + LeadTime(kind)) >= 2
  {
    TwoTicksCountTwice(ticks, kind, ticks[k] + LeadTime(kind), k - 1, k);
  }

  /**
   Ticks in time order catch every start in their range exactly once if and
   only if consecutive ones are exactly one interval apart: a late tick misses
   starts, an early one meets some twice.
   */
  lemma CaughtOnceExactlyByPunctualTicks(ticks: seq<int>, kind: Kind)
    requires Guarded(kind) && |ticks| > 0
    requires forall i, j :: 0 <= i <= j < |ticks| ==> ticks[i] <= ticks[j]
    ensures CoversAllOnce(ticks, kind) <==> Punctual(ticks)
  {
    if Punctual(ticks) {
      forall starts | InRange(ticks, kind, starts) ensures CoverCount(ticks, kind, starts) == 1 {
        PunctualTicksCoverOnce(ticks, kind, starts);
      }
    }
    if CoversAllOnce(ticks, kind) {
      forall starts | InRange(ticks, kind, starts)
        ensures exists k :: 0 <= k < |ticks| && Covers(ticks[k], kind, starts)
      {
        var k := SomeTickCovers(ticks, kind, starts);
      }
      NothingMissedExactlyWithoutLateTicks(ticks, kind);
      forall k | 0 < k < |ticks| ensures ticks[k] == ticks[k - 1] + INTERVAL {
        if ticks[k] < ticks[k - 1] + INTERVAL {
          EarlyTickCatchesTwice(ticks, kind, k);
          assert InRange(ticks, kind, ticks[k] + LeadTime(kind));
        }
      }
    }
  }

  lemma {:induction false} TallyCounts(run: seq<Attempt>, p: (Db, Call) -> bool, i: nat)
    requires i < |run| && Attempted(After(run[..i]), run[i]).error.None? && p(After(run[..i]), run[i].call)
    ensures Tally(run, p) > 0
    decreases |run|
  {
    var before := run[..|run| - 1];
    if i < |before| {
      assert before[..i] == run[..i];
      TallyCounts(before, p, i);
    }
  }

  /** The attempt at position i is a successful scan that finds the appointment confirmed at this start. */
  predicate ScansAt(run: seq<Attempt>, i: nat, tenant: Id, now: int, id: Id, starts: int) {
    && i < |run| && run[i].call == Scanning(tenant, now)
    && Attempted(After(run[..i]), run[i]).error.None?
    && id in After(run[..i]).appts
    && StartsConfirmedIn(After(run[..i]).appts[id], tenant, starts, starts + 1)
  }

  /**
   Exactly one reminder: if successful scans of the tenant at positions at come
   without a late tick and find the appointment confirmed at one start time in
   their range, the run logs the reminder once, whatever else it does.
   */
  lemma RemindedExactlyOnce(run: seq<Attempt>, at: seq<nat>, ticks: seq<int>, tenant: Id, id: Id, kind: Kind,
                            starts: int)
    requires Guarded(kind) && |at| == |ticks| > 0
    requires forall k :: 0 <= k < |at| ==> ScansAt(run, at[k], tenant, ticks[k], id, starts)
    requires NoLateTick(ticks) && InRange(ticks, kind, starts)
    ensures id in After(run).appts
    ensures After(run).logs[LogOf(id, After(run).appts[id], kind)] == 1
  {
    var k := CoveringTick(ticks, kind, starts);
    var i := at[k];
    assert ScansAt(run, i, tenant, ticks[k], id, starts);
    assert Catches(After(run[..i]), run[i].call, id, kind);
    TallyCounts(run, CatchOf(id, kind), i);
    RemindedExactlyWhenCaught(run, id, kind);
  }

  // ----- which scans succeed

  /** All reminders one scan sends. */
  function AllReminders(db: Db, tenant: Id, now: int): set<Log> {
    NewReminders(db, tenant, Reminder24h, now) + NewReminders(db, tenant, Reminder2h, now)
  }

  lemma ScanSendsAll(db: Db, tenant: Id, now: int, log: Log)
    ensures Scan(db, tenant, now).logs[log] == db.logs[log] + (if log in AllReminders(db, tenant, now) then 1 else 0)
  {
    var first, second := NewReminders(db, tenant, Reminder24h, now), NewReminders(db, tenant, Reminder2h, now);
    OtherKindIsBlind(db, tenant, now);
    assert Scan(db, tenant, now).logs == db.logs + multiset(first) + multiset(second);
    assert log in first ==> log.kind == Reminder24h;
    assert log in second ==> log.kind == Reminder2h;
  }

  /** A scan goes through exactly if each of its new reminders can be sent; a failing one logs nothing. */
  lemma ScanSucceedsExactlyWhenSent(db: Db, tenant: Id, now: int, down: set<Log>)
    ensures Delivered(db, Done(Scan(db, tenant, now)), down) ==
              if AllReminders(db, tenant, now) !! down then Done(Scan(db, tenant, now)) else Fail(db, Unsent)
  {
    var after := Scan(db, tenant, now);
    forall log ensures after.logs[log] > db.logs[log] <==> log in AllReminders(db, tenant, now) {
      ScanSendsAll(db, tenant, now, log);
    }
    assert Undelivered(db, after, down) <==> !(AllReminders(db, tenant, now) !! down);
  }

  /** The reminders of one type do not depend on those of the other sent in the same scan. */
  lemma OtherKindIsBlind(db: Db, tenant: Id, now: int)
    ensures NewReminders(Remind(db, tenant, Reminder24h, now), tenant, Reminder2h, now) ==
              NewReminders(db, tenant, Reminder2h, now)
  {
    var mid := Remind(db, tenant, Reminder24h, now);
    forall id: Id
      ensures AlreadySent(mid.logs, tenant, id, Reminder2h) <==> AlreadySent(db.logs, tenant, id, Reminder2h)
    {
      SecondKindUntouched(db, tenant, now, id);
    }
  }

  lemma SecondKindUntouched(db: Db, tenant: Id, now: int, id: Id)
    ensures AlreadySent(Remind(db, tenant, Reminder24h, now).logs, tenant, id, Reminder2h) <==>
              AlreadySent(db.logs, tenant, id, Reminder2h)
  {
    var mid := Remind(db, tenant, Reminder24h, now);
    if log :| log in db.logs && log.tenant == tenant && log.appointment == Some(id) && log.kind == Reminder2h {
      assert log in mid.logs;
    }
    if log :| log in mid.logs && log.tenant == tenant && log.appointment == Some(id) && log.kind == Reminder2h {
      assert log in db.logs;
    }
  }
}
