/**
 What every committed state keeps, proved write by write and service call by
 service call: slots, status histories, notification counts and payments.
 */
module Invariant {
  import opened Calendar
  import opened Ledger

  // ----- histories

  function HistoryOf(history: seq<Entry>, id: Id): seq<Entry> {
    if history == [] then []
    else
      var e := history[|history| - 1];
      HistoryOf(history[..|history| - 1], id) + (if e.appt == id then [e] else [])
  }

  /** How often the appointment entered the status. */
  function Entries(history: seq<Entry>, id: Id, to: Status): nat {
    if history == [] then 0
    else
      var e := history[|history| - 1];
      Entries(history[..|history| - 1], id, to) + (if e.appt == id && e.to == to then 1 else 0)
  }

  /** A connected path of the transition graph that starts a life and ends in the given status. */
  predicate IsPath(path: seq<Entry>, last: Status) {
    && |path| > 0
    && path[0].from == None && (path[0].to == Pending || path[0].to == Confirmed)
    && (forall k :: 1 <= k < |path| ==> path[k].from == Some(path[k - 1].to) && Allowed(path[k - 1].to, path[k].to))
    && path[|path| - 1].to == last
  }

  lemma HistoryGrows(history: seq<Entry>, e: Entry)
    ensures forall id :: HistoryOf(history + [e], id) == HistoryOf(history, id) + (if e.appt == id then [e] else [])
    ensures forall id, to ::
              Entries(history + [e], id, to) == Entries(history, id, to) + (if e.appt == id && e.to == to then 1 else 0)
  {
    assert (history + [e])[..|history|] == history;
  }

  /** The graph has no cycle, so a life has at most three entries and enters each status at most once. */
  lemma PathsAreShort(path: seq<Entry>, last: Status)
    requires IsPath(path, last)
    ensures |path| <= 3
    ensures forall i, j :: 0 <= i < j < |path| ==> path[i].to != path[j].to
    ensures last != Rescheduled
  {
    assert |path| > 1 ==> Allowed(path[0].to, path[1].to);
    assert |path| > 2 ==> Allowed(path[1].to, path[2].to);
    assert |path| > 3 ==> Allowed(path[2].to, path[3].to);
  }

  // ----- the invariant of every run

  predicate RowOk(db: Db, row: Appt) {
    && (row.noShow ==> row.status == Cancelled)
    && FindService(db, row.tenant, row.service).Some?
  }

  ghost predicate RowsOk(db: Db) {
    && PositiveLengths(db.appts)
    && ExclusionHolds(db.appts)
    && forall id :: id in db.appts ==> RowOk(db, db.appts[id])
  }

  ghost predicate CatalogOk(db: Db) {
    forall id :: id in db.catalog.services ==> ServiceOk(db.catalog.services[id])
  }

  ghost predicate LifeOk(appts: Appts, history: seq<Entry>, id: Id) {
    if id in appts then IsPath(HistoryOf(history, id), appts[id].status)
    else HistoryOf(history, id) == [] && forall s :: Entries(history, id, s) == 0
  }

  ghost predicate HistoryOk(db: Db) {
    forall id :: LifeOk(db.appts, db.history, id)
  }

  /** The log of this kind that belongs to the row of id. */
  function LogOf(id: Id, row: Appt, kind: Kind): Log {
    Log(row.tenant, Some(id), row.client, kind)
  }

  /** One confirmation per entry into CONFIRMED, one cancellation per entry into CANCELLED, reminders at most once. */
  predicate CountsOk(logs: multiset<Log>, history: seq<Entry>, id: Id, row: Appt) {
    && logs[LogOf(id, row, Confirmation)] == Entries(history, id, Confirmed)
    && logs[LogOf(id, row, Cancellation)] == Entries(history, id, Cancelled)
    && logs[LogOf(id, row, Reminder24h)] <= 1
    && logs[LogOf(id, row, Reminder2h)] <= 1
  }

  /** A log about an appointment names that appointment's tenant and client. */
  predicate LogKnown(appts: Appts, log: Log) {
    log.appointment.Some? ==>
      log.appointment.value in appts && log == LogOf(log.appointment.value, appts[log.appointment.value], log.kind)
  }

  ghost predicate LogsOk(db: Db) {
    && (forall id :: id in db.appts ==> CountsOk(db.logs, db.history, id, db.appts[id]))
    && (forall log :: log in db.logs ==> LogKnown(db.appts, log))
  }

  predicate PaymentOk(db: Db, p: Payment) {
    && FindAppt(db, p.tenant, p.appt).Some?
    && (p.status == Approved ==> p.paid && db.appts[p.appt].status != Pending)
  }

  ghost predicate PaymentsOk(db: Db) {
    forall id :: id in db.payments ==> PaymentOk(db, db.payments[id])
  }

  ghost predicate Inv(db: Db) {
    RowsOk(db) && CatalogOk(db) && HistoryOk(db) && LogsOk(db) && PaymentsOk(db)
  }

  // ----- the invariant, write by write

  /** Writes that leave appointments, history and logs alone need to look at services and payments only. */
  lemma SameRowsKeep(db: Db, after: Db)
    requires Inv(db)
    requires after.appts == db.appts && after.history == db.history && after.logs == db.logs
    requires CatalogOk(after) && PaymentsOk(after)
    requires forall id :: id in db.catalog.services ==>
               id in after.catalog.services && after.catalog.services[id].tenant == db.catalog.services[id].tenant
    ensures Inv(after)
  {
    forall id | id in after.appts ensures RowOk(after, after.appts[id]) {
      assert RowOk(db, db.appts[id]);
    }
  }

  lemma LogsWriteKeeps(db: Db, logs: multiset<Log>)
    requires Inv(db) && LogsOk(db.(logs := logs))
    ensures Inv(db.(logs := logs))
  {
    var after := db.(logs := logs);
    forall i ensures LifeOk(after.appts, after.history, i) {
      assert LifeOk(db.appts, db.history, i);
    }
    forall i | i in after.appts ensures RowOk(after, after.appts[i]) {
      assert RowOk(db, db.appts[i]);
    }
    forall p | p in after.payments ensures PaymentOk(after, after.payments[p]) {
      assert PaymentOk(db, db.payments[p]);
    }
  }

  lemma ClientsWriteKeeps(db: Db, clients: seq<Client>)
    requires Inv(db)
    ensures Inv(db.(clients := clients))
  {
    var after := db.(clients := clients);
    forall p | p in after.payments ensures PaymentOk(after, after.payments[p]) {
      assert PaymentOk(db, db.payments[p]);
    }
    SameRowsKeep(db, after);
  }

  lemma WaitlistWriteKeeps(db: Db, waitlist: seq<WaitEntry>)
    requires Inv(db)
    ensures Inv(db.(waitlist := waitlist))
  {
    var after := db.(waitlist := waitlist);
    forall p | p in after.payments ensures PaymentOk(after, after.payments[p]) {
      assert PaymentOk(db, db.payments[p]);
    }
    SameRowsKeep(db, after);
  }

  /** Catalog changes that keep each service's owner, a positive duration and a complete deposit policy. */
  lemma CatalogWriteKeeps(db: Db, catalog: Catalog)
    requires Inv(db)
    requires forall id :: id in catalog.services ==> ServiceOk(catalog.services[id])
    requires forall id :: id in db.catalog.services ==>
               id in catalog.services && catalog.services[id].tenant == db.catalog.services[id].tenant
    ensures Inv(db.(catalog := catalog))
  {
    var after := db.(catalog := catalog);
    forall p | p in after.payments ensures PaymentOk(after, after.payments[p]) {
      assert PaymentOk(db, db.payments[p]);
    }
    SameRowsKeep(db, after);
  }

  /** A new version of an existing row, which keeps its place in the constraints. */
  lemma RowsKept(db: Db, after: Db, id: Id, row: Appt)
    requires RowsOk(db) && Admits(db.appts, id, row)
    requires after.appts == db.appts[id := row] && after.catalog == db.catalog
    requires row.starts < row.ends && RowOk(db, row)
    ensures RowsOk(after)
  {
    AdmittedWriteKeepsExclusion(db.appts, id, row);
    forall i | i in after.appts ensures RowOk(after, after.appts[i]) {
      if i != id { assert RowOk(db, db.appts[i]); }
    }
  }

  /** One more history entry of id keeps every life a path. */
  lemma HistoryKept(db: Db, after: Db, id: Id, row: Appt)
    requires HistoryOk(db)
    requires after.appts == db.appts[id := row]
    requires if id in db.appts then Allowed(db.appts[id].status, row.status)
               else row.status == Pending || row.status == Confirmed
    requires after.history ==
               db.history + [Entry(id, if id in db.appts then Some(db.appts[id].status) else None, row.status)]
    ensures HistoryOk(after)
  {
    HistoryGrows(db.history, after.history[|db.history|]);
    forall i ensures LifeOk(after.appts, after.history, i) {
      assert LifeOk(db.appts, db.history, i);
    }
  }

  lemma PaymentsKept(db: Db, after: Db, id: Id, row: Appt)
    requires PaymentsOk(db)
    requires after.payments == db.payments && after.appts == db.appts[id := row]
    requires id in db.appts ==>
               row.tenant == db.appts[id].tenant && (row.status == Pending ==> db.appts[id].status == Pending)
    ensures PaymentsOk(after)
  {
    forall p | p in after.payments ensures PaymentOk(after, after.payments[p]) {
      assert PaymentOk(db, db.payments[p]);
    }
  }

  /** The kind of notification a row version of this status announces. */
  function Announces(status: Status): Option<Kind> {
    match status
    case Confirmed => Some(Confirmation)
    case Cancelled => Some(Cancellation)
    case _ => None
  }

  /** One history entry of id and the one log it calls for keep the counts of every row. */
  lemma CountsKept(logs: multiset<Log>, history: seq<Entry>, i: Id, row: Appt, id: Id, changed: Appt,
                   from: Option<Status>)
    requires CountsOk(logs, history, i, row)
    requires i == id ==> row.tenant == changed.tenant && row.client == changed.client
    ensures var logs' :=
              if Announces(changed.status).Some?
                  then logs + multiset{LogOf(id, changed, Announces(changed.status).value)} else logs;
            CountsOk(logs', history + [Entry(id, from, changed.status)], i, if i == id then changed else row)
  {
    HistoryGrows(history, Entry(id, from, changed.status));
  }

  lemma LogsKept(db: Db, after: Db, id: Id, row: Appt, from: Option<Status>)
    requires LogsOk(db) && LifeOk(db.appts, db.history, id)
    requires after.appts == db.appts[id := row]
    requires id in db.appts ==> row.tenant == db.appts[id].tenant && row.client == db.appts[id].client
    requires after.history == db.history + [Entry(id, from, row.status)]
    requires after.logs ==
               (if Announces(row.status).Some? then db.logs + multiset{LogOf(id, row, Announces(row.status).value)}
                   else db.logs)
    ensures LogsOk(after)
  {
    if id !in db.appts {
      assert forall log :: log in db.logs ==> LogKnown(db.appts, log);
      assert forall kind :: LogOf(id, row, kind) !in db.logs;
      assert CountsOk(db.logs, db.history, id, row);
    }
    forall i | i in after.appts ensures CountsOk(after.logs, after.history, i, after.appts[i]) {
      CountsKept(db.logs, db.history, i, if i in db.appts then db.appts[i] else row, id, row, from);
    }
    forall log | log in after.logs ensures LogKnown(after.appts, log) {
      assert log in db.logs ==> LogKnown(db.appts, log);
    }
  }

  lemma InsertKeeps(db: Db, id: Id, row: Appt)
    requires Inv(db) && id !in db.appts && Admits(db.appts, id, row)
    requires row.starts < row.ends && RowOk(db, row) && (row.status == Pending || row.status == Confirmed)
    ensures Inv(Insert(db, id, row))
  {
    var after := Insert(db, id, row);
    RowsKept(db, after, id, row);
    HistoryKept(db, after, id, row);
    PaymentsKept(db, after, id, row);
    assert LifeOk(db.appts, db.history, id);
    LogsKept(db, after, id, row, None);
  }

  /** A status change together with the notification it sends. */
  lemma MoveKeeps(db: Db, id: Id, row: Appt, after: Db)
    requires Inv(db) && id in db.appts && Admits(db.appts, id, row)
    requires row == db.appts[id].(status := row.status, noShow := row.noShow) &&
               Allowed(db.appts[id].status, row.status)
    requires row.noShow ==> row.status == Cancelled
    requires var moved := WriteStatus(db, id, row, db.appts[id].status);
             var kind := Announces(row.status);
             after == if kind.Some? then Send(moved, row.tenant, Some(id), row.client, kind.value) else moved
    ensures Inv(after)
  {
    assert RowOk(db, db.appts[id]);
    RowsKept(db, after, id, row);
    HistoryKept(db, after, id, row);
    PaymentsKept(db, after, id, row);
    assert LifeOk(db.appts, db.history, id);
    LogsKept(db, after, id, row, Some(db.appts[id].status));
  }

  // ----- the invariant, call by call

  lemma ConfirmKeeps(db: Db, tenant: Id, id: Id)
    requires Inv(db)
    ensures Inv(Confirm(db, tenant, id).db)
  {
    var moved := Transition(db, tenant, id, Confirmed, false);
    if moved.error.None? {
      assert RowOk(db, db.appts[id]);
      MoveKeeps(db, id, moved.db.appts[id], Confirm(db, tenant, id).db);
    }
  }

  lemma CompleteKeeps(db: Db, tenant: Id, id: Id)
    requires Inv(db)
    ensures Inv(Complete(db, tenant, id).db)
  {
    var moved := Complete(db, tenant, id);
    if moved.error.None? {
      assert RowOk(db, db.appts[id]);
      MoveKeeps(db, id, moved.db.appts[id], moved.db);
    }
  }

  /** A log that is about no appointment changes no count. */
  lemma OfferKeeps(db: Db, tenant: Id, client: Id)
    requires Inv(db)
    ensures Inv(Send(db, tenant, None, client, WaitlistPromotion))
  {
    var after := Send(db, tenant, None, client, WaitlistPromotion);
    forall i | i in after.appts ensures CountsOk(after.logs, after.history, i, after.appts[i]) {
      assert CountsOk(db.logs, db.history, i, db.appts[i]);
    }
    forall log | log in after.logs ensures LogKnown(after.appts, log) {
      if log in db.logs { assert LogKnown(db.appts, log); }
    }
    LogsWriteKeeps(db, after.logs);
  }

  lemma PromoteKeeps(db: Db, tenant: Id, freed: Appt)
    requires Inv(db)
    ensures Inv(Promote(db, tenant, freed))
  {
    var k := NextInLine(db, tenant, freed);
    if k.Some? {
      var waitlist := db.waitlist[k.value := db.waitlist[k.value].(status := Promoted)];
      WaitlistWriteKeeps(db, waitlist);
      OfferKeeps(db.(waitlist := waitlist), tenant, db.waitlist[k.value].client);
    }
  }

  /** The steps of a successful cancellation: the status, its notification, the promotion. */
  lemma CancelSteps(db: Db, tenant: Id, id: Id, noShow: bool) returns (moved: Db, told: Db, row: Appt)
    requires Cancel(db, tenant, id, noShow).error.None?
    ensures FindAppt(db, tenant, id).Some? && Allowed(db.appts[id].status, Cancelled)
    ensures row == db.appts[id].(status := Cancelled, noShow := noShow || db.appts[id].noShow) &&
              Admits(db.appts, id, row)
    ensures moved == WriteStatus(db, id, row, db.appts[id].status) &&
              Transition(db, tenant, id, Cancelled, noShow) == Done(moved)
    ensures told == moved.(logs := db.logs + multiset{LogOf(id, row, Cancellation)})
    ensures told == Send(moved, tenant, Some(id), row.client, Cancellation)
    ensures Cancel(db, tenant, id, noShow).db == Promote(told, tenant, row)
  {
    moved := Transition(db, tenant, id, Cancelled, noShow).db;
    row := moved.appts[id];
    told := Send(moved, tenant, Some(id), row.client, Cancellation);
  }

  lemma CancelKeeps(db: Db, tenant: Id, id: Id, noShow: bool)
    requires Inv(db)
    ensures Inv(Cancel(db, tenant, id, noShow).db)
  {
    if Cancel(db, tenant, id, noShow).error.None? {
      var moved, told, row := CancelSteps(db, tenant, id, noShow);
      MoveKeeps(db, id, row, told);
      PromoteKeeps(told, tenant, row);
    }
  }

  /** New times of a row touch neither its life nor any counted log but the reschedule's own. */
  lemma NewTimesKeepBooks(db: Db, after: Db, id: Id, row: Appt)
    requires LogsOk(db) && HistoryOk(db) && id in db.appts
    requires row == db.appts[id].(starts := row.starts, ends := row.ends)
    requires after.appts == db.appts[id := row] && after.history == db.history
    requires after.logs == db.logs + multiset{LogOf(id, row, Reschedule)}
    ensures LogsOk(after) && HistoryOk(after)
  {
    forall i ensures LifeOk(after.appts, after.history, i) {
      assert LifeOk(db.appts, db.history, i);
    }
    forall i | i in after.appts ensures CountsOk(after.logs, after.history, i, after.appts[i]) {
      RescheduleLogIsNotCounted(db.logs, db.history, i, db.appts[i], LogOf(id, row, Reschedule));
    }
    forall log | log in after.logs ensures LogKnown(after.appts, log) {
      assert log in db.logs ==> LogKnown(db.appts, log);
    }
  }

  lemma RescheduleLogIsNotCounted(logs: multiset<Log>, history: seq<Entry>, i: Id, row: Appt, log: Log)
    requires CountsOk(logs, history, i, row) && log.kind == Reschedule
    ensures CountsOk(logs + multiset{log}, history, i, row)
  {
  }

  /** New times that the constraints admit, with their log. */
  lemma NewTimesKeep(db: Db, id: Id, row: Appt, after: Db)
    requires Inv(db) && id in db.appts && Admits(db.appts, id, row) && row.starts < row.ends
    requires row == db.appts[id].(starts := row.starts, ends := row.ends)
    requires after == db.(appts := db.appts[id := row], logs := db.logs + multiset{LogOf(id, row, Reschedule)})
    ensures Inv(after)
  {
    assert RowOk(db, db.appts[id]);
    RowsKept(db, after, id, row);
    PaymentsKept(db, after, id, row);
    NewTimesKeepBooks(db, after, id, row);
  }

  /** What a successful reschedule writes. */
  lemma RescheduleWrites(db: Db, tenant: Id, id: Id, starts: int) returns (row: Appt)
    requires RescheduleTo(db, tenant, id, starts).error.None?
    ensures FindAppt(db, tenant, id).Some? && FindService(db, tenant, db.appts[id].service).Some?
    ensures row == db.appts[id].(starts := starts,
              ends := starts + FindService(db, tenant, db.appts[id].service).value.duration)
    ensures Admits(db.appts, id, row)
    ensures RescheduleTo(db, tenant, id, starts).db ==
              db.(appts := db.appts[id := row], logs := db.logs + multiset{LogOf(id, row, Reschedule)})
  {
    row := db.appts[id].(starts := starts,
        ends := starts + FindService(db, tenant, db.appts[id].service).value.duration);
  }

  lemma RescheduleKeeps(db: Db, tenant: Id, id: Id, starts: int)
    requires Inv(db)
    ensures Inv(RescheduleTo(db, tenant, id, starts).db)
  {
    var out := RescheduleTo(db, tenant, id, starts);
    if out.error.None? {
      var row := RescheduleWrites(db, tenant, id, starts);
      assert ServiceOk(FindService(db, tenant, row.service).value);
      NewTimesKeep(db, id, row, out.db);
    }
  }

  lemma CreateKeeps(db: Db, tenant: Id, id: Id, req: Request)
    requires Inv(db)
    ensures Inv(CreateAppointment(db, tenant, id, req).db)
  {
    if CreateAppointment(db, tenant, id, req).error.None? {
      var service := FindService(db, tenant, req.service).value;
      assert ServiceOk(service);
      InsertKeeps(db, id, NewRow(tenant, req, service));
    }
  }

  lemma TransitionIgnoresPayments(db: Db, payments: map<Id, Payment>, tenant: Id, id: Id, to: Status)
    ensures Transition(db.(payments := payments), tenant, id, to, false).error ==
              Transition(db, tenant, id, to, false).error
    ensures Transition(db.(payments := payments), tenant, id, to, false).db ==
              Transition(db, tenant, id, to, false).db.(payments := payments)
    ensures Transition(db, tenant, id, to, false).db.payments == db.payments &&
              Transition(db, tenant, id, to, false).db.catalog == db.catalog
  {
  }

  lemma ConfirmIgnoresPayments(db: Db, payments: map<Id, Payment>, tenant: Id, id: Id)
    ensures Confirm(db.(payments := payments), tenant, id).error == Confirm(db, tenant, id).error
    ensures Confirm(db.(payments := payments), tenant, id).db == Confirm(db, tenant, id).db.(payments := payments)
    ensures Confirm(db, tenant, id).db.payments == db.payments && Confirm(db, tenant, id).db.catalog == db.catalog
  {
    TransitionIgnoresPayments(db, payments, tenant, id, Confirmed);
  }

  /** Writing one payment record that fits its appointment. */
  lemma PaymentWriteKeeps(db: Db, id: Id, record: Payment)
    requires Inv(db) && PaymentOk(db, record)
    ensures Inv(db.(payments := db.payments[id := record]))
  {
    var after := db.(payments := db.payments[id := record]);
    forall p | p in after.payments ensures PaymentOk(after, after.payments[p]) {
      if p != id { assert PaymentOk(db, db.payments[p]); }
    }
    SameRowsKeep(db, after);
  }

  lemma SettleKeeps(db: Db, tenant: Id, id: Id, record: Payment)
    requires Inv(db)
    requires record.tenant == tenant && FindAppt(db, tenant, record.appt).Some?
    requires record.status == Approved ==> record.paid
    ensures Inv(Settle(db, tenant, id, record).db)
  {
    if record.status == Approved && db.appts[record.appt].status == Pending {
      var confirmed := Confirm(db, tenant, record.appt);
      ConfirmKeeps(db, tenant, record.appt);
      ConfirmIgnoresPayments(db, db.payments[id := record], tenant, record.appt);
      if confirmed.error.None? {
        PaymentWriteKeeps(confirmed.db, id, record);
      }
    } else {
      PaymentWriteKeeps(db, id, record);
    }
  }

  lemma ChargeKeeps(db: Db, tenant: Id, appt: Id, id: Id, charge: Option<ChargeStatus>)
    requires Inv(db)
    ensures Inv(CreateDepositCharge(db, tenant, appt, id, charge).db)
  {
    if CreateDepositCharge(db, tenant, appt, id, charge).error.None? {
      var service := db.catalog.services[db.appts[appt].service];
      SettleKeeps(db, tenant, id, ChargeRecord(tenant, appt, service, StatusOf(charge.value)));
    }
  }

  lemma ApplyKeeps(db: Db, tenant: Id, id: Id, status: PaymentStatus)
    requires Inv(db) && FindPayment(db, tenant, id).Some?
    ensures Inv(ApplyStatus(db, tenant, id, status).db)
  {
    var record := db.payments[id];
    assert PaymentOk(db, record);
    SettleKeeps(db, tenant, id, record.(status := status, paid := record.paid || status == Approved));
  }

  lemma RefreshKeeps(db: Db, tenant: Id, id: Id, charge: Option<ChargeStatus>)
    requires Inv(db)
    ensures Inv(RefreshPayment(db, tenant, id, charge).db)
  {
    if FindPayment(db, tenant, id).Some? && charge.Some? {
      ApplyKeeps(db, tenant, id, StatusOf(charge.value));
    }
  }

  /** One reminder round adds to a count exactly when the row is due and has had no such reminder. */
  lemma RemindCounts(db: Db, tenant: Id, kind: Kind, now: int, id: Id, k: Kind)
    requires Guarded(kind) && id in db.appts
    ensures var log := LogOf(id, db.appts[id], k);
            Remind(db, tenant, kind, now).logs[log] ==
              db.logs[log] +
                  (if k == kind && Due(db.appts[id], tenant, kind, now) && !AlreadySent(db.logs, tenant, id, kind)
                      then 1 else 0)
  {
    var log := LogOf(id, db.appts[id], k);
    var sent := NewReminders(db, tenant, kind, now);
    assert log in sent <==>
        k == kind && Due(db.appts[id], tenant, kind, now) && !AlreadySent(db.logs, tenant, id, kind);
    assert multiset(sent)[log] == if log in sent then 1 else 0;
  }

  lemma RemindKeepsLogs(db: Db, tenant: Id, kind: Kind, now: int)
    requires LogsOk(db) && Guarded(kind)
    ensures LogsOk(Remind(db, tenant, kind, now))
  {
    var after := Remind(db, tenant, kind, now);
    forall i | i in after.appts ensures CountsOk(after.logs, after.history, i, after.appts[i]) {
      assert CountsOk(db.logs, db.history, i, db.appts[i]);
      RemindCounts(db, tenant, kind, now, i, Confirmation);
      RemindCounts(db, tenant, kind, now, i, Cancellation);
      RemindCounts(db, tenant, kind, now, i, Reminder24h);
      RemindCounts(db, tenant, kind, now, i, Reminder2h);
      assert LogOf(i, db.appts[i], kind) in db.logs && db.appts[i].tenant == tenant ==>
          AlreadySent(db.logs, tenant, i, kind);
    }
    forall log | log in after.logs ensures LogKnown(after.appts, log) {
      if log in db.logs { assert LogKnown(db.appts, log); }
    }
  }

  lemma RemindKeeps(db: Db, tenant: Id, kind: Kind, now: int)
    requires Inv(db) && Guarded(kind)
    ensures Inv(Remind(db, tenant, kind, now))
  {
    RemindKeepsLogs(db, tenant, kind, now);
    LogsWriteKeeps(db, Remind(db, tenant, kind, now).logs);
  }
}
