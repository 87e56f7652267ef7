/**
 What each call comes to, written out in the rows it reads and writes: which
 state it needs, which error it gives otherwise, and each field it leaves.
 Nothing here is stated through the functions that compute it.
 */
module Outcomes {
  import opened Calendar
  import opened Ledger
  import opened Invariant
  import opened Runs
  import opened PaymentRuns
  import opened Failures
  import opened References

  // ----- slots

  /** Some appointment that is not cancelled has this employee during part of [from, to). */
  predicate EmployeeBusy(db: Db, tenant: Id, employee: Id, from: int, to: int, except: Option<Id>) {
    exists j :: j in db.appts && except != Some(j) && db.appts[j].tenant == tenant && db.appts[j].status != Cancelled
      && db.appts[j].employee == employee && db.appts[j].starts < to && from < db.appts[j].ends
  }

  /** Some appointment that is not cancelled has this room during part of [from, to). */
  predicate RoomBusy(db: Db, tenant: Id, room: Id, from: int, to: int, except: Option<Id>) {
    exists j :: j in db.appts && except != Some(j) && db.appts[j].tenant == tenant && db.appts[j].status != Cancelled
      && db.appts[j].room == Some(room) && db.appts[j].starts < to && from < db.appts[j].ends
  }

  predicate SlotBusy(db: Db, tenant: Id, employee: Id, room: Option<Id>, from: int, to: int, except: Option<Id>) {
    || EmployeeBusy(db, tenant, employee, from, to, except)
    || (room.Some? && RoomBusy(db, tenant, room.value, from, to, except))
  }

  lemma QueryReadsTheSlot(db: Db, tenant: Id, employee: Id, room: Option<Id>, from: int, to: int, except: Option<Id>)
    ensures EmployeeTaken(db.appts, tenant, employee, from, to, except) <==>
              EmployeeBusy(db, tenant, employee, from, to, except)
    ensures RoomTaken(db.appts, tenant, room, from, to, except) <==>
              room.Some? && RoomBusy(db, tenant, room.value, from, to, except)
    ensures HasConflict(db.appts, tenant, employee, room, from, to, except) <==>
              SlotBusy(db, tenant, employee, room, from, to, except)
  {
  }

  lemma ConstraintsReadTheSlot(db: Db, id: Id, row: Appt)
    requires PositiveLengths(db.appts) && row.starts < row.ends && row.status != Cancelled
    ensures Admits(db.appts, id, row) <==>
              !SlotBusy(db, row.tenant, row.employee, row.room, row.starts, row.ends, Some(id))
  {
    QueryEqualsConstraint(db.appts, id, row);
    QueryReadsTheSlot(db, row.tenant, row.employee, row.room, row.starts, row.ends, Some(id));
  }

  /** Leaving out an id that has no row leaves out nothing. */
  lemma NobodyToExcept(db: Db, tenant: Id, employee: Id, room: Option<Id>, from: int, to: int, id: Id)
    requires id !in db.appts
    ensures SlotBusy(db, tenant, employee, room, from, to, Some(id)) <==>
              SlotBusy(db, tenant, employee, room, from, to, None)
  {
  }

  // ----- create

  /** The rows a request names exist, the room only if the service uses one. */
  predicate Refers(db: Db, tenant: Id, req: Request) {
    && req.service in db.catalog.services && db.catalog.services[req.service].tenant == tenant
    && (exists k :: 0 <= k < |db.clients| && db.clients[k].id == req.client && db.clients[k].tenant == tenant)
    && req.employee in db.catalog.employees && db.catalog.employees[req.employee].tenant == tenant
    && (db.catalog.services[req.service].requiresRoom && req.room.Some? ==>
          exists k :: 0 <= k < |db.catalog.rooms|
            && db.catalog.rooms[k].id == req.room.value && db.catalog.rooms[k].tenant == tenant)
  }

  /** The new row and nothing else of the appointments, its first history entry, and a staff booking's confirmation. */
  ghost predicate Created(db: Db, after: Db, tenant: Id, id: Id, req: Request)
    requires req.service in db.catalog.services
  {
    && id in after.appts
    && var row, service := after.appts[id], db.catalog.services[req.service];
    && row.tenant == tenant && row.client == req.client && row.employee == req.employee && row.service == req.service
    && row.starts == req.starts && row.ends == req.starts + service.duration
    && row.room == (if service.requiresRoom then req.room else None)
    && row.status == (if req.source == Staff then Confirmed else Pending)
    && row.source == req.source && !row.noShow
    && after == db.(appts := db.appts[id := row], history := db.history + [Entry(id, None, row.status)],
         logs := after.logs)
    && after.logs == if req.source == Staff
         then db.logs + multiset{Log(tenant, Some(id), req.client, Confirmation)} else db.logs
  }

  /** A create needs its references and a free slot, in that order, and then leaves exactly the row it was asked for. */
  lemma CreateOutcome(db: Db, tenant: Id, id: Id, req: Request)
    requires Inv(db)
    ensures var out := CreateAppointment(db, tenant, id, req);
            if !Refers(db, tenant, req) then out == Fail(db, NotFound)
            else
              var service := db.catalog.services[req.service];
              var room := if service.requiresRoom then req.room else None;
              if id in db.appts ||
                  SlotBusy(db, tenant, req.employee, room, req.starts, req.starts + service.duration, None)
              then out == Fail(db, Conflict)
              else out.error.None? && Created(db, out.db, tenant, id, req)
  {
    if Refers(db, tenant, req) {
      var service := db.catalog.services[req.service];
      var row := Appt(tenant, req.client, req.employee, req.service, if service.requiresRoom then req.room else None,
                      req.starts, req.starts + service.duration, if req.source == Staff then Confirmed else Pending,
                      req.source, false);
      assert ServiceOk(service);
      CreateWithReferences(db, tenant, id, req, row);
    }
  }

  lemma CreateWithReferences(db: Db, tenant: Id, id: Id, req: Request, row: Appt)
    requires PositiveLengths(db.appts) && Refers(db, tenant, req) && row.starts < row.ends
    requires var service := db.catalog.services[req.service];
             row == Appt(tenant, req.client, req.employee, req.service, if service.requiresRoom then req.room else None,
                         req.starts, req.starts + service.duration, if req.source == Staff then Confirmed else Pending,
                         req.source, false)
    ensures var out := CreateAppointment(db, tenant, id, req);
            if id in db.appts || SlotBusy(db, tenant, req.employee, row.room, row.starts, row.ends, None)
            then out == Fail(db, Conflict)
            else out.error.None? && Created(db, out.db, tenant, id, req)
  {
    QueryReadsTheSlot(db, tenant, req.employee, row.room, row.starts, row.ends, None);
    if id !in db.appts {
      NobodyToExcept(db, tenant, req.employee, row.room, row.starts, row.ends, id);
      ConstraintsReadTheSlot(db, id, row);
    }
  }

  /** A room that was asked for twice is never used twice at a time. */
  lemma RoomIsNotShared(db: Db, tenant: Id, id: Id, req: Request, id': Id, req': Request)
    requires Inv(db) && CreateAppointment(db, tenant, id, req).error.None?
    requires CreateAppointment(CreateAppointment(db, tenant, id, req).db, tenant, id', req').error.None?
    requires req.room.Some? && req.room == req'.room
    requires req.service in db.catalog.services && db.catalog.services[req.service].requiresRoom
    requires req'.service in db.catalog.services && db.catalog.services[req'.service].requiresRoom
    ensures || req.starts + db.catalog.services[req.service].duration <= req'.starts
            || req'.starts + db.catalog.services[req'.service].duration <= req.starts
  {
    CreateOutcome(db, tenant, id, req);
    var mid := CreateAppointment(db, tenant, id, req).db;
    CreateKeeps(db, tenant, id, req);
    CreateOutcome(mid, tenant, id', req');
    assert mid.appts[id].room == req.room;
  }

  // ----- status changes and reschedules

  predicate Owned(db: Db, tenant: Id, id: Id) {
    id in db.appts && db.appts[id].tenant == tenant
  }

  /** Confirming needs a pending row; it changes the status, adds the history entry and the message. */
  lemma ConfirmOutcome(db: Db, tenant: Id, id: Id)
    requires Inv(db)
    ensures var out := Confirm(db, tenant, id);
            if !Owned(db, tenant, id) then out == Fail(db, NotFound)
            else if db.appts[id].status != Pending then out == Fail(db, Conflict)
            else out == Done(db.(appts := db.appts[id := db.appts[id].(status := Confirmed)],
                                 history := db.history + [Entry(id, Some(Pending), Confirmed)],
                                 logs := db.logs + multiset{Log(tenant, Some(id), db.appts[id].client, Confirmation)}))
  {
    TransitionNeverViolates(db, tenant, id, Confirmed, false);
  }

  /** Completing needs a confirmed row, and sends nothing. */
  lemma CompleteOutcome(db: Db, tenant: Id, id: Id)
    requires Inv(db)
    ensures var out := Complete(db, tenant, id);
            if !Owned(db, tenant, id) then out == Fail(db, NotFound)
            else if db.appts[id].status != Confirmed then out == Fail(db, Conflict)
            else out == Done(db.(appts := db.appts[id := db.appts[id].(status := Completed)],
                                 history := db.history + [Entry(id, Some(Confirmed), Completed)]))
  {
    TransitionNeverViolates(db, tenant, id, Completed, false);
  }

  /** The entry waits for such a slot: service, start within its window, and its employee if it names one. */
  predicate Fits(e: WaitEntry, tenant: Id, row: Appt) {
    && e.tenant == tenant && e.status == Waiting && e.service == row.service
    && (e.employee == None || e.employee == Some(row.employee))
    && e.windowStart <= row.starts && row.starts <= e.windowEnd
  }

  /** The place of the oldest entry that fits the slot, None if no entry does. */
  predicate OldestFitting(entries: seq<WaitEntry>, tenant: Id, row: Appt, k: Option<nat>) {
    match k
    case None => forall i :: 0 <= i < |entries| ==> !Fits(entries[i], tenant, row)
    case Some(k) =>
      && k < |entries| && Fits(entries[k], tenant, row)
      && forall i :: 0 <= i < |entries| && Fits(entries[i], tenant, row) ==> entries[k].created <= entries[i].created
  }

  /**
   What a cancellation leaves: the row, its history entry and message, and the
   oldest fitting entry promoted and told.
   */
  ghost predicate CancelledInto(db: Db, after: Db, tenant: Id, id: Id, noShow: bool)
    requires id in db.appts
  {
    var row := db.appts[id];
    var told := db.logs + multiset{Log(tenant, Some(id), row.client, Cancellation)};
    && after == db.(appts := db.appts[id := row.(status := Cancelled, noShow := noShow || row.noShow)],
                    history := db.history + [Entry(id, Some(row.status), Cancelled)],
                    logs := after.logs, waitlist := after.waitlist)
    && ((OldestFitting(db.waitlist, tenant, row, None) && after.waitlist == db.waitlist && after.logs == told)
        || exists k: nat :: OldestFitting(db.waitlist, tenant, row, Some(k))
             && after.waitlist == db.waitlist[k := db.waitlist[k].(status := Promoted)]
             && after.logs == told + multiset{Log(tenant, None, db.waitlist[k].client, WaitlistPromotion)})
  }

  lemma NextIsOldestFitting(db: Db, tenant: Id, row: Appt)
    ensures OldestFitting(db.waitlist, tenant, row, NextInLine(db, tenant, row))
  {
    forall i | 0 <= i < |db.waitlist|
      ensures Matches(db.waitlist[i], tenant, row.service, row.employee, row.starts) <==>
                Fits(db.waitlist[i], tenant, row)
    {
    }
  }

  lemma PromoteOutcome(db: Db, after: Db, tenant: Id, id: Id, noShow: bool)
    requires id in db.appts && Cancel(db, tenant, id, noShow).error.None? && after == Cancel(db, tenant, id, noShow).db
    ensures CancelledInto(db, after, tenant, id, noShow)
  {
    var moved, told, row := CancelSteps(db, tenant, id, noShow);
    NextIsOldestFitting(db, tenant, db.appts[id]);
    PromotionWrites(told, tenant, row);
    assert NextInLine(told, tenant, row) == NextInLine(db, tenant, db.appts[id]);
  }

  lemma PromotionWrites(db: Db, tenant: Id, row: Appt)
    ensures match NextInLine(db, tenant, row)
            case None => Promote(db, tenant, row) == db
            case Some(k) =>
              Promote(db, tenant, row) ==
                db.(waitlist := db.waitlist[k := db.waitlist[k].(status := Promoted)],
                    logs := db.logs + multiset{Log(tenant, None, db.waitlist[k].client, WaitlistPromotion)})
  {
  }

  /** Cancelling needs a pending or confirmed row. */
  lemma CancelOutcome(db: Db, tenant: Id, id: Id, noShow: bool)
    requires Inv(db)
    ensures var out := Cancel(db, tenant, id, noShow);
            if !Owned(db, tenant, id) then out == Fail(db, NotFound)
            else if db.appts[id].status != Pending && db.appts[id].status != Confirmed then out == Fail(db, Conflict)
            else out.error.None? && CancelledInto(db, out.db, tenant, id, noShow)
  {
    TransitionNeverViolates(db, tenant, id, Cancelled, noShow);
    if Cancel(db, tenant, id, noShow).error.None? {
      PromoteOutcome(db, Cancel(db, tenant, id, noShow).db, tenant, id, noShow);
    }
  }

  /** Rescheduling needs a row that is neither cancelled nor completed and a slot free of others. */
  lemma RescheduleOutcome(db: Db, tenant: Id, id: Id, starts: int)
    requires Inv(db)
    ensures var out := RescheduleTo(db, tenant, id, starts);
            if !Owned(db, tenant, id) then out == Fail(db, NotFound)
            else
              var row := db.appts[id];
              row.service in db.catalog.services &&
              var ends := starts + db.catalog.services[row.service].duration;
              if row.status != Pending && row.status != Confirmed then out == Fail(db, Conflict)
              else if SlotBusy(db, tenant, row.employee, row.room, starts, ends, Some(id))
                  then out == Fail(db, Conflict)
              else out == Done(db.(appts := db.appts[id := row.(starts := starts, ends := ends)],
                                   logs := db.logs + multiset{Log(tenant, Some(id), row.client, Reschedule)}))
  {
    if Owned(db, tenant, id) {
      var row := db.appts[id];
      assert RowOk(db, row) && ServiceOk(db.catalog.services[row.service]);
      NeverRescheduled(db, id);
      if row.status == Pending || row.status == Confirmed {
        var ends := starts + db.catalog.services[row.service].duration;
        LiveRowReschedules(db, tenant, id, starts, row.(starts := starts, ends := ends));
      } else {
        DeadRowStays(db, tenant, id, starts);
      }
    }
  }

  lemma NeverRescheduled(db: Db, id: Id)
    requires HistoryOk(db) && id in db.appts
    ensures db.appts[id].status in {Pending, Confirmed, Completed, Cancelled}
  {
    assert LifeOk(db.appts, db.history, id);
    PathsAreShort(HistoryOf(db.history, id), db.appts[id].status);
  }

  lemma DeadRowStays(db: Db, tenant: Id, id: Id, starts: int)
    requires Owned(db, tenant, id) && (db.appts[id].status == Cancelled || db.appts[id].status == Completed)
    ensures RescheduleTo(db, tenant, id, starts) == Fail(db, Conflict)
  {
  }

  lemma LiveRowReschedules(db: Db, tenant: Id, id: Id, starts: int, row: Appt)
    requires PositiveLengths(db.appts) && Owned(db, tenant, id) && FindService(db, tenant, db.appts[id].service).Some?
    requires db.appts[id].status == Pending || db.appts[id].status == Confirmed
    requires row == db.appts[id].(starts := starts, ends := row.ends) && row.starts < row.ends
    requires row.ends == starts + FindService(db, tenant, db.appts[id].service).value.duration
    ensures RescheduleTo(db, tenant, id, starts) ==
              if SlotBusy(db, tenant, row.employee, row.room, row.starts, row.ends, Some(id)) then Fail(db, Conflict)
              else Done(db.(appts := db.appts[id := row],
                            logs := db.logs + multiset{Log(tenant, Some(id), row.client, Reschedule)}))
  {
    QueryReadsTheSlot(db, tenant, row.employee, row.room, row.starts, row.ends, Some(id));
    ConstraintsReadTheSlot(db, id, row);
    LiveRowMoves(db, tenant, id, starts, row);
    if RescheduleTo(db, tenant, id, starts).error.None? {
      var written := RescheduleWrites(db, tenant, id, starts);
    }
  }

  /** In every run the statuses an appointment went through are one of eight lists. */
  lemma HistoryShapes(run: seq<Attempt>, id: Id)
    requires id in After(run).appts
    ensures var path, now := HistoryOf(After(run).history, id), After(run).appts[id].status;
            || (|path| == 1 && path[0].to == now && now in {Pending, Confirmed})
            || (|path| == 2 && path[0].to == Pending && path[1].to == now && now in {Confirmed, Cancelled})
            || (|path| == 2 && path[0].to == Confirmed && path[1].to == now && now in {Completed, Cancelled})
            || (|path| == 3 && path[0].to == Pending && path[1].to == Confirmed && path[2].to == now
                && now in {Completed, Cancelled})
  {
    var path := HistoryOf(After(run).history, id);
    HistoriesArePaths(run, id);
    assert |path| > 1 ==> Allowed(path[0].to, path[1].to);
    assert |path| > 2 ==> Allowed(path[1].to, path[2].to);
  }

  // ----- deposits

  /** The terms of a deposit: a fixed amount, or the cent nearest to the percentage of the price; full only for 100%. */
  predicate Terms(record: Payment, service: Service) {
    && service.depositType.Some? && service.depositValue.Some?
    && (service.depositType == Some(Deposits.FixedAmount) ==>
         record.amount == service.depositValue.value && !record.full)
    && (service.depositType == Some(Deposits.Percentage) ==>
          && Deposits.NearestEven(record.amount, service.price * service.depositValue.value, 10000)
          && (record.full <==> service.depositValue.value == 10000))
  }

  /** An answered charge leaves a record of its terms and of the provider's answer, or loses its confirmation. */
  lemma ChargeLeavesItsTerms(db: Db, tenant: Id, appt: Id, id: Id, status: ChargeStatus, down: set<Log>)
    requires Inv(db) && Owned(db, tenant, appt) && id !in db.payments
    requires db.appts[appt].service in db.catalog.services &&
               db.catalog.services[db.appts[appt].service].depositRequired
    ensures var out := Attempted(db, Attempt(Charging(tenant, appt, id, Some(status)), down));
            var confirms := status == ChargeApproved && db.appts[appt].status == Pending;
            var confirmation := Log(tenant, Some(appt), db.appts[appt].client, Confirmation);
            if confirms && confirmation in down then out == Fail(db, Unsent)
            else
              && out.error.None? && id in out.db.payments
              && var record := out.db.payments[id];
              && out.db.payments == db.payments[id := record]
              && record.tenant == tenant && record.appt == appt && record.hasReference
              && record.status ==
                   (match status case ChargeApproved => Approved case ChargeRejected => Rejected case ChargePending => Unpaid)
              && (record.paid <==> status == ChargeApproved)
              && Terms(record, db.catalog.services[db.appts[appt].service])
              && out.db.appts == (if confirms then db.appts[appt := db.appts[appt].(status := Confirmed)] else db.appts)
  {
    assert RowOk(db, db.appts[appt]);
    ChargeOutcome(db, tenant, appt, id, status, down);
    var out := Attempted(db, Attempt(Charging(tenant, appt, id, Some(status)), down));
    if out.error.None? {
      var service := db.catalog.services[db.appts[appt].service];
      ChargedRecord(db, tenant, appt, id, status, down);
      RecordHasTerms(tenant, appt, service, out.db.payments[id].status);
    }
  }

  /** The record a successful charge leaves is the specified one. */
  lemma ChargedRecord(db: Db, tenant: Id, appt: Id, id: Id, status: ChargeStatus, down: set<Log>)
    requires Attempted(db, Attempt(Charging(tenant, appt, id, Some(status)), down)).error.None?
    ensures var out := Attempted(db, Attempt(Charging(tenant, appt, id, Some(status)), down));
            && FindAppt(db, tenant, appt).Some? && FindService(db, tenant, db.appts[appt].service).Some?
            && var service := FindService(db, tenant, db.appts[appt].service).value;
            && service.depositType.Some? && service.depositValue.Some?
            && out.db.payments == db.payments[id := ChargeRecord(tenant, appt, service, StatusOf(status))]
  {
    var service := FindService(db, tenant, db.appts[appt].service).value;
    SettleWritesRecord(db, tenant, id, ChargeRecord(tenant, appt, service, StatusOf(status)));
  }

  lemma RecordHasTerms(tenant: Id, appt: Id, service: Service, status: PaymentStatus)
    requires service.depositType.Some? && service.depositValue.Some?
    ensures var record := ChargeRecord(tenant, appt, service, status);
            && Terms(record, service)
            && record.tenant == tenant && record.appt == appt && record.hasReference
            && record.status == status && (record.paid <==> status == Approved)
  {
    if service.depositType == Some(Deposits.Percentage) {
      var amount := ChargeRecord(tenant, appt, service, status).amount;
      Deposits.RoundingIsNearestEven(service.price * service.depositValue.value, 10000, amount);
    }
  }

  /** No call changes what a record is for and for how much: only its status, and paid from false to true. */
  lemma RecordsKeepTheirTerms(db: Db, a: Attempt, id: Id)
    requires Inv(db) && id in db.payments
    ensures var before := db.payments[id];
            && id in Attempted(db, a).db.payments
            && var after := Attempted(db, a).db.payments[id];
            && after == before.(status := after.status, paid := after.paid) && (before.paid ==> after.paid)
  {
    if Attempted(db, a).error.Some? {
      FailedCallChangesNothing(db, a);
    } else if IsPaymentCall(a.call) {
      PaymentCallKeepsTerms(db, a.call, id);
    } else {
      OthersKeepPayments(db, a.call);
    }
  }

  lemma PaymentCallKeepsTerms(db: Db, call: Call, id: Id)
    requires Inv(db) && id in db.payments && IsPaymentCall(call)
    ensures var before := db.payments[id];
            && id in ExecPayment(db, call).db.payments
            && var after := ExecPayment(db, call).db.payments[id];
            && after == before.(status := after.status, paid := after.paid) && (before.paid ==> after.paid)
  {
    match call
    case Charging(t, appt, record, charge) => ChargeKeepsApproval(db, t, appt, record, charge, id);
    case Polling(t, record, charge) => PollKeepsTerms(db, t, record, charge, id);
    case Delivering(reference, status) => DeliveryOutcome(db, reference, status, id);
  }

  lemma PollKeepsTerms(db: Db, tenant: Id, polled: Id, charge: Option<ChargeStatus>, id: Id)
    requires id in db.payments
    ensures var before, out := db.payments[id], RefreshPayment(db, tenant, polled, charge);
            && id in out.db.payments
            && var after := out.db.payments[id];
            && after == before.(status := after.status, paid := after.paid) && (before.paid ==> after.paid)
  {
    var out := RefreshPayment(db, tenant, polled, charge);
    if out.db != db {
      assert out == Settle(db, tenant, polled, RecordAfter(db, polled, charge));
      SettleWritesRecord(db, tenant, polled, RecordAfter(db, polled, charge));
    }
  }

  /** In every run a record keeps, from its charge on, its appointment, its amount and its type. */
  lemma {:induction false} TermsLast(run: seq<Attempt>, more: seq<Attempt>, id: Id)
    requires id in After(run).payments
    ensures var before := After(run).payments[id];
            && id in After(run + more).payments
            && var after := After(run + more).payments[id];
            && after == before.(status := after.status, paid := after.paid) && (before.paid ==> after.paid)
    decreases |more|
  {
    if more == [] {
      assert run + more == run;
    } else {
      var rest, a := more[..|more| - 1], more[|more| - 1];
      TermsLast(run, rest, id);
      assert run + more == run + rest + [a];
      OneMore(run + rest, a);
      EveryRunKeeps(run + rest);
      RecordsKeepTheirTerms(After(run + rest), a, id);
    }
  }

  /**
   The provider's answer for a record reached it, and an approval its pending
   appointment; unless its message is lost.
   */
  ghost predicate AnsweredInto(db: Db, out: Outcome, id: Id, answer: ChargeStatus, down: set<Log>)
    requires id in db.payments && db.payments[id].appt in db.appts
  {
    var record := db.payments[id];
    var row := db.appts[record.appt];
    var confirms := answer == ChargeApproved && row.status == Pending;
    if confirms && Log(row.tenant, Some(record.appt), row.client, Confirmation) in down then out == Fail(db, Unsent)
    else
      && out.error.None? && id in out.db.payments
      && out.db.payments ==
           db.payments[id := record.(status := out.db.payments[id].status, paid := out.db.payments[id].paid)]
      && out.db.payments[id].status ==
           (match answer case ChargeApproved => Approved case ChargeRejected => Rejected case ChargePending => Unpaid)
      && out.db.payments[id].paid == (record.paid || answer == ChargeApproved)
      && out.db.appts == if confirms then db.appts[record.appt := row.(status := Confirmed)] else db.appts
  }

  lemma SettlingAnswers(db: Db, tenant: Id, id: Id, answer: ChargeStatus, down: set<Log>)
    requires Inv(db) && FindPayment(db, tenant, id).Some?
    ensures db.payments[id].appt in db.appts
    ensures AnsweredInto(db, Delivered(db, Settle(db, tenant, id, RecordAfter(db, id, Some(answer))), down), id, answer,
              down)
  {
    assert PaymentOk(db, db.payments[id]);
    SettleOutcome(db, tenant, id, RecordAfter(db, id, Some(answer)));
    SettleDelivered(db, tenant, id, RecordAfter(db, id, Some(answer)), down);
  }

  /** A poll asks the provider only for an unpaid record of the tenant with a reference, and then records its answer. */
  lemma PollLeaves(db: Db, tenant: Id, id: Id, poll: Option<ChargeStatus>, down: set<Log>)
    requires Inv(db)
    ensures var out := Delivered(db, RefreshPayment(db, tenant, id, poll), down);
            if id !in db.payments || db.payments[id].tenant != tenant then out == Fail(db, Invalid)
            else if db.payments[id].status != Unpaid || !db.payments[id].hasReference then out == Done(db)
            else if poll == None then out == Fail(db, Provider)
            else db.payments[id].appt in db.appts && AnsweredInto(db, out, id, poll.value, down)
  {
    if id in db.payments && db.payments[id].tenant == tenant && db.payments[id].status == Unpaid
       && db.payments[id].hasReference && poll.Some?
    {
      SettlingAnswers(db, tenant, id, poll.value, down);
      assert RefreshPayment(db, tenant, id, poll) == Settle(db, tenant, id, RecordAfter(db, id, poll));
    }
  }

  /** A delivery with a record's reference records the provider's answer, whatever the record's status was. */
  lemma DeliveryLeaves(db: Db, tenant: Id, id: Id, answer: ChargeStatus, down: set<Log>)
    requires Inv(db) && id in db.payments && db.payments[id].tenant == tenant
    ensures db.payments[id].appt in db.appts
    ensures AnsweredInto(db, Delivered(db, Webhook(db, ExternalReference(tenant, id), answer), down), id, answer, down)
  {
    SettlingAnswers(db, tenant, id, answer, down);
    DeliveryIsSettling(db, tenant, id, answer);
  }

  // ----- public booking

  /** Company, active service, and an active employee of the tenant who offers it. */
  predicate Offers(db: Db, tenant: Id, req: BookingRequest) {
    && tenant in db.catalog.companies
    && req.service in db.catalog.services && db.catalog.services[req.service].tenant == tenant
    && db.catalog.services[req.service].active
    && req.employee in db.catalog.employees && db.catalog.employees[req.employee].tenant == tenant
    && db.catalog.employees[req.employee].active && req.service in db.catalog.employees[req.employee].offers
  }

  /** The room at this place of the table is the tenant's, active, and unused during [from, to). */
  predicate UsableRoom(db: Db, tenant: Id, k: nat, from: int, to: int)
    requires k < |db.catalog.rooms|
  {
    var room := db.catalog.rooms[k];
    room.tenant == tenant && room.active && !RoomBusy(db, tenant, room.id, from, to, None)
  }

  /** The room is the first usable one of the table. */
  predicate FirstUsable(db: Db, tenant: Id, room: Option<Id>, from: int, to: int) {
    exists k :: 0 <= k < |db.catalog.rooms| && UsableRoom(db, tenant, k, from, to)
      && room == Some(db.catalog.rooms[k].id)
      && forall i :: 0 <= i < k ==> !UsableRoom(db, tenant, i, from, to)
  }

  predicate SomeUsable(db: Db, tenant: Id, from: int, to: int) {
    exists k :: 0 <= k < |db.catalog.rooms| && UsableRoom(db, tenant, k, from, to)
  }

  /** The client at this place is the first of the tenant with the phone. */
  predicate FirstWithPhone(clients: seq<Client>, c: nat, tenant: Id, phone: string)
    requires c < |clients|
  {
    && clients[c].tenant == tenant && clients[c].phone == phone
    && forall i :: 0 <= i < c ==> !(clients[i].tenant == tenant && clients[i].phone == phone)
  }

  /** The client was found or added as a placement does it. */
  predicate ClientKnown(before: seq<Client>, after: seq<Client>, tenant: Id, phone: string, newId: Id, client: Id) {
    && (exists c :: 0 <= c < |after| && FirstWithPhone(after, c, tenant, phone) && client == after[c].id)
    && after == (if exists c :: 0 <= c < |before| && before[c].tenant == tenant && before[c].phone == phone then before
                 else before + [Client(newId, tenant, phone)])
  }

  /** Client, row and room of a placed booking; nothing is sent, paid or promoted yet. */
  ghost predicate Placed(db: Db, after: Db, tenant: Id, req: BookingRequest)
    requires req.service in db.catalog.services
  {
    var service := db.catalog.services[req.service];
    && req.appt !in db.appts && req.appt in after.appts
    && var row := after.appts[req.appt];
    && after == db.(clients := after.clients, appts := db.appts[req.appt := row],
                    history := db.history + [Entry(req.appt, None, Pending)])
    && row.tenant == tenant && row.employee == req.employee && row.service == req.service
    && row.starts == req.starts && row.ends == req.starts + service.duration
    && row.status == Pending && row.source == PublicBooking && !row.noShow
    && ClientKnown(db.clients, after.clients, tenant, req.phone, req.newClient, row.client)
    && (!service.requiresRoom ==> row.room.None?)
    && (service.requiresRoom ==> FirstUsable(db, tenant, row.room, row.starts, row.ends))
  }

  lemma {:induction false} PhoneFindsFirst(clients: seq<Client>, tenant: Id, phone: string)
    ensures match ClientByPhone(clients, tenant, phone)
            case Some(id) => exists c ::
                0 <= c < |clients| && FirstWithPhone(clients, c, tenant, phone) && clients[c].id == id
            case None => forall c :: 0 <= c < |clients| ==> !(clients[c].tenant == tenant && clients[c].phone == phone)
    decreases |clients|
  {
    if clients != [] && !(clients[0].tenant == tenant && clients[0].phone == phone) {
      PhoneFindsFirst(clients[1..], tenant, phone);
      if ClientByPhone(clients, tenant, phone).Some? {
        var c :| 0 <= c < |clients[1..]| && FirstWithPhone(clients[1..], c, tenant, phone)
                 && clients[1..][c].id == ClientByPhone(clients, tenant, phone).value;
        assert forall i :: 1 <= i <= c ==> clients[i] == clients[1..][i - 1];
        assert FirstWithPhone(clients, c + 1, tenant, phone);
      } else {
        forall c | 0 <= c < |clients| ensures !(clients[c].tenant == tenant && clients[c].phone == phone) {
          if c > 0 { assert clients[c] == clients[1..][c - 1]; }
        }
      }
    } else if clients != [] {
      assert FirstWithPhone(clients, 0, tenant, phone);
    }
  }

  /** The client of a placement is the first with its phone, in the table as the placement leaves it. */
  lemma PlacedClient(db: Db, tenant: Id, phone: string, newId: Id)
    requires FindOrCreateClient(db, tenant, phone, newId).error.None?
    ensures var clients := FindOrCreateClient(db, tenant, phone, newId).db.clients;
            && ClientKnown(db.clients, clients, tenant, phone, newId, ClientFor(db, tenant, phone, newId))
            && ((exists c :: 0 <= c < |clients| && clients[c].tenant == tenant
                   && clients[c].id == ClientFor(db, tenant, phone, newId)))
  {
    PhoneFindsFirst(db.clients, tenant, phone);
    if ClientByPhone(db.clients, tenant, phone).None? {
      assert FirstWithPhone(db.clients + [Client(newId, tenant, phone)], |db.clients|, tenant, phone);
    }
  }

  /** Whether there is capacity, and in which room, read off the rows. */
  lemma CapacityReadsTheRows(db: Db, tenant: Id, employee: Id, service: Service, from: int, to: int)
    ensures var (free, room) := Capacity(db, tenant, employee, service, from, to);
            && (free <==> !EmployeeBusy(db, tenant, employee, from, to, None)
                          && (service.requiresRoom ==> SomeUsable(db, tenant, from, to)))
            && (free && !service.requiresRoom ==> room.None?)
            && (free && service.requiresRoom ==> FirstUsable(db, tenant, room, from, to))
  {
    QueryReadsTheSlot(db, tenant, employee, None, from, to, None);
    if !EmployeeBusy(db, tenant, employee, from, to, None) && service.requiresRoom {
      RoomReadsTheRows(db, tenant, employee, from, to);
    }
  }

  lemma RoomReadsTheRows(db: Db, tenant: Id, employee: Id, from: int, to: int)
    requires !EmployeeBusy(db, tenant, employee, from, to, None)
    ensures var room := FirstFreeRoom(db, db.catalog.rooms, tenant, employee, from, to);
            && (room.Some? <==> SomeUsable(db, tenant, from, to))
            && (room.Some? ==> FirstUsable(db, tenant, room, from, to))
  {
    var rooms := db.catalog.rooms;
    FirstFreeRoomIsFirst(db, rooms, tenant, employee, from, to);
    forall k | 0 <= k < |rooms|
      ensures RoomFree(db, rooms[k], tenant, employee, from, to) <==> UsableRoom(db, tenant, k, from, to)
    {
      QueryReadsTheSlot(db, tenant, employee, Some(rooms[k].id), from, to, None);
    }
    var room := FirstFreeRoom(db, rooms, tenant, employee, from, to);
    if room.Some? {
      var k :| 0 <= k < |rooms| && room.value == rooms[k].id && RoomFree(db, rooms[k], tenant, employee, from, to)
               && NoRoomFree(db, rooms[..k], tenant, employee, from, to);
      forall i | 0 <= i < k ensures !UsableRoom(db, tenant, i, from, to) {
        assert rooms[..k][i] == rooms[i];
      }
    }
  }

  /** What a successful placement went through. */
  lemma PlacedIsOffered(db: Db, tenant: Id, req: BookingRequest)
    requires PlaceBooking(db, tenant, req).error.None?
    ensures Offers(db, tenant, req)
    ensures var service := db.catalog.services[req.service];
            Capacity(db, tenant, req.employee, service, req.starts, req.starts + service.duration).0
    ensures var known := FindOrCreateClient(db, tenant, req.phone, req.newClient);
            && known.error.None? && known.db == db.(clients := known.db.clients)
            && PlaceBooking(db, tenant, req) ==
                 CreateAppointment(known.db, tenant, req.appt, BookedRequest(db, tenant, req))
  {
  }

  /** The request a placement makes, in the rows it was read from. */
  lemma PlacementRequest(db: Db, tenant: Id, req: BookingRequest) returns (clients: seq<Client>, request: Request)
    requires PlaceBooking(db, tenant, req).error.None?
    ensures Offers(db, tenant, req)
    ensures PlaceBooking(db, tenant, req) == CreateAppointment(db.(clients := clients), tenant, req.appt, request)
    ensures request == Request(request.client, req.employee, req.service, req.starts, request.room, PublicBooking)
    ensures ClientKnown(db.clients, clients, tenant, req.phone, req.newClient, request.client)
    ensures var service := db.catalog.services[req.service];
            service.requiresRoom ==> FirstUsable(db, tenant, request.room, req.starts, req.starts + service.duration)
  {
    PlacedIsOffered(db, tenant, req);
    var service := db.catalog.services[req.service];
    clients := FindOrCreateClient(db, tenant, req.phone, req.newClient).db.clients;
    request := BookedRequest(db, tenant, req);
    PlacedClient(db, tenant, req.phone, req.newClient);
    CapacityReadsTheRows(db, tenant, req.employee, service, req.starts, req.starts + service.duration);
  }

  lemma CreatedIsPlaced(db: Db, clients: seq<Client>, after: Db, tenant: Id, req: BookingRequest, request: Request)
    requires req.service in db.catalog.services && req.appt !in db.appts
    requires request == Request(request.client, req.employee, req.service, req.starts, request.room, PublicBooking)
    requires Created(db.(clients := clients), after, tenant, req.appt, request)
    requires ClientKnown(db.clients, clients, tenant, req.phone, req.newClient, request.client)
    requires var service := db.catalog.services[req.service];
             service.requiresRoom ==> FirstUsable(db, tenant, request.room, req.starts, req.starts + service.duration)
    ensures Placed(db, after, tenant, req)
  {
  }

  /** A successful placement leaves the client, the row and the room that were asked for. */
  lemma PlacementLeaves(db: Db, tenant: Id, req: BookingRequest)
    requires Inv(db) && PlaceBooking(db, tenant, req).error.None?
    ensures req.service in db.catalog.services && Placed(db, PlaceBooking(db, tenant, req).db, tenant, req)
  {
    var clients, request := PlacementRequest(db, tenant, req);
    ClientsWriteKeeps(db, clients);
    CreateOutcome(db.(clients := clients), tenant, req.appt, request);
    CreatedIsPlaced(db, clients, PlaceBooking(db, tenant, req).db, tenant, req, request);
  }

  /** So the room of a placed booking is taken at its time. */
  lemma PlacedRoomIsBusy(db: Db, tenant: Id, req: BookingRequest)
    requires Inv(db) && PlaceBooking(db, tenant, req).error.None?
    requires req.service in db.catalog.services && db.catalog.services[req.service].requiresRoom
    ensures var after := PlaceBooking(db, tenant, req).db;
            && req.appt in after.appts && after.appts[req.appt].room.Some?
            && RoomBusy(after, tenant, after.appts[req.appt].room.value, req.starts,
                        req.starts + db.catalog.services[req.service].duration, None)
  {
    PlacementLeaves(db, tenant, req);
    assert ServiceOk(db.catalog.services[req.service]);
    var after := PlaceBooking(db, tenant, req).db;
    assert after.appts[req.appt].room.Some?;
  }

  /** New ids of a booking are new. */
  predicate FreshFor(db: Db, req: BookingRequest) {
    req.appt !in db.appts && forall k :: 0 <= k < |db.clients| ==> db.clients[k].id != req.newClient
  }

  /**
   A booking with new ids is placed exactly if what it asks for is offered, the
   employee is free and, if the service uses a room, some usable room is left.
   */
  lemma PlacementOutcome(db: Db, tenant: Id, req: BookingRequest)
    requires Inv(db) && FreshFor(db, req)
    ensures var out := PlaceBooking(db, tenant, req);
            if !Offers(db, tenant, req) then out == Fail(db, NotFound)
            else
              var service := db.catalog.services[req.service];
              var to := req.starts + service.duration;
              if EmployeeBusy(db, tenant, req.employee, req.starts, to, None)
                 || (service.requiresRoom && !SomeUsable(db, tenant, req.starts, to))
              then out == Fail(db, Conflict)
              else out.error.None? && Placed(db, out.db, tenant, req)
  {
    if !Offers(db, tenant, req) {
      NothingOffered(db, tenant, req);
    } else {
      var service := db.catalog.services[req.service];
      CapacityReadsTheRows(db, tenant, req.employee, service, req.starts, req.starts + service.duration);
      if Capacity(db, tenant, req.employee, service, req.starts, req.starts + service.duration).0 {
        FreeSlotIsPlaced(db, tenant, req);
        PlacementLeaves(db, tenant, req);
      } else {
        NoCapacity(db, tenant, req);
      }
    }
  }

  lemma NothingOffered(db: Db, tenant: Id, req: BookingRequest)
    requires !Offers(db, tenant, req)
    ensures PlaceBooking(db, tenant, req) == Fail(db, NotFound)
  {
  }

  lemma NoCapacity(db: Db, tenant: Id, req: BookingRequest)
    requires Offers(db, tenant, req)
    requires var service := db.catalog.services[req.service];
             !Capacity(db, tenant, req.employee, service, req.starts, req.starts + service.duration).0
    ensures PlaceBooking(db, tenant, req) == Fail(db, Conflict)
  {
  }

  /** New clients change no slot. */
  lemma ClientsAreNoSlots(db: Db, clients: seq<Client>, tenant: Id, employee: Id, room: Option<Id>, from: int, to: int)
    ensures SlotBusy(db.(clients := clients), tenant, employee, room, from, to, None) <==>
              SlotBusy(db, tenant, employee, room, from, to, None)
  {
  }

  /** The request of a placement names existing rows and asks for a free slot. */
  lemma FreeRequest(db: Db, tenant: Id, req: BookingRequest)
    requires FreshFor(db, req) && Offers(db, tenant, req)
    requires var service := db.catalog.services[req.service];
             Capacity(db, tenant, req.employee, service, req.starts, req.starts + service.duration).0
    ensures var known := FindOrCreateClient(db, tenant, req.phone, req.newClient);
            var service, request := db.catalog.services[req.service], BookedRequest(db, tenant, req);
            var room := if service.requiresRoom then request.room else None;
            && known.error.None? && known.db == db.(clients := known.db.clients)
            && Refers(known.db, tenant, request)
            && !SlotBusy(db, tenant, req.employee, room, req.starts, req.starts + service.duration, None)
  {
    var service := db.catalog.services[req.service];
    PlacedClient(db, tenant, req.phone, req.newClient);
    CapacityReadsTheRows(db, tenant, req.employee, service, req.starts, req.starts + service.duration);
  }

  lemma FreeSlotIsPlaced(db: Db, tenant: Id, req: BookingRequest)
    requires Inv(db) && FreshFor(db, req) && Offers(db, tenant, req)
    requires var service := db.catalog.services[req.service];
             Capacity(db, tenant, req.employee, service, req.starts, req.starts + service.duration).0
    ensures PlaceBooking(db, tenant, req).error.None?
  {
    var service, request := db.catalog.services[req.service], BookedRequest(db, tenant, req);
    var base := FindOrCreateClient(db, tenant, req.phone, req.newClient).db;
    FreeRequest(db, tenant, req);
    ClientsWriteKeeps(db, base.clients);
    ClientsAreNoSlots(db, base.clients, tenant, req.employee, if service.requiresRoom then request.room else None,
                      req.starts, req.starts + service.duration);
    CreateOutcome(base, tenant, req.appt, request);
    CapacityIsFollowedByCreation(db, tenant, req);
  }

  /** With capacity and a client, a placement is its create. */
  lemma CapacityIsFollowedByCreation(db: Db, tenant: Id, req: BookingRequest)
    requires Offers(db, tenant, req)
    requires var service := db.catalog.services[req.service];
             Capacity(db, tenant, req.employee, service, req.starts, req.starts + service.duration).0
    requires FindOrCreateClient(db, tenant, req.phone, req.newClient).error.None?
    ensures PlaceBooking(db, tenant, req).error ==
              CreateAppointment(FindOrCreateClient(db, tenant, req.phone, req.newClient).db, tenant, req.appt,
                                BookedRequest(db, tenant, req)).error
  {
  }

  /** Where record and appointment stand after the provider's answer. */
  predicate StandsBy(db: Db, tenant: Id, appt: Id, id: Id, service: Service, answer: ChargeStatus) {
    && id in db.payments && Owned(db, tenant, appt)
    && db.payments[id].tenant == tenant && db.payments[id].appt == appt && db.payments[id].hasReference
    && Terms(db.payments[id], service)
    && db.payments[id].status ==
         (match answer case ChargeApproved => Approved case ChargeRejected => Rejected case ChargePending => Unpaid)
    && db.appts[appt].status == if answer == ChargeApproved then Confirmed else Pending
  }

  /** A late booking that succeeds: where its deposit stands, and whether it is confirmed. */
  lemma BookingEnds(db: Db, tenant: Id, req: BookingRequest, net: Answers)
    requires Inv(db) && req.record !in db.payments && CreateBooking(db, tenant, req, net).error.None?
    ensures Offers(db, tenant, req)
    ensures var service, after := db.catalog.services[req.service], CreateBooking(db, tenant, req, net).db;
            && req.appt in after.appts
            && (!service.depositRequired ==>
                  && after.appts[req.appt].status ==
                       (if db.catalog.companies[tenant].autoConfirm then Confirmed else Pending)
                  && after.payments == db.payments)
            && (service.depositRequired ==>
                  var answer := if net.charge == Some(ChargePending) then net.poll else net.charge;
                  answer.Some? && StandsBy(after, tenant, req.appt, req.record, service, answer.value))
  {
    PlacedGoesOn(db, tenant, req, net);
    PlacedIsOffered(db, tenant, req);
    PlacementLeaves(db, tenant, req);
    PlaceKeeps(db, tenant, req);
    var placed := PlaceBooking(db, tenant, req).db;
    var service, company := db.catalog.services[req.service], db.catalog.companies[tenant];
    if service.depositRequired {
      DepositEnds(placed, tenant, service, company, req, net);
    } else {
      AutomaticEnds(placed, tenant, service, company, req, net);
    }
  }

  lemma PlacedGoesOn(db: Db, tenant: Id, req: BookingRequest, net: Answers)
    requires CreateBooking(db, tenant, req, net).error.None?
    ensures PlaceBooking(db, tenant, req).error.None?
    ensures tenant in db.catalog.companies && req.service in db.catalog.services
    ensures CreateBooking(db, tenant, req, net) ==
              AfterPlacement(PlaceBooking(db, tenant, req).db, tenant, db.catalog.services[req.service],
                             db.catalog.companies[tenant], req, net)
  {
  }

  lemma AutomaticEnds(db: Db, tenant: Id, service: Service, company: Company, req: BookingRequest, net: Answers)
    requires Inv(db) && Awaits(db, tenant, service, req) && !service.depositRequired
    requires AfterPlacement(db, tenant, service, company, req, net).error.None?
    ensures var after := AfterPlacement(db, tenant, service, company, req, net).db;
            && req.appt in after.appts && after.payments == db.payments
            && after.appts[req.appt].status == if company.autoConfirm then Confirmed else Pending
  {
    ConfirmOutcome(db, tenant, req.appt);
  }

  lemma ChargeStands(db: Db, tenant: Id, service: Service, appt: Id, id: Id, status: ChargeStatus, down: set<Log>)
    requires Inv(db) && id !in db.payments && Owned(db, tenant, appt) && db.appts[appt].status == Pending
    requires FindService(db, tenant, db.appts[appt].service) == Some(service) && service.depositRequired
    requires Attempted(db, Attempt(Charging(tenant, appt, id, Some(status)), down)).error.None?
    ensures var after := Attempted(db, Attempt(Charging(tenant, appt, id, Some(status)), down)).db;
            Inv(after) && StandsBy(after, tenant, appt, id, service, status)
  {
    ChargeLeavesItsTerms(db, tenant, appt, id, status, down);
    AttemptKeeps(db, Attempt(Charging(tenant, appt, id, Some(status)), down));
  }

  lemma DepositEnds(db: Db, tenant: Id, service: Service, company: Company, req: BookingRequest, net: Answers)
    requires Inv(db) && req.record !in db.payments && Awaits(db, tenant, service, req) && service.depositRequired
    requires AfterPlacement(db, tenant, service, company, req, net).error.None?
    ensures var answer := if net.charge == Some(ChargePending) then net.poll else net.charge;
            && answer.Some?
            && StandsBy(AfterPlacement(db, tenant, service, company, req, net).db, tenant, req.appt, req.record,
                 service, answer.value)
  {
    var charged := FollowUp(db, tenant, service, company, req, net);
    assert charged == Attempted(db, Attempt(Charging(tenant, req.appt, req.record, net.charge), net.down));
    ChargeStands(db, tenant, service, req.appt, req.record, net.charge.value, net.down);
    if net.charge == Some(ChargePending) {
      PollStands(charged.db, tenant, service, req.appt, req.record, net);
    } else {
      SettledIsNotPolled(charged.db, tenant, req.appt, req.record, net);
    }
  }

  lemma SettledIsNotPolled(db: Db, tenant: Id, appt: Id, id: Id, net: Answers)
    requires FindAppt(db, tenant, appt).Some? && FindPayment(db, tenant, id).Some? && db.payments[id].status != Unpaid
    ensures ReadStatus(db, tenant, appt, Some(id), net) == Done(db)
  {
  }

  /** A poll of an unpaid record of a pending appointment that goes through. */
  lemma PollStands(db: Db, tenant: Id, service: Service, appt: Id, id: Id, net: Answers)
    requires Inv(db) && StandsBy(db, tenant, appt, id, service, ChargePending)
    requires ReadStatus(db, tenant, appt, Some(id), net).error.None?
    ensures net.poll.Some?
    ensures StandsBy(ReadStatus(db, tenant, appt, Some(id), net).db, tenant, appt, id, service, net.poll.value)
  {
    var record := RecordAfter(db, id, net.poll);
    assert RefreshPayment(db, tenant, id, net.poll) == Settle(db, tenant, id, record);
    SettleOutcome(db, tenant, id, record);
  }

  // ----- waitlist and catalog

  /** Joining adds a waiting entry with the data given at the end, if its references exist and its id is new. */
  lemma JoinOutcome(db: Db, entry: WaitEntry)
    ensures var out := JoinWaitlist(db, entry);
            var known := && (exists k :: 0 <= k < |db.clients| && db.clients[k].id == entry.client)
                         && entry.service in db.catalog.services
                         && (entry.employee != None ==> entry.employee.value in db.catalog.employees);
            var added := WaitEntry(entry.id, entry.tenant, entry.client, entry.service, entry.employee,
                                   entry.windowStart, entry.windowEnd, Waiting, entry.created);
            if known && forall k :: 0 <= k < |db.waitlist| ==> db.waitlist[k].id != entry.id
            then out == Done(db.(waitlist := db.waitlist + [added]))
            else out == Fail(db, Integrity)
  {
  }

  /** Leaving withdraws the tenant's entry with that id and no other; without one it fails. */
  lemma LeaveOutcome(db: Db, tenant: Id, id: Id)
    requires DistinctEntries(db.waitlist)
    ensures var out := LeaveWaitlist(db, tenant, id);
            && ((forall k :: 0 <= k < |db.waitlist| ==>
                 !(db.waitlist[k].id == id && db.waitlist[k].tenant == tenant)) ==>
                  out == Fail(db, NotFound))
            && forall k :: 0 <= k < |db.waitlist| && db.waitlist[k].id == id && db.waitlist[k].tenant == tenant ==>
                 out == Done(db.(waitlist := db.waitlist[k := db.waitlist[k].(status := Withdrawn)]))
  {
  }

  /** A field of a service after an update: the new value if one was given. */
  predicate Updated<T(==)>(change: Option<T>, before: T, after: T) {
    after == match change case Some(value) => value case None => before
  }

  /** A service as an update leaves it. */
  predicate UpdatedInto(before: Service, after: Service, patch: ServicePatch) {
    && after.tenant == before.tenant
    && Updated(patch.duration, before.duration, after.duration) && Updated(patch.price, before.price, after.price)
    && Updated(patch.requiresRoom, before.requiresRoom, after.requiresRoom)
    && Updated(patch.active, before.active, after.active)
    && Updated(patch.depositRequired, before.depositRequired, after.depositRequired)
    && Updated(patch.depositType, before.depositType, after.depositType)
    && Updated(patch.depositValue, before.depositValue, after.depositValue)
  }

  /**
   An update sets the given fields only, exactly if the result has a positive
   duration and complete deposit fields.
   */
  lemma UpdateServiceOutcome(db: Db, tenant: Id, id: Id, patch: ServicePatch, after: Service)
    requires Inv(db)
    requires id in db.catalog.services && db.catalog.services[id].tenant == tenant ==>
               UpdatedInto(db.catalog.services[id], after, patch)
    ensures UpdateService(db, tenant, id, patch) ==
              if id !in db.catalog.services || db.catalog.services[id].tenant != tenant then Fail(db, NotFound)
              else if after.duration <= 0 then Fail(db, Invalid)
              else if after.depositRequired && (after.depositType == None || after.depositValue == None)
                  then Fail(db, Invalid)
              else Done(db.(catalog := db.catalog.(services := db.catalog.services[id := after])))
  {
    if id in db.catalog.services { assert ServiceOk(db.catalog.services[id]); }
  }

  /** A service is added exactly if its duration is positive, its deposit fields are complete and its id is new. */
  lemma CreateServiceOutcome(db: Db, id: Id, s: Service)
    ensures CreateService(db, id, s) ==
              if s.duration <= 0 || (s.depositRequired && (s.depositType == None || s.depositValue == None))
                  then Fail(db, Invalid)
              else if id in db.catalog.services then Fail(db, Integrity)
              else Done(db.(catalog := db.catalog.(services := db.catalog.services[id := s])))
  {
  }
}
