/**
 Deposit payments over serial runs of charges, polls and webhook deliveries,
 in any order and with repeats.
 */
module PaymentRuns {
  import opened Calendar
  import opened Ledger
  import opened Invariant
  import opened Runs
  import opened References
  import Deposits

  /** In every run an approved record is paid, and its appointment no longer waits for it. */
  lemma ApprovedMeansNotPending(run: seq<Attempt>, id: Id)
    requires id in After(run).payments && After(run).payments[id].status == Approved
    ensures var db := After(run);
            var record := db.payments[id];
            && record.paid && record.appt in db.appts && db.appts[record.appt].tenant == record.tenant
            && db.appts[record.appt].status != Pending
  {
    EveryRunKeeps(run);
    assert PaymentOk(After(run), After(run).payments[id]);
  }

  /** Polling alters the polled record only, and that one only while it is unpaid. */
  lemma PollLeavesSettledRecords(db: Db, tenant: Id, id: Id, charge: Option<ChargeStatus>, other: Id)
    requires other in db.payments && (other != id || db.payments[id].status != Unpaid)
    ensures var after := RefreshPayment(db, tenant, id, charge).db;
            && other in after.payments && after.payments[other] == db.payments[other]
            && (other == id && db.payments[id].tenant == tenant ==> after == db)
  {
    var out := RefreshPayment(db, tenant, id, charge);
    if out.db != db {
      assert out == Settle(db, tenant, id, RecordAfter(db, id, charge));
      SettleWritesRecord(db, tenant, id, RecordAfter(db, id, charge));
    }
  }

  function RecordAfter(db: Db, id: Id, charge: Option<ChargeStatus>): Payment
    requires id in db.payments
  {
    var status := if charge.Some? then StatusOf(charge.value) else db.payments[id].status;
    db.payments[id].(status := status, paid := db.payments[id].paid || status == Approved)
  }

  /** In a state of a run, a pending appointment can always be confirmed. */
  lemma PendingConfirms(db: Db, tenant: Id, id: Id)
    requires Inv(db) && FindAppt(db, tenant, id).Some? && db.appts[id].status == Pending
    ensures Confirm(db, tenant, id).error.None?
    ensures Confirm(db, tenant, id).db.appts == db.appts[id := db.appts[id].(status := Confirmed)]
    ensures Confirm(db, tenant, id).db.logs == db.logs + multiset{LogOf(id, db.appts[id], Confirmation)}
  {
    forall j | j in db.appts && j != id ensures !Clash(db.appts[id].(status := Confirmed), db.appts[j]) {
      assert !Clash(db.appts[id], db.appts[j]);
    }
  }

  /** Does writing a record of this status confirm the appointment, and so send its confirmation? */
  predicate Confirms(appts: Appts, appt: Id, status: PaymentStatus)
    requires appt in appts
  {
    status == Approved && appts[appt].status == Pending
  }

  /** The appointments after a record of the given status was settled. */
  function SettledAppts(appts: Appts, appt: Id, status: PaymentStatus): Appts
    requires appt in appts
  {
    if Confirms(appts, appt, status) then appts[appt := appts[appt].(status := Confirmed)] else appts
  }

  function SettledLogs(db: Db, appt: Id, status: PaymentStatus): multiset<Log>
    requires appt in db.appts
  {
    if Confirms(db.appts, appt, status) then db.logs + multiset{LogOf(appt, db.appts[appt], Confirmation)} else db.logs
  }

  lemma SettleOutcome(db: Db, tenant: Id, id: Id, record: Payment)
    requires Inv(db) && FindAppt(db, tenant, record.appt).Some?
    ensures var out := Settle(db, tenant, id, record);
            && out.error.None?
            && out.db.payments == db.payments[id := record]
            && out.db.appts == SettledAppts(db.appts, record.appt, record.status)
            && out.db.logs == SettledLogs(db, record.appt, record.status)
  {
    var written := db.(payments := db.payments[id := record]);
    if Confirms(db.appts, record.appt, record.status) {
      PendingConfirms(db, tenant, record.appt);
      ConfirmIgnoresPayments(db, written.payments, tenant, record.appt);
      assert Settle(db, tenant, id, record) == Confirm(written, tenant, record.appt);
    } else {
      assert Settle(db, tenant, id, record) == Done(written);
    }
  }

  /** The confirmation this status would send cannot be sent. */
  predicate ConfirmationLost(db: Db, appt: Id, status: PaymentStatus, down: set<Log>)
    requires appt in db.appts
  {
    Confirms(db.appts, appt, status) && LogOf(appt, db.appts[appt], Confirmation) in down
  }

  /** The one message settling a record sends decides whether the call goes through. */
  lemma SettleDelivered(db: Db, tenant: Id, id: Id, record: Payment, down: set<Log>)
    requires Inv(db) && FindAppt(db, tenant, record.appt).Some?
    ensures Delivered(db, Settle(db, tenant, id, record), down) ==
              if ConfirmationLost(db, record.appt, record.status, down) then Fail(db, Unsent)
                  else Settle(db, tenant, id, record)
  {
    SettleOutcome(db, tenant, id, record);
    var after, conf := Settle(db, tenant, id, record).db, LogOf(record.appt, db.appts[record.appt], Confirmation);
    if Confirms(db.appts, record.appt, record.status) {
      OneMessage(db, after, conf, down);
    }
  }

  lemma OneMessage(db: Db, after: Db, log: Log, down: set<Log>)
    requires after.logs == db.logs + multiset{log}
    ensures Undelivered(db, after, down) <==> log in down
  {
    assert after.logs[log] > db.logs[log];
  }

  lemma DeliveryIsAttempted(db: Db, reference: string, status: ChargeStatus, down: set<Log>)
    ensures Attempted(db, Attempt(Delivering(reference, status), down)) ==
              Delivered(db, Webhook(db, reference, status), down)
  {
  }

  /** A delivery for a record of the tenant settles it. */
  lemma DeliveryIsSettling(db: Db, tenant: Id, id: Id, status: ChargeStatus)
    requires FindPayment(db, tenant, id).Some?
    ensures Webhook(db, ExternalReference(tenant, id), status) ==
              Settle(db, tenant, id, RecordAfter(db, id, Some(status)))
  {
    ReferenceRoundTrip(tenant, id);
  }

  /**
   A delivery that carries the reference built at charge creation changes that
   record and nothing else of the payments, and confirms that record's
   appointment exactly when it approves a pending one. It fails, and changes
   nothing, exactly when the confirmation it would send cannot be sent.
   */
  lemma DeliveryLandsOnItsRecord(db: Db, tenant: Id, id: Id, status: ChargeStatus, down: set<Log>)
    requires Inv(db) && FindPayment(db, tenant, id).Some?
    ensures db.payments[id].appt in db.appts
    ensures var out := Attempted(db, Attempt(Delivering(ExternalReference(tenant, id), status), down));
            if ConfirmationLost(db, db.payments[id].appt, StatusOf(status), down) then out == Fail(db, Unsent)
            else
              && out.error.None?
              && out.db.payments == db.payments[id := RecordAfter(db, id, Some(status))]
              && out.db.appts == SettledAppts(db.appts, db.payments[id].appt, StatusOf(status))
  {
    DeliveryIsAttempted(db, ExternalReference(tenant, id), status, down);
    DeliveryIsSettling(db, tenant, id, status);
    assert PaymentOk(db, db.payments[id]);
    SettleOutcome(db, tenant, id, RecordAfter(db, id, Some(status)));
    SettleDelivered(db, tenant, id, RecordAfter(db, id, Some(status)), down);
  }

  /** A reference to another tenant's record, or to none, is ignored. */
  lemma StrayDeliveryIsIgnored(db: Db, tenant: Id, id: Id, status: ChargeStatus)
    requires FindPayment(db, tenant, id).None?
    ensures Webhook(db, ExternalReference(tenant, id), status) == Done(db)
  {
    ReferenceRoundTrip(tenant, id);
  }

  /** A settled record sends nothing when it is settled again, so nothing can stop that either. */
  lemma SettledAgainIsDone(db: Db, tenant: Id, id: Id, record: Payment, down: set<Log>)
    requires Inv(db) && FindAppt(db, tenant, record.appt).Some? && !Confirms(db.appts, record.appt, record.status)
    requires id in db.payments && db.payments[id] == record
    ensures Delivered(db, Settle(db, tenant, id, record), down) == Done(db)
  {
    SettleDelivered(db, tenant, id, record, down);
    assert db.(payments := db.payments[id := record]) == db;
  }

  /**
   What a delivery that went through leaves: its record, as the delivery wrote it,
   and no appointment still to confirm.
   */
  lemma DeliveryLeavesItSettled(db: Db, tenant: Id, id: Id, status: ChargeStatus, down: set<Log>)
    requires Inv(db) && FindPayment(db, tenant, id).Some?
    requires Attempted(db, Attempt(Delivering(ExternalReference(tenant, id), status), down)).error.None?
    ensures var once := Attempted(db, Attempt(Delivering(ExternalReference(tenant, id), status), down)).db;
            && Inv(once) && FindPayment(once, tenant, id).Some?
            && RecordAfter(once, id, Some(status)) == once.payments[id]
            && FindAppt(once, tenant, once.payments[id].appt).Some?
            && !Confirms(once.appts, once.payments[id].appt, StatusOf(status))
  {
    var delivery := Attempt(Delivering(ExternalReference(tenant, id), status), down);
    var once := Attempted(db, delivery).db;
    AttemptKeeps(db, delivery);
    DeliveryLandsOnItsRecord(db, tenant, id, status, down);
    assert PaymentOk(once, once.payments[id]);
  }

  /**
   Repeats are harmless: once a delivery went through, a second one succeeds and
   leaves every table as it is, whatever messages cannot be sent by then.
   */
  lemma RepeatedDeliveryChangesNothing(db: Db, tenant: Id, id: Id, status: ChargeStatus, down: set<Log>,
                                       later: set<Log>)
    requires Inv(db) && FindPayment(db, tenant, id).Some?
    requires Attempted(db, Attempt(Delivering(ExternalReference(tenant, id), status), down)).error.None?
    ensures var once := Attempted(db, Attempt(Delivering(ExternalReference(tenant, id), status), down)).db;
            Attempted(once, Attempt(Delivering(ExternalReference(tenant, id), status), later)) == Done(once)
  {
    var once := Attempted(db, Attempt(Delivering(ExternalReference(tenant, id), status), down)).db;
    DeliveryLeavesItSettled(db, tenant, id, status, down);
    DeliveryIsAttempted(once, ExternalReference(tenant, id), status, later);
    DeliveryIsSettling(once, tenant, id, status);
    SettledAgainIsDone(once, tenant, id, once.payments[id], later);
  }

  lemma PlacementKeepsPayments(db: Db, tenant: Id, req: BookingRequest)
    ensures PlaceBooking(db, tenant, req).db.payments == db.payments
  {
    if PlaceBooking(db, tenant, req).error.Some? {
      FailedPlacementChangesNothing(db, tenant, req);
    } else {
      var clients, request := PlacementIsCreation(db, tenant, req);
    }
  }

  lemma CreationKeepsPayments(db: Db, tenant: Id, id: Id, req: Request)
    ensures CreateAppointment(db, tenant, id, req).db.payments == db.payments
  {
  }

  lemma CancellationKeepsPayments(db: Db, tenant: Id, id: Id, noShow: bool)
    ensures Cancel(db, tenant, id, noShow).db.payments == db.payments
  {
    if Cancel(db, tenant, id, noShow).error.None? {
      var moved, told, row := CancelSteps(db, tenant, id, noShow);
      PromotionKeepsPayments(told, tenant, row);
    }
  }

  lemma PromotionKeepsPayments(db: Db, tenant: Id, freed: Appt)
    ensures Promote(db, tenant, freed).payments == db.payments
  {
  }

  lemma AgendaKeepsPayments(db: Db, call: Call)
    requires IsAgendaCall(call)
    ensures ExecAgenda(db, call).db.payments == db.payments
  {
    match call
    case Creating(t, id, req) => CreationKeepsPayments(db, t, id, req);
    case Confirming(t, id) => ConfirmIgnoresPayments(db, db.payments, t, id);
    case Completing(t, id) => TransitionIgnoresPayments(db, db.payments, t, id, Completed);
    case Cancelling(t, id, noShow) => CancellationKeepsPayments(db, t, id, noShow);
    case Rescheduling(t, id, starts) =>
      if RescheduleTo(db, t, id, starts).error.None? {
        var row := RescheduleWrites(db, t, id, starts);
      }
  }

  lemma DeskKeepsPayments(db: Db, call: Call)
    requires IsDeskCall(call)
    ensures ExecDesk(db, call).db.payments == db.payments
  {
  }

  /** Calls other than charges, polls and deliveries write no payment. */
  lemma OthersKeepPayments(db: Db, call: Call)
    requires !IsPaymentCall(call)
    ensures Exec(db, call).db.payments == db.payments
  {
    if IsAgendaCall(call) {
      AgendaKeepsPayments(db, call);
    } else if IsDeskCall(call) {
      DeskKeepsPayments(db, call);
    } else if call.Placing? {
      PlacementKeepsPayments(db, call.tenant, call.booking);
    }
  }

  /** The one way an approved record loses its approval: a delivery for it with another status. */
  predicate Regresses(db: Db, call: Call, id: Id)
    requires id in db.payments
  {
    call.Delivering? && ParseReference(call.reference) == Some((db.payments[id].tenant, id)) &&
        call.status != ChargeApproved
  }

  /** What a successful charge does is to settle its new record. */
  lemma ChargeSettles(db: Db, tenant: Id, appt: Id, id: Id, charge: Option<ChargeStatus>) returns (record: Payment)
    requires CreateDepositCharge(db, tenant, appt, id, charge).error.None?
    ensures FindAppt(db, tenant, appt).Some? && id !in db.payments && charge.Some?
    ensures record.tenant == tenant && record.appt == appt && record.status == StatusOf(charge.value)
    ensures CreateDepositCharge(db, tenant, appt, id, charge) == Settle(db, tenant, id, record)
  {
    record := ChargeRecord(tenant, appt, FindService(db, tenant, db.appts[appt].service).value, StatusOf(charge.value));
  }

  lemma SettleWritesRecord(db: Db, tenant: Id, id: Id, record: Payment)
    requires Settle(db, tenant, id, record).error.None?
    ensures Settle(db, tenant, id, record).db.payments == db.payments[id := record]
  {
    ConfirmIgnoresPayments(db, db.payments[id := record], tenant, record.appt);
  }

  lemma ChargeKeepsApproval(db: Db, tenant: Id, appt: Id, record: Id, charge: Option<ChargeStatus>, id: Id)
    requires id in db.payments
    ensures var after := CreateDepositCharge(db, tenant, appt, record, charge).db;
            id in after.payments && after.payments[id] == db.payments[id]
  {
    if CreateDepositCharge(db, tenant, appt, record, charge).error.None? {
      var settled := ChargeSettles(db, tenant, appt, record, charge);
      SettleWritesRecord(db, tenant, record, settled);
    }
  }

  lemma DeliveryOutcome(db: Db, reference: string, status: ChargeStatus, id: Id)
    requires Inv(db) && id in db.payments
    ensures var after := Webhook(db, reference, status).db;
            && id in after.payments
            && after.payments[id] ==
                 if ParseReference(reference) == Some((db.payments[id].tenant, id))
                     then RecordAfter(db, id, Some(status)) else db.payments[id]
  {
    var parsed := ParseReference(reference);
    if parsed.Some? && FindPayment(db, parsed.value.0, parsed.value.1).Some? {
      var (tenant, named) := parsed.value;
      assert PaymentOk(db, db.payments[named]);
      assert Webhook(db, reference, status) == Settle(db, tenant, named, RecordAfter(db, named, Some(status)));
      SettleOutcome(db, tenant, named, RecordAfter(db, named, Some(status)));
    }
  }

  lemma PaymentCallAndApproval(db: Db, call: Call, id: Id)
    requires Inv(db) && id in db.payments && db.payments[id].status == Approved && IsPaymentCall(call)
    ensures id in ExecPayment(db, call).db.payments
    ensures ExecPayment(db, call).db.payments[id].status != Approved <==> Regresses(db, call, id)
  {
    match call
    case Charging(t, appt, record, charge) => ChargeKeepsApproval(db, t, appt, record, charge, id);
    case Polling(t, record, charge) => PollLeavesSettledRecords(db, t, record, charge, id);
    case Delivering(reference, status) => DeliveryOutcome(db, reference, status, id);
  }

  /** A delivery that regresses a record sends nothing, so nothing can stop it. */
  lemma RegressionGoesThrough(db: Db, a: Attempt, id: Id)
    requires Inv(db) && id in db.payments && Regresses(db, a.call, id)
    ensures Attempted(db, a) == Exec(db, a.call)
  {
    assert PaymentOk(db, db.payments[id]);
    SettleDelivered(db, db.payments[id].tenant, id, RecordAfter(db, id, Some(a.call.status)), a.down);
  }

  lemma ApprovalLostExactlyByDelivery(db: Db, a: Attempt, id: Id)
    requires Inv(db) && id in db.payments && db.payments[id].status == Approved
    ensures id in Attempted(db, a).db.payments
    ensures Attempted(db, a).db.payments[id].status != Approved <==> Regresses(db, a.call, id)
  {
    if IsPaymentCall(a.call) {
      PaymentCallAndApproval(db, a.call, id);
      if Regresses(db, a.call, id) { RegressionGoesThrough(db, a, id); }
    } else {
      OthersKeepPayments(db, a.call);
    }
  }

  /** So every run that has an approved record goes on to one that has lost it. */
  lemma ApprovalCanBeLost(run: seq<Attempt>, id: Id)
    requires id in After(run).payments && After(run).payments[id].status == Approved
    ensures var record := After(run).payments[id];
            var next := Attempt(Delivering(ExternalReference(record.tenant, id), ChargeRejected), {});
            id in After(run + [next]).payments && After(run + [next]).payments[id].status == Rejected
  {
    var record := After(run).payments[id];
    var next := Attempt(Delivering(ExternalReference(record.tenant, id), ChargeRejected), {});
    EveryRunKeeps(run);
    assert (run + [next])[..|run|] == run;
    DeliveryLandsOnItsRecord(After(run), record.tenant, id, ChargeRejected, {});
  }

  lemma OneMore(run: seq<Attempt>, a: Attempt)
    ensures After(run + [a]) == Attempted(After(run), a).db
  {
    assert (run + [a])[..|run|] == run;
  }

  const HAIRCUT := Service(1, 30, 5000, false, true, true, Some(Deposits.Percentage), Some(5000))

  const STAFFED := Catalog(map[], map[1 := HAIRCUT], map[1 := Employee(1, true, {1}, [])], [])

  const OPENED := EMPTY.(catalog := STAFFED, clients := [Client(1, 1, "")])

  const VISIT := Appt(1, 1, 1, 1, None, 600, 630, Confirmed, Staff, false)

  /** A service, an employee and a client are entered. */
  lemma OpeningRun() returns (run: seq<Attempt>)
    ensures After(run) == OPENED
  {
    var service := Attempt(AddingService(1, HAIRCUT), {});
    var staff := Attempt(EditingStaff(map[], STAFFED.employees, []), {});
    var client := Attempt(AddingClient(Client(1, 1, "")), {});
    OneMore([], service);
    OneMore([] + [service], staff);
    OneMore([] + [service] + [staff], client);
    run := [] + [service] + [staff] + [client];
  }

  /** Staff books the visit. */
  lemma BookingRun() returns (run: seq<Attempt>)
    ensures After(run).appts == map[1 := VISIT] && After(run).catalog == STAFFED && After(run).payments == map[]
  {
    var opening := OpeningRun();
    var create := Attempt(Creating(1, 1, Request(1, 1, 1, 600, None, Staff)), {});
    assert OPENED.clients[0].id == 1 && OPENED.clients[0].tenant == 1;
    assert HasClient(OPENED, 1, 1);
    assert CreateAppointment(OPENED, 1, 1, create.call.req) == Done(Insert(OPENED, 1, VISIT));
    OneMore(opening, create);
    run := opening + [create];
  }

  /** A run in which an approved record loses its approval: its deposit is approved at once and rejected later. */
  lemma SomeRunLosesAnApproval() returns (run: seq<Attempt>, next: Attempt)
    ensures 1 in After(run).payments && After(run).payments[1].status == Approved
    ensures 1 in After(run + [next]).payments && After(run + [next]).payments[1].status == Rejected
  {
    var booked := BookingRun();
    var charge := Attempt(Charging(1, 1, 1, Some(ChargeApproved)), {});
    EveryRunKeeps(booked);
    ChargeOutcome(After(booked), 1, 1, 1, ChargeApproved, {});
    OneMore(booked, charge);
    run := booked + [charge];
    var record := After(run).payments[1];
    next := Attempt(Delivering(ExternalReference(record.tenant, 1), ChargeRejected), {});
    ApprovalCanBeLost(run, 1);
  }

  // ----- a charge whose confirmation cannot be sent

  /** The outcome of a charge, decided by the provider's answer and by the confirmation it may send. */
  lemma ChargeOutcome(db: Db, tenant: Id, appt: Id, id: Id, status: ChargeStatus, down: set<Log>)
    requires Inv(db) && FindAppt(db, tenant, appt).Some? && id !in db.payments
    requires FindService(db, tenant, db.appts[appt].service).value.depositRequired
    ensures var out := Attempted(db, Attempt(Charging(tenant, appt, id, Some(status)), down));
            if ConfirmationLost(db, appt, StatusOf(status), down) then out == Fail(db, Unsent)
            else
              && out.error.None? && FindPayment(out.db, tenant, id).Some?
              && out.db.payments[id].status == StatusOf(status)
              && out.db.appts == SettledAppts(db.appts, appt, StatusOf(status))
  {
    var service := FindService(db, tenant, db.appts[appt].service).value;
    assert RowOk(db, db.appts[appt]) && ServiceOk(service);
    var record := ChargeRecord(tenant, appt, service, StatusOf(status));
    SettleOutcome(db, tenant, id, record);
    SettleDelivered(db, tenant, id, record, down);
  }

  /**
   The provider may have charged the client and the record be lost: exactly
   when the charge is approved at once, the appointment still pending and its
   confirmation cannot be sent. The provider's later deliveries are ignored.
   */
  lemma ApprovedChargeLostExactlyWithItsConfirmation(db: Db, tenant: Id, appt: Id, id: Id, status: ChargeStatus,
                                                     down: set<Log>)
    requires Inv(db) && FindAppt(db, tenant, appt).Some? && id !in db.payments
    requires FindService(db, tenant, db.appts[appt].service).value.depositRequired
    ensures var after := Attempted(db, Attempt(Charging(tenant, appt, id, Some(status)), down)).db;
            && (id !in after.payments <==> ConfirmationLost(db, appt, StatusOf(status), down))
            && (id !in after.payments ==>
                 after == db && Webhook(after, ExternalReference(tenant, id), ChargeApproved) == Done(after))
  {
    ChargeOutcome(db, tenant, appt, id, status, down);
    if ConfirmationLost(db, appt, StatusOf(status), down) {
      StrayDeliveryIsIgnored(db, tenant, id, ChargeApproved);
    }
  }

  const REQUEST := Appt(1, 1, 1, 1, None, 600, 630, Pending, PublicBooking, false)

  /** A client asks for the visit on the booking page. */
  lemma RequestRun() returns (run: seq<Attempt>)
    ensures After(run).appts == map[1 := REQUEST] && After(run).catalog == STAFFED && After(run).payments == map[]
  {
    var opening := OpeningRun();
    var create := Attempt(Creating(1, 1, Request(1, 1, 1, 600, None, PublicBooking)), {});
    assert OPENED.clients[0].id == 1 && OPENED.clients[0].tenant == 1;
    assert HasClient(OPENED, 1, 1);
    assert CreateAppointment(OPENED, 1, 1, create.call.req) == Done(Insert(OPENED, 1, REQUEST));
    OneMore(opening, create);
    run := opening + [create];
  }

  /**
   A run that loses a charge: the provider approves the deposit of a pending
   visit, its confirmation cannot be sent, and no record is left.
   */
  lemma SomeRunLosesACharge() returns (run: seq<Attempt>, charge: Attempt)
    ensures charge.call == Charging(1, 1, 1, Some(ChargeApproved))
    ensures Attempted(After(run), charge) == Fail(After(run), Unsent)
    ensures 1 !in After(run + [charge]).payments && After(run + [charge]).appts[1].status == Pending
    ensures Webhook(After(run + [charge]), ExternalReference(1, 1), ChargeApproved) == Done(After(run + [charge]))
  {
    run := RequestRun();
    charge := Attempt(Charging(1, 1, 1, Some(ChargeApproved)), {LogOf(1, REQUEST, Confirmation)});
    EveryRunKeeps(run);
    ChargeOutcome(After(run), 1, 1, 1, ChargeApproved, charge.down);
    OneMore(run, charge);
    StrayDeliveryIsIgnored(After(run), 1, 1, ChargeApproved);
  }
}
