/**
 Which calls of a serial run fail, and for what: a refused slot, the payment
 provider, or a message that cannot be sent.
 */
module Failures {
  import opened Calendar
  import opened Ledger
  import opened Invariant
  import opened Runs
  import opened PaymentRuns

  /** New ids are new, and a new waitlist entry names rows that exist. */
  predicate FreshIds(db: Db, call: Call) {
    match call
    case Charging(_, _, record, _) => record !in db.payments
    case Placing(_, booking) => forall k :: 0 <= k < |db.clients| ==> db.clients[k].id != booking.newClient
    case Joining(entry) => Referenced(db, entry) && forall k :: 0 <= k < |db.waitlist| ==> db.waitlist[k].id != entry.id
    case AddingService(service, _) => service !in db.catalog.services
    case _ => true
  }

  /** A status change of an existing row never violates a constraint when calls run alone. */
  lemma TransitionNeverViolates(db: Db, tenant: Id, id: Id, to: Status, noShow: bool)
    requires Inv(db)
    ensures Transition(db, tenant, id, to, noShow).error != Some(Integrity)
  {
    if FindAppt(db, tenant, id).Some? && Allowed(db.appts[id].status, to) {
      var row := db.appts[id].(status := to, noShow := noShow || db.appts[id].noShow);
      forall j | j in db.appts && j != id ensures !Clash(row, db.appts[j]) {
        assert !Clash(db.appts[id], db.appts[j]);
      }
    }
  }

  lemma ChargeNeverViolates(db: Db, tenant: Id, appt: Id, id: Id, charge: Option<ChargeStatus>)
    requires Inv(db) && id !in db.payments
    ensures CreateDepositCharge(db, tenant, appt, id, charge).error != Some(Integrity)
  {
    if FindAppt(db, tenant, appt).Some? {
      assert RowOk(db, db.appts[appt]);
      var service := FindService(db, tenant, db.appts[appt].service).value;
      assert ServiceOk(service);
      if service.depositRequired && charge.Some? {
        SettleOutcome(db, tenant, id, ChargeRecord(tenant, appt, service, StatusOf(charge.value)));
      }
    }
  }

  lemma ApplyNeverFails(db: Db, tenant: Id, id: Id, status: PaymentStatus)
    requires Inv(db) && FindPayment(db, tenant, id).Some?
    ensures ApplyStatus(db, tenant, id, status).error.None?
  {
    assert PaymentOk(db, db.payments[id]);
    SettleOutcome(db, tenant, id,
        db.payments[id].(status := status, paid := db.payments[id].paid || status == Approved));
  }

  lemma PollNeverViolates(db: Db, tenant: Id, id: Id, charge: Option<ChargeStatus>)
    requires Inv(db)
    ensures RefreshPayment(db, tenant, id, charge).error != Some(Integrity)
  {
    if FindPayment(db, tenant, id).Some? && charge.Some? { ApplyNeverFails(db, tenant, id, StatusOf(charge.value)); }
  }

  lemma DeliveryNeverViolates(db: Db, reference: string, status: ChargeStatus)
    requires Inv(db)
    ensures Webhook(db, reference, status).error.None?
  {
    var parsed := References.ParseReference(reference);
    if parsed.Some? && FindPayment(db, parsed.value.0, parsed.value.1).Some? {
      ApplyNeverFails(db, parsed.value.0, parsed.value.1, StatusOf(status));
    }
  }

  lemma AgendaNeverViolates(db: Db, call: Call)
    requires Inv(db) && IsAgendaCall(call)
    ensures ExecAgenda(db, call).error != Some(Integrity)
  {
    match call
    case Creating(t, id, req) =>
    case Confirming(t, id) => TransitionNeverViolates(db, t, id, Confirmed, false);
    case Completing(t, id) => TransitionNeverViolates(db, t, id, Completed, false);
    case Cancelling(t, id, noShow) => TransitionNeverViolates(db, t, id, Cancelled, noShow);
    case Rescheduling(t, id, starts) =>
  }

  lemma PaymentNeverViolates(db: Db, call: Call)
    requires Inv(db) && IsPaymentCall(call) && FreshIds(db, call)
    ensures ExecPayment(db, call).error != Some(Integrity)
  {
    match call
    case Charging(t, appt, record, charge) => ChargeNeverViolates(db, t, appt, record, charge);
    case Polling(t, record, charge) => PollNeverViolates(db, t, record, charge);
    case Delivering(reference, status) => DeliveryNeverViolates(db, reference, status);
  }

  lemma DeskNeverViolates(db: Db, call: Call)
    requires IsDeskCall(call) && FreshIds(db, call)
    ensures ExecDesk(db, call).error != Some(Integrity)
  {
  }

  lemma PlacementNeverViolates(db: Db, tenant: Id, req: BookingRequest)
    requires forall k :: 0 <= k < |db.clients| ==> db.clients[k].id != req.newClient
    ensures PlaceBooking(db, tenant, req).error != Some(Integrity)
  {
  }

  /** In a state of a run no call with fresh ids dies of an integrity error that nothing catches. */
  lemma NoUncaughtIntegrityError(db: Db, a: Attempt)
    requires Inv(db) && FreshIds(db, a.call)
    ensures Attempted(db, a).error != Some(Integrity)
  {
    if IsAgendaCall(a.call) {
      AgendaNeverViolates(db, a.call);
    } else if IsPaymentCall(a.call) {
      PaymentNeverViolates(db, a.call);
    } else if IsDeskCall(a.call) {
      DeskNeverViolates(db, a.call);
    } else if a.call.Placing? {
      PlacementNeverViolates(db, a.call.tenant, a.call.booking);
    }
  }

  /** Everything a new appointment names exists, and its id is new. */
  predicate WellAddressed(db: Db, tenant: Id, id: Id, req: Request) {
    && FindService(db, tenant, req.service).Some?
    && HasClient(db, tenant, req.client)
    && FindEmployee(db, tenant, req.employee).Some?
    && var room := NewRow(tenant, req, FindService(db, tenant, req.service).value).room;
    && (room.Some? ==> HasRoom(db, tenant, room.value))
    && id !in db.appts
  }

  /**
   Alone, a well-addressed create passes its checks exactly when the constraints
   admit its row; the earlier query never errs.
   */
  lemma CreateRunsExactlyWhenAdmitted(db: Db, tenant: Id, id: Id, req: Request)
    requires Inv(db) && WellAddressed(db, tenant, id, req)
    ensures var row := NewRow(tenant, req, FindService(db, tenant, req.service).value);
            CreateAppointment(db, tenant, id, req) == if Admits(db.appts, id, row) then Done(Insert(db, id, row))
                else Fail(db, Conflict)
  {
    var service := FindService(db, tenant, req.service).value;
    var row := NewRow(tenant, req, service);
    assert ServiceOk(service);
    QueryEqualsConstraint(db.appts, id, row);
    ExcludingAbsentRow(db.appts, id, row);
  }

  lemma InsertSends(db: Db, id: Id, row: Appt, down: set<Log>)
    ensures Undelivered(db, Insert(db, id, row), down) <==>
              row.status == Confirmed && LogOf(id, row, Confirmation) in down
  {
    if row.status == Confirmed {
      OneMessage(db, Insert(db, id, row), LogOf(id, row, Confirmation), down);
    }
  }

  /**
   Alone, a well-addressed create succeeds exactly when the constraints admit
   its row and, for a staff booking, its confirmation can be sent.
   */
  lemma CreateSucceedsExactlyWhenAdmitted(db: Db, tenant: Id, id: Id, req: Request, down: set<Log>)
    requires Inv(db) && WellAddressed(db, tenant, id, req)
    ensures var row := NewRow(tenant, req, FindService(db, tenant, req.service).value);
            Attempted(db, Attempt(Creating(tenant, id, req), down)).error ==
              if !Admits(db.appts, id, row) then Some(Conflict)
              else if req.source == Staff && LogOf(id, row, Confirmation) in down then Some(Unsent)
              else None
  {
    CreateRunsExactlyWhenAdmitted(db, tenant, id, req);
    InsertSends(db, id, NewRow(tenant, req, FindService(db, tenant, req.service).value), down);
  }

  lemma LiveRowMoves(db: Db, tenant: Id, id: Id, starts: int, row: Appt)
    requires FindAppt(db, tenant, id).Some? && FindService(db, tenant, db.appts[id].service).Some?
    requires db.appts[id].status != Cancelled && db.appts[id].status != Completed
    requires row == db.appts[id].(starts := starts, ends := row.ends)
    requires row.ends == starts + FindService(db, tenant, db.appts[id].service).value.duration
    ensures RescheduleTo(db, tenant, id, starts).error ==
              if SlotTaken(db.appts, id, row) || !Admits(db.appts, id, row) then Some(Conflict) else None
  {
  }

  /** Alone, a reschedule of a live row passes its checks exactly when the constraints admit its new times. */
  lemma RescheduleRunsExactlyWhenAdmitted(db: Db, tenant: Id, id: Id, starts: int)
    requires RowsOk(db) && CatalogOk(db) && FindAppt(db, tenant, id).Some?
    requires db.appts[id].status == Pending || db.appts[id].status == Confirmed
    ensures var ends := starts + db.catalog.services[db.appts[id].service].duration;
            var row := db.appts[id].(starts := starts, ends := ends);
            RescheduleTo(db, tenant, id, starts).error == if Admits(db.appts, id, row) then None else Some(Conflict)
  {
    var service := db.catalog.services[db.appts[id].service];
    var row := db.appts[id].(starts := starts, ends := starts + service.duration);
    assert RowOk(db, db.appts[id]) && ServiceOk(service);
    LiveRowMoves(db, tenant, id, starts, row);
    QueryEqualsConstraint(db.appts, id, row);
  }

  /** It succeeds exactly when they do and its notification can be sent. */
  lemma RescheduleSucceedsExactlyWhenAdmitted(db: Db, tenant: Id, id: Id, starts: int, down: set<Log>)
    requires Inv(db) && FindAppt(db, tenant, id).Some?
    requires db.appts[id].status == Pending || db.appts[id].status == Confirmed
    ensures var row :=
              db.appts[id].(starts := starts, ends := starts + db.catalog.services[db.appts[id].service].duration);
            Attempted(db, Attempt(Rescheduling(tenant, id, starts), down)).error ==
              if !Admits(db.appts, id, row) then Some(Conflict)
              else if LogOf(id, db.appts[id], Reschedule) in down then Some(Unsent)
              else None
  {
    RescheduleRunsExactlyWhenAdmitted(db, tenant, id, starts);
    if RescheduleTo(db, tenant, id, starts).error.None? {
      var row := RescheduleWrites(db, tenant, id, starts);
      OneMessage(db, RescheduleTo(db, tenant, id, starts).db, LogOf(id, db.appts[id], Reschedule), down);
    }
  }

  /** What becomes of a placed booking: None, or the client call that failed. */
  function LateFailure(service: Service, company: Company, net: Answers, confirmation: Log): Option<Error> {
    var lost := confirmation in net.down;
    if !service.depositRequired then if company.autoConfirm && lost then Some(Unsent) else None
    else if net.charge.None? then Some(Provider)
    else match net.charge.value
      case ChargeApproved => if lost then Some(Unsent) else None
      case ChargeRejected => None
      case ChargePending =>
        if net.poll.None? then Some(Provider)
        else if net.poll.value == ChargeApproved && lost then Some(Unsent)
        else None
  }

  /**
   A booking whose placement succeeded ends, on a state of a run with a fresh
   record id, exactly as the provider and the message of its confirmation
   decide: it fails if and only if a payment call it makes fails or the
   confirmation it must send cannot be sent. A failing placement leaves nothing.
   */
  lemma LateBookingFailureIsAClient(db: Db, tenant: Id, req: BookingRequest, net: Answers)
    requires Inv(db) && req.record !in db.payments
    ensures var placed := PlaceBooking(db, tenant, req);
            var out := CreateBooking(db, tenant, req, net);
            if placed.error.Some? then out == Fail(db, placed.error.value)
            else
              && tenant in db.catalog.companies && req.service in db.catalog.services && req.appt in placed.db.appts
              && out.error == LateFailure(db.catalog.services[req.service], db.catalog.companies[tenant], net,
                                          LogOf(req.appt, placed.db.appts[req.appt], Confirmation))
  {
    var placed := PlaceBooking(db, tenant, req);
    if placed.error.Some? {
      FailedPlacementChangesNothing(db, tenant, req);
    } else {
      PlaceKeeps(db, tenant, req);
      PlacedIsPending(db, tenant, req);
      PlacementKeepsPayments(db, tenant, req);
      LaterFailure(placed.db, tenant, db.catalog.services[req.service], db.catalog.companies[tenant], req, net);
    }
  }

  /** What a successful placement leaves for the later units. */
  lemma PlacedIsPending(db: Db, tenant: Id, req: BookingRequest)
    requires PlaceBooking(db, tenant, req).error.None?
    ensures var placed := PlaceBooking(db, tenant, req).db;
            && FindAppt(placed, tenant, req.appt).Some? && placed.appts[req.appt].status == Pending
            && placed.appts[req.appt].service == req.service && placed.catalog == db.catalog && req.appt !in db.appts
            && req.service in db.catalog.services
  {
    var clients, request := PlacementIsCreation(db, tenant, req);
  }

  /** A booking that waits to be confirmed. */
  predicate Awaits(db: Db, tenant: Id, service: Service, req: BookingRequest) {
    && FindAppt(db, tenant, req.appt).Some? && db.appts[req.appt].status == Pending
    && FindService(db, tenant, db.appts[req.appt].service) == Some(service)
  }

  lemma LaterFailure(db: Db, tenant: Id, service: Service, company: Company, req: BookingRequest, net: Answers)
    requires Inv(db) && req.record !in db.payments && Awaits(db, tenant, service, req)
    ensures AfterPlacement(db, tenant, service, company, req, net).error ==
              LateFailure(service, company, net, LogOf(req.appt, db.appts[req.appt], Confirmation))
  {
    if service.depositRequired {
      LaterDepositFailure(db, tenant, service, company, req, net);
    } else if company.autoConfirm {
      PendingConfirms(db, tenant, req.appt);
      OneMessage(db, Confirm(db, tenant, req.appt).db, LogOf(req.appt, db.appts[req.appt], Confirmation), net.down);
    }
  }

  lemma LaterDepositFailure(db: Db, tenant: Id, service: Service, company: Company, req: BookingRequest, net: Answers)
    requires Inv(db) && req.record !in db.payments && Awaits(db, tenant, service, req) && service.depositRequired
    ensures AfterPlacement(db, tenant, service, company, req, net).error ==
              LateFailure(service, company, net, LogOf(req.appt, db.appts[req.appt], Confirmation))
  {
    var charged := FollowUp(db, tenant, service, company, req, net);
    assert ServiceOk(service);
    if net.charge.Some? {
      var record := ChargeRecord(tenant, req.appt, service, StatusOf(net.charge.value));
      assert CreateDepositCharge(db, tenant, req.appt, req.record, net.charge) ==
          Settle(db, tenant, req.record, record);
      SettleDelivered(db, tenant, req.record, record, net.down);
      SettleOutcome(db, tenant, req.record, record);
      SettleKeeps(db, tenant, req.record, record);
      if charged.error.None? {
        PollOutcome(charged.db, tenant, req.appt, req.record, net);
      }
    }
  }

  /** Polling the record of a pending appointment. */
  lemma PollOutcome(db: Db, tenant: Id, appt: Id, id: Id, net: Answers)
    requires Inv(db) && FindPayment(db, tenant, id).Some? && db.payments[id].appt == appt &&
               db.payments[id].hasReference
    ensures appt in db.appts
    ensures ReadStatus(db, tenant, appt, Some(id), net).error ==
              if db.payments[id].status != Unpaid then None
              else if net.poll.None? then Some(Provider)
              else if ConfirmationLost(db, appt, StatusOf(net.poll.value), net.down) then Some(Unsent)
              else None
  {
    assert PaymentOk(db, db.payments[id]);
    if db.payments[id].status == Unpaid && net.poll.Some? {
      var record := RecordAfter(db, id, net.poll);
      assert RefreshPayment(db, tenant, id, net.poll) == Settle(db, tenant, id, record);
      SettleDelivered(db, tenant, id, record, net.down);
      SettleOutcome(db, tenant, id, record);
    }
  }

  // ----- one client per phone

  function ClientsWith(clients: seq<Client>, tenant: Id, phone: string): nat {
    if clients == [] then 0
    else
      var c := clients[|clients| - 1];
      ClientsWith(clients[..|clients| - 1], tenant, phone) + (if c.tenant == tenant && c.phone == phone then 1 else 0)
  }

  lemma {:induction false} NoClientMeansNone(clients: seq<Client>, tenant: Id, phone: string)
    ensures ClientsWith(clients, tenant, phone) == 0 <==> ClientByPhone(clients, tenant, phone).None?
    decreases |clients|
  {
    if clients != [] {
      var rest := clients[..|clients| - 1];
      NoClientMeansNone(rest, tenant, phone);
      assert clients == rest + [clients[|clients| - 1]];
      if k :| 0 <= k < |clients| && clients[k].tenant == tenant && clients[k].phone == phone {
        assert k < |rest| ==> rest[k] == clients[k];
      }
      if k :| 0 <= k < |rest| && rest[k].tenant == tenant && rest[k].phone == phone {
        assert clients[k] == rest[k];
      }
    }
  }

  predicate AddsClient(call: Call, tenant: Id, phone: string) {
    call.AddingClient? && call.client.tenant == tenant && call.client.phone == phone
  }

  lemma OneClientMore(clients: seq<Client>, c: Client, tenant: Id, phone: string)
    ensures ClientsWith(clients + [c], tenant, phone) ==
              ClientsWith(clients, tenant, phone) + (if c.tenant == tenant && c.phone == phone then 1 else 0)
  {
    assert (clients + [c])[..|clients|] == clients;
  }

  lemma PlacementAddsFirstClientOnly(db: Db, owner: Id, req: BookingRequest, tenant: Id, phone: string)
    ensures var before := ClientsWith(db.clients, tenant, phone);
            var after := ClientsWith(PlaceBooking(db, owner, req).db.clients, tenant, phone);
            after == before || (before == 0 && after == 1)
  {
    if PlaceBooking(db, owner, req).error.Some? {
      FailedPlacementChangesNothing(db, owner, req);
    } else {
      var clients, request := PlacementIsCreation(db, owner, req);
      OneClientMore(db.clients, Client(req.newClient, owner, req.phone), tenant, phone);
      NoClientMeansNone(db.clients, tenant, phone);
    }
  }

  lemma OthersKeepClients(db: Db, call: Call)
    requires !call.AddingClient? && !call.Placing?
    ensures Exec(db, call).db.clients == db.clients
  {
    if IsAgendaCall(call) {
      AgendaKeepsClients(db, call);
    } else if IsPaymentCall(call) {
      PaymentKeepsClients(db, call);
    }
  }

  lemma AgendaKeepsClients(db: Db, call: Call)
    requires IsAgendaCall(call)
    ensures ExecAgenda(db, call).db.clients == db.clients
  {
    if call.Cancelling? && Cancel(db, call.tenant, call.id, call.noShow).error.None? {
      var moved, told, row := CancelSteps(db, call.tenant, call.id, call.noShow);
    }
  }

  lemma PaymentKeepsClients(db: Db, call: Call)
    requires IsPaymentCall(call)
    ensures ExecPayment(db, call).db.clients == db.clients
  {
  }

  /**
   One attempt of any call but manual entry leaves the number of clients with a
   phone as it is or takes it from none to one, and only a booking does that.
   */
  lemma ClientStep(db: Db, a: Attempt, tenant: Id, phone: string)
    requires !AddsClient(a.call, tenant, phone)
    ensures var before := ClientsWith(db.clients, tenant, phone);
            var after := ClientsWith(Attempted(db, a).db.clients, tenant, phone);
            after == before || (before == 0 && after == 1 && a.call.Placing? && Attempted(db, a).error.None?)
  {
    if Attempted(db, a).error.Some? {
      FailedCallChangesNothing(db, a);
    } else if a.call.Placing? {
      PlacementAddsFirstClientOnly(db, a.call.tenant, a.call.booking, tenant, phone);
    } else {
      CallsKeepClients(db, a.call, tenant, phone);
    }
  }

  lemma CallsKeepClients(db: Db, call: Call, tenant: Id, phone: string)
    requires !AddsClient(call, tenant, phone) && !call.Placing?
    ensures ClientsWith(Exec(db, call).db.clients, tenant, phone) == ClientsWith(db.clients, tenant, phone)
  {
    if call.AddingClient? {
      OneClientMore(db.clients, call.client, tenant, phone);
    } else {
      OthersKeepClients(db, call);
    }
  }

  function ByHand(tenant: Id, phone: string): (Db, Call) -> bool {
    (db: Db, call: Call) => AddsClient(call, tenant, phone)
  }

  function ByBooking(tenant: Id, phone: string): (Db, Call) -> bool {
    (db: Db, call: Call) =>
      call.Placing? && ClientsWith(Exec(db, call).db.clients, tenant, phone) > ClientsWith(db.clients, tenant, phone)
  }

  lemma HandStep(db: Db, a: Attempt, tenant: Id, phone: string)
    requires AddsClient(a.call, tenant, phone)
    ensures ClientsWith(Attempted(db, a).db.clients, tenant, phone) == ClientsWith(db.clients, tenant, phone) + 1
    ensures Attempted(db, a).error.None?
  {
    OneClientMore(db.clients, a.call.client, tenant, phone);
  }

  /**
   In every run the clients with a phone are those entered by hand and at most
   one added by a booking, and that one only if there was none: bookings never
   add a second client for a phone.
   */
  lemma {:induction false} OneClientPerPhone(run: seq<Attempt>, tenant: Id, phone: string)
    ensures ClientsWith(After(run).clients, tenant, phone) ==
              Tally(run, ByHand(tenant, phone)) + Tally(run, ByBooking(tenant, phone))
    ensures Tally(run, ByBooking(tenant, phone)) <= 1
    decreases |run|
  {
    if run != [] {
      var before, a := run[..|run| - 1], run[|run| - 1];
      OneClientPerPhone(before, tenant, phone);
      if AddsClient(a.call, tenant, phone) {
        HandStep(After(before), a, tenant, phone);
      } else {
        ClientStep(After(before), a, tenant, phone);
      }
    }
  }
}
