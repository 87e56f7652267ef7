/**
 Serial runs: service calls one after the other, each on the state the
 previous one committed. What every run keeps, and what it counts.
 */
module Runs {
  import opened Calendar
  import opened Ledger
  import opened Invariant
  import References

  datatype Call =
    | Creating(tenant: Id, id: Id, req: Request)
    | Confirming(tenant: Id, id: Id)
    | Completing(tenant: Id, id: Id)
    | Cancelling(tenant: Id, id: Id, noShow: bool)
    | Rescheduling(tenant: Id, id: Id, starts: int)
    | Joining(entry: WaitEntry)
    | Leaving(tenant: Id, id: Id)
    | Charging(tenant: Id, appt: Id, record: Id, charge: Option<ChargeStatus>)
    | Polling(tenant: Id, record: Id, charge: Option<ChargeStatus>)
    | Delivering(reference: string, status: ChargeStatus)
    | Scanning(tenant: Id, now: int)
    | Placing(tenant: Id, booking: BookingRequest)
    | EditingService(tenant: Id, service: Id, patch: ServicePatch)
    | AddingService(service: Id, data: Service)
    | AddingClient(client: Client)
    | EditingStaff(companies: map<Id, Company>, employees: map<Id, Employee>, rooms: seq<Room>)

  predicate IsAgendaCall(call: Call) {
    call.Creating? || call.Confirming? || call.Completing? || call.Cancelling? || call.Rescheduling?
  }

  predicate IsPaymentCall(call: Call) {
    call.Charging? || call.Polling? || call.Delivering?
  }

  predicate IsDeskCall(call: Call) {
    call.Joining? || call.Leaving? || call.EditingService? || call.AddingService? || call.AddingClient? ||
        call.EditingStaff?
  }

  function ExecAgenda(db: Db, call: Call): Outcome
    requires IsAgendaCall(call)
  {
    match call
    case Creating(t, id, req) => CreateAppointment(db, t, id, req)
    case Confirming(t, id) => Confirm(db, t, id)
    case Completing(t, id) => Complete(db, t, id)
    case Cancelling(t, id, noShow) => Cancel(db, t, id, noShow)
    case Rescheduling(t, id, starts) => RescheduleTo(db, t, id, starts)
  }

  function ExecPayment(db: Db, call: Call): Outcome
    requires IsPaymentCall(call)
  {
    match call
    case Charging(t, appt, record, charge) => CreateDepositCharge(db, t, appt, record, charge)
    case Polling(t, record, charge) => RefreshPayment(db, t, record, charge)
    case Delivering(reference, status) => Webhook(db, reference, status)
  }

  function ExecDesk(db: Db, call: Call): Outcome
    requires IsDeskCall(call)
  {
    match call
    case Joining(entry) => JoinWaitlist(db, entry)
    case Leaving(t, id) => LeaveWaitlist(db, t, id)
    case EditingService(t, service, patch) => UpdateService(db, t, service, patch)
    case AddingService(service, data) => CreateService(db, service, data)
    case AddingClient(client) => Done(db.(clients := db.clients + [client]))
    case EditingStaff(companies, employees, rooms) =>
      Done(db.(catalog := db.catalog.(companies := companies, employees := employees, rooms := rooms)))
  }

  /** The call when all its messages are sent. */
  function Exec(db: Db, call: Call): Outcome {
    if IsAgendaCall(call) then ExecAgenda(db, call)
    else if IsPaymentCall(call) then ExecPayment(db, call)
    else if IsDeskCall(call) then ExecDesk(db, call)
    else if call.Scanning? then Done(Scan(db, call.tenant, call.now))
    else PlaceBooking(db, call.tenant, call.booking)
  }

  /** A call and the messages that cannot be sent while it runs. */
  datatype Attempt = Attempt(call: Call, down: set<Log>)

  function Attempted(db: Db, a: Attempt): Outcome {
    Delivered(db, Exec(db, a.call), a.down)
  }

  const EMPTY := Db(Catalog(map[], map[], map[], []), [], map[], [], multiset{}, [], map[])

  /** The state after a run. */
  function From(db: Db, run: seq<Attempt>): Db
    decreases |run|
  {
    if run == [] then db else Attempted(From(db, run[..|run| - 1]), run[|run| - 1]).db
  }

  /** The state after a run from the empty database. */
  function After(run: seq<Attempt>): Db {
    From(EMPTY, run)
  }

  /** A service call that fails, by itself or for a message, leaves the committed state as it was. */
  lemma FailedCallChangesNothing(db: Db, a: Attempt)
    requires Attempted(db, a).error.Some?
    ensures Attempted(db, a).db == db
  {
    if a.call.Placing? && Exec(db, a.call).error.Some? {
      FailedPlacementChangesNothing(db, a.call.tenant, a.call.booking);
    }
  }

  // ----- the invariant over runs

  /** A booking that fails before its first commit leaves nothing behind, no client either. */
  lemma FailedPlacementChangesNothing(db: Db, tenant: Id, req: BookingRequest)
    requires PlaceBooking(db, tenant, req).error.Some?
    ensures PlaceBooking(db, tenant, req).db == db
  {
  }

  /** The appointment request a successful placement makes, on the state with its client. */
  lemma PlacementIsCreation(db: Db, tenant: Id, req: BookingRequest) returns (clients: seq<Client>, request: Request)
    requires PlaceBooking(db, tenant, req).error.None?
    ensures PlaceBooking(db, tenant, req) == CreateAppointment(db.(clients := clients), tenant, req.appt, request)
    ensures request.source == PublicBooking && request.service == req.service && request.employee == req.employee &&
              request.starts == req.starts
    ensures clients == if ClientByPhone(db.clients, tenant, req.phone).Some? then db.clients
                       else db.clients + [Client(req.newClient, tenant, req.phone)]
  {
    clients := FindOrCreateClient(db, tenant, req.phone, req.newClient).db.clients;
    request := BookedRequest(db, tenant, req);
  }

  lemma PlaceKeeps(db: Db, tenant: Id, req: BookingRequest)
    requires Inv(db)
    ensures Inv(PlaceBooking(db, tenant, req).db)
  {
    if PlaceBooking(db, tenant, req).error.Some? {
      FailedPlacementChangesNothing(db, tenant, req);
    } else {
      var clients, request := PlacementIsCreation(db, tenant, req);
      ClientsWriteKeeps(db, clients);
      CreateKeeps(db.(clients := clients), tenant, req.appt, request);
    }
  }

  lemma UpdateServiceKeeps(db: Db, tenant: Id, id: Id, patch: ServicePatch)
    requires Inv(db)
    ensures Inv(UpdateService(db, tenant, id, patch).db)
  {
    if UpdateService(db, tenant, id, patch).error.None? {
      assert ServiceOk(db.catalog.services[id]);
      CatalogWriteKeeps(db, UpdateService(db, tenant, id, patch).db.catalog);
    }
  }

  lemma CreateServiceKeeps(db: Db, id: Id, s: Service)
    requires Inv(db)
    ensures Inv(CreateService(db, id, s).db)
  {
    if CreateService(db, id, s).error.None? {
      CatalogWriteKeeps(db, CreateService(db, id, s).db.catalog);
    }
  }

  lemma JoinKeeps(db: Db, entry: WaitEntry)
    requires Inv(db)
    ensures Inv(JoinWaitlist(db, entry).db)
  {
    WaitlistWriteKeeps(db, JoinWaitlist(db, entry).db.waitlist);
  }

  lemma LeaveKeeps(db: Db, tenant: Id, id: Id)
    requires Inv(db)
    ensures Inv(LeaveWaitlist(db, tenant, id).db)
  {
    WaitlistWriteKeeps(db, LeaveWaitlist(db, tenant, id).db.waitlist);
  }

  lemma StaffWriteKeeps(db: Db, companies: map<Id, Company>, employees: map<Id, Employee>, rooms: seq<Room>)
    requires Inv(db)
    ensures Inv(db.(catalog := db.catalog.(companies := companies, employees := employees, rooms := rooms)))
  {
    CatalogWriteKeeps(db, db.catalog.(companies := companies, employees := employees, rooms := rooms));
  }

  lemma AgendaCallKeeps(db: Db, call: Call)
    requires Inv(db) && IsAgendaCall(call)
    ensures Inv(ExecAgenda(db, call).db)
  {
    match call
    case Creating(t, id, req) => CreateKeeps(db, t, id, req);
    case Confirming(t, id) => ConfirmKeeps(db, t, id);
    case Completing(t, id) => CompleteKeeps(db, t, id);
    case Cancelling(t, id, noShow) => CancelKeeps(db, t, id, noShow);
    case Rescheduling(t, id, starts) => RescheduleKeeps(db, t, id, starts);
  }

  lemma PaymentCallKeeps(db: Db, call: Call)
    requires Inv(db) && IsPaymentCall(call)
    ensures Inv(ExecPayment(db, call).db)
  {
    match call
    case Charging(t, appt, record, charge) => ChargeKeeps(db, t, appt, record, charge);
    case Polling(t, record, charge) => RefreshKeeps(db, t, record, charge);
    case Delivering(reference, status) => DeliveryKeeps(db, reference, status);
  }

  lemma DeskCallKeeps(db: Db, call: Call)
    requires Inv(db) && IsDeskCall(call)
    ensures Inv(ExecDesk(db, call).db)
  {
    match call
    case Joining(entry) => JoinKeeps(db, entry);
    case Leaving(t, id) => LeaveKeeps(db, t, id);
    case EditingService(t, service, patch) => UpdateServiceKeeps(db, t, service, patch);
    case AddingService(service, data) => CreateServiceKeeps(db, service, data);
    case AddingClient(client) => ClientsWriteKeeps(db, db.clients + [client]);
    case EditingStaff(companies, employees, rooms) => StaffWriteKeeps(db, companies, employees, rooms);
  }

  lemma ScanKeeps(db: Db, tenant: Id, now: int)
    requires Inv(db)
    ensures Inv(Scan(db, tenant, now))
  {
    RemindKeeps(db, tenant, Reminder24h, now);
    RemindKeeps(Remind(db, tenant, Reminder24h, now), tenant, Reminder2h, now);
  }

  lemma ExecKeeps(db: Db, call: Call)
    requires Inv(db)
    ensures Inv(Exec(db, call).db)
  {
    if IsAgendaCall(call) {
      AgendaCallKeeps(db, call);
    } else if IsPaymentCall(call) {
      PaymentCallKeeps(db, call);
    } else if IsDeskCall(call) {
      DeskCallKeeps(db, call);
    } else if call.Scanning? {
      ScanKeeps(db, call.tenant, call.now);
    } else {
      PlaceKeeps(db, call.tenant, call.booking);
    }
  }

  lemma DeliveryKeeps(db: Db, reference: string, status: ChargeStatus)
    requires Inv(db)
    ensures Inv(Webhook(db, reference, status).db)
  {
    var parsed := References.ParseReference(reference);
    if parsed.Some? && FindPayment(db, parsed.value.0, parsed.value.1).Some? {
      ApplyKeeps(db, parsed.value.0, parsed.value.1, StatusOf(status));
    }
  }

  lemma AttemptKeeps(db: Db, a: Attempt)
    requires Inv(db)
    ensures Inv(Attempted(db, a).db)
  {
    ExecKeeps(db, a.call);
  }

  lemma {:induction false} RunKeeps(db: Db, run: seq<Attempt>)
    requires Inv(db)
    ensures Inv(From(db, run))
    decreases |run|
  {
    if run != [] {
      RunKeeps(db, run[..|run| - 1]);
      AttemptKeeps(From(db, run[..|run| - 1]), run[|run| - 1]);
    }
  }

  /** Main result: every serial run, from the empty database on, keeps the invariant. */
  lemma EveryRunKeeps(run: seq<Attempt>)
    ensures Inv(After(run))
  {
    RunKeeps(EMPTY, run);
  }

  // ----- histories and notifications of a run

  /** How often a path enters a status. */
  function Visits(path: seq<Entry>, to: Status): nat {
    if path == [] then 0 else Visits(path[..|path| - 1], to) + (if path[|path| - 1].to == to then 1 else 0)
  }

  lemma VisitsOneMore(path: seq<Entry>, e: Entry, to: Status)
    ensures Visits(path + [e], to) == Visits(path, to) + (if e.to == to then 1 else 0)
    ensures path + [] == path
  {
    assert (path + [e])[..|path|] == path;
  }

  lemma {:induction false} EntriesAreVisits(history: seq<Entry>, id: Id, to: Status)
    ensures Entries(history, id, to) == Visits(HistoryOf(history, id), to)
    decreases |history|
  {
    if history != [] {
      var rest := history[..|history| - 1];
      EntriesAreVisits(rest, id, to);
      VisitsOneMore(HistoryOf(rest, id), history[|history| - 1], to);
    }
  }

  lemma {:induction false} DistinctVisitsAreSingle(path: seq<Entry>, to: Status)
    requires forall i, j :: 0 <= i < j < |path| ==> path[i].to != path[j].to
    ensures Visits(path, to) <= 1
    ensures Visits(path, to) == 1 <==> exists k :: 0 <= k < |path| && path[k].to == to
    decreases |path|
  {
    if path != [] {
      var rest := path[..|path| - 1];
      DistinctVisitsAreSingle(rest, to);
      if k :| 0 <= k < |path| && path[k].to == to {
        assert k < |rest| ==> rest[k].to == to;
      }
    }
  }

  /**
   In every run, each appointment's history is a path of the transition graph
   from its creation to its present status, of at most three entries, and
   RESCHEDULED is never reached.
   */
  lemma HistoriesArePaths(run: seq<Attempt>, id: Id)
    requires id in After(run).appts
    ensures var db := After(run);
            var path := HistoryOf(db.history, id);
            && IsPath(path, db.appts[id].status) && |path| <= 3
            && db.appts[id].status != Rescheduled
            && (db.appts[id].noShow ==> db.appts[id].status == Cancelled)
  {
    var db := After(run);
    EveryRunKeeps(run);
    assert LifeOk(db.appts, db.history, id) && RowOk(db, db.appts[id]);
    PathsAreShort(HistoryOf(db.history, id), db.appts[id].status);
  }

  /**
   In every run the confirmation and cancellation logs of an appointment equal
   its entries into CONFIRMED and CANCELLED, at most one each, and there is a
   cancellation log exactly when it is cancelled now.
   */
  lemma NotificationsMatchHistory(run: seq<Attempt>, id: Id)
    requires id in After(run).appts
    ensures var db := After(run);
            var row := db.appts[id];
            && db.logs[LogOf(id, row, Confirmation)] == Visits(HistoryOf(db.history, id), Confirmed) <= 1
            && db.logs[LogOf(id, row, Cancellation)] == Visits(HistoryOf(db.history, id), Cancelled) <= 1
            && (db.logs[LogOf(id, row, Cancellation)] == 1 <==> row.status == Cancelled)
            && (row.status == Confirmed || row.status == Completed ==> db.logs[LogOf(id, row, Confirmation)] == 1)
  {
    var db := After(run);
    var path := HistoryOf(db.history, id);
    EveryRunKeeps(run);
    assert LifeOk(db.appts, db.history, id) && CountsOk(db.logs, db.history, id, db.appts[id]);
    PathsAreShort(path, db.appts[id].status);
    EntriesAreVisits(db.history, id, Confirmed);
    EntriesAreVisits(db.history, id, Cancelled);
    DistinctVisitsAreSingle(path, Confirmed);
    DistinctVisitsAreSingle(path, Cancelled);
    CancelledAndCompletedAreLast(path, db.appts[id].status);
  }

  /** CANCELLED is only ever the last entry, and COMPLETED follows CONFIRMED. */
  lemma CancelledAndCompletedAreLast(path: seq<Entry>, last: Status)
    requires IsPath(path, last)
    ensures (exists k :: 0 <= k < |path| && path[k].to == Cancelled) <==> last == Cancelled
    ensures last == Confirmed || last == Completed ==> exists k :: 0 <= k < |path| && path[k].to == Confirmed
  {
    if k :| 0 <= k < |path| && path[k].to == Cancelled {
      assert k + 1 < |path| ==> Allowed(path[k].to, path[k + 1].to);
    }
    assert path[|path| - 1].to == last;
    if last == Completed {
      assert path[|path| - 2].to == Confirmed;
    }
  }

  // ----- which logs a call adds

  /** The kinds of notification a call may add. */
  function Loud(call: Call): set<Kind> {
    match call
    case Creating(_, _, _) => {Confirmation}
    case Confirming(_, _) => {Confirmation}
    case Cancelling(_, _, _) => {Cancellation, WaitlistPromotion}
    case Rescheduling(_, _, _) => {Reschedule}
    case Charging(_, _, _, _) => {Confirmation}
    case Polling(_, _, _) => {Confirmation}
    case Delivering(_, _) => {Confirmation}
    case Scanning(_, _) => {Reminder24h, Reminder2h}
    case _ => {}
  }

  /** Rows stay, with their owner and client; logs outside the given kinds stay as they are. */
  ghost predicate Quiet(db: Db, after: Db, loud: set<Kind>) {
    && (forall id :: id in db.appts ==>
          id in after.appts && after.appts[id].tenant == db.appts[id].tenant &&
              after.appts[id].client == db.appts[id].client)
    && (forall log: Log :: log.kind !in loud ==> after.logs[log] == db.logs[log])
  }

  lemma ConfirmIsQuiet(db: Db, tenant: Id, id: Id)
    ensures Quiet(db, Confirm(db, tenant, id).db, {Confirmation}) && Confirm(db, tenant, id).db.waitlist == db.waitlist
  {
    var moved := Transition(db, tenant, id, Confirmed, false);
    TransitionIsQuiet(db, tenant, id, Confirmed, false);
    if moved.error.None? {
      SendIsQuiet(moved.db, tenant, Some(id), db.appts[id].client, Confirmation);
    }
  }

  lemma SettleIsQuiet(db: Db, tenant: Id, id: Id, record: Payment)
    ensures Quiet(db, Settle(db, tenant, id, record).db, {Confirmation}) &&
              Settle(db, tenant, id, record).db.waitlist == db.waitlist
  {
    ConfirmIsQuiet(db.(payments := db.payments[id := record]), tenant, record.appt);
  }

  lemma ChargeIsQuiet(db: Db, tenant: Id, appt: Id, id: Id, charge: Option<ChargeStatus>)
    ensures var out := CreateDepositCharge(db, tenant, appt, id, charge).db;
            Quiet(db, out, {Confirmation}) && out.waitlist == db.waitlist
  {
    if CreateDepositCharge(db, tenant, appt, id, charge).error.None? {
      SettleIsQuiet(db, tenant, id,
          ChargeRecord(tenant, appt, db.catalog.services[db.appts[appt].service], StatusOf(charge.value)));
    }
  }

  lemma ApplyIsQuiet(db: Db, tenant: Id, id: Id, status: PaymentStatus)
    requires id in db.payments
    ensures var out := ApplyStatus(db, tenant, id, status).db;
            Quiet(db, out, {Confirmation}) && out.waitlist == db.waitlist
  {
    SettleIsQuiet(db, tenant, id,
        db.payments[id].(status := status, paid := db.payments[id].paid || status == Approved));
  }

  lemma RefreshIsQuiet(db: Db, tenant: Id, id: Id, charge: Option<ChargeStatus>)
    ensures var out := RefreshPayment(db, tenant, id, charge).db;
            Quiet(db, out, {Confirmation}) && out.waitlist == db.waitlist
  {
    if FindPayment(db, tenant, id).Some? && charge.Some? { ApplyIsQuiet(db, tenant, id, StatusOf(charge.value)); }
  }

  lemma DeliveryIsQuiet(db: Db, reference: string, status: ChargeStatus)
    ensures var out := Webhook(db, reference, status).db;
            Quiet(db, out, {Confirmation}) && out.waitlist == db.waitlist
  {
    var parsed := References.ParseReference(reference);
    if parsed.Some? && FindPayment(db, parsed.value.0, parsed.value.1).Some? {
      ApplyIsQuiet(db, parsed.value.0, parsed.value.1, StatusOf(status));
    }
  }

  lemma CreateIsQuiet(db: Db, tenant: Id, id: Id, req: Request)
    ensures var out := CreateAppointment(db, tenant, id, req).db;
            Quiet(db, out, {Confirmation}) && out.waitlist == db.waitlist
  {
  }

  /** A public booking starts PENDING and sends nothing. */
  lemma PublicCreateIsQuiet(db: Db, tenant: Id, id: Id, req: Request)
    requires req.source == PublicBooking
    ensures var out := CreateAppointment(db, tenant, id, req).db;
            Quiet(db, out, {}) && out.waitlist == db.waitlist
  {
  }

  lemma PlaceIsQuiet(db: Db, tenant: Id, req: BookingRequest)
    ensures var out := PlaceBooking(db, tenant, req).db;
            Quiet(db, out, {}) && out.waitlist == db.waitlist
  {
    if PlaceBooking(db, tenant, req).error.Some? {
      FailedPlacementChangesNothing(db, tenant, req);
    } else {
      var clients, request := PlacementIsCreation(db, tenant, req);
      PublicCreateIsQuiet(db.(clients := clients), tenant, req.appt, request);
    }
  }

  lemma PromoteIsQuiet(db: Db, tenant: Id, freed: Appt)
    ensures Quiet(db, Promote(db, tenant, freed), {WaitlistPromotion})
  {
  }

  lemma TransitionIsQuiet(db: Db, tenant: Id, id: Id, to: Status, noShow: bool)
    ensures Quiet(db, Transition(db, tenant, id, to, noShow).db, {}) &&
              Transition(db, tenant, id, to, noShow).db.waitlist == db.waitlist
  {
  }

  lemma SendIsQuiet(db: Db, tenant: Id, appointment: Option<Id>, client: Id, kind: Kind)
    ensures Quiet(db, Send(db, tenant, appointment, client, kind), {kind})
    ensures Send(db, tenant, appointment, client, kind).waitlist == db.waitlist
  {
  }

  lemma CancelIsQuiet(db: Db, tenant: Id, id: Id, noShow: bool)
    ensures Quiet(db, Cancel(db, tenant, id, noShow).db, {Cancellation, WaitlistPromotion})
  {
    if Cancel(db, tenant, id, noShow).error.None? {
      var moved, told, row := CancelSteps(db, tenant, id, noShow);
      PromoteIsQuiet(told, tenant, row);
      ThreeQuietSteps(db, moved, told, Promote(told, tenant, row), {Cancellation, WaitlistPromotion});
    }
  }

  lemma ThreeQuietSteps(a: Db, b: Db, c: Db, d: Db, loud: set<Kind>)
    requires Quiet(a, b, {}) && Quiet(b, c, loud) && Quiet(c, d, loud)
    ensures Quiet(a, d, loud)
  {
  }

  lemma RescheduleIsQuiet(db: Db, tenant: Id, id: Id, starts: int)
    ensures var out := RescheduleTo(db, tenant, id, starts).db;
            Quiet(db, out, {Reschedule}) && out.waitlist == db.waitlist
  {
    if RescheduleTo(db, tenant, id, starts).error.None? {
      var row := RescheduleWrites(db, tenant, id, starts);
    }
  }

  lemma ScanIsQuiet(db: Db, tenant: Id, now: int)
    ensures Quiet(db, Scan(db, tenant, now), {Reminder24h, Reminder2h}) && Scan(db, tenant, now).waitlist == db.waitlist
  {
    assert Quiet(db, Remind(db, tenant, Reminder24h, now), {Reminder24h});
    assert Quiet(Remind(db, tenant, Reminder24h, now), Scan(db, tenant, now), {Reminder2h});
  }

  lemma AgendaCallsAreQuiet(db: Db, call: Call)
    requires IsAgendaCall(call)
    ensures Quiet(db, ExecAgenda(db, call).db, Loud(call))
    ensures !call.Cancelling? ==> ExecAgenda(db, call).db.waitlist == db.waitlist
  {
    match call
    case Creating(t, id, req) => CreateIsQuiet(db, t, id, req);
    case Confirming(t, id) => ConfirmIsQuiet(db, t, id);
    case Completing(t, id) => TransitionIsQuiet(db, t, id, Completed, false);
    case Cancelling(t, id, noShow) => CancelIsQuiet(db, t, id, noShow);
    case Rescheduling(t, id, starts) => RescheduleIsQuiet(db, t, id, starts);
  }

  /** What payment calls leave: they confirm at most, and leave the waitlist alone. */
  ghost predicate OnlyConfirms(db: Db, out: Outcome) {
    Quiet(db, out.db, {Confirmation}) && out.db.waitlist == db.waitlist
  }

  lemma ChargingOnlyConfirms(db: Db, tenant: Id, appt: Id, id: Id, charge: Option<ChargeStatus>)
    ensures OnlyConfirms(db, CreateDepositCharge(db, tenant, appt, id, charge))
  {
    ChargeIsQuiet(db, tenant, appt, id, charge);
  }

  lemma PollingOnlyConfirms(db: Db, tenant: Id, id: Id, charge: Option<ChargeStatus>)
    ensures OnlyConfirms(db, RefreshPayment(db, tenant, id, charge))
  {
    RefreshIsQuiet(db, tenant, id, charge);
  }

  lemma DeliveringOnlyConfirms(db: Db, reference: string, status: ChargeStatus)
    ensures OnlyConfirms(db, Webhook(db, reference, status))
  {
    DeliveryIsQuiet(db, reference, status);
  }

  lemma PaymentCallsAreQuiet(db: Db, call: Call)
    requires IsPaymentCall(call)
    ensures OnlyConfirms(db, ExecPayment(db, call))
  {
    match call
    case Charging(t, appt, record, charge) => ChargingOnlyConfirms(db, t, appt, record, charge);
    case Polling(t, record, charge) => PollingOnlyConfirms(db, t, record, charge);
    case Delivering(reference, status) => DeliveringOnlyConfirms(db, reference, status);
  }

  lemma DeskCallsAreQuiet(db: Db, call: Call)
    requires IsDeskCall(call)
    ensures Quiet(db, ExecDesk(db, call).db, {})
    ensures !call.Joining? && !call.Leaving? ==> ExecDesk(db, call).db.waitlist == db.waitlist
  {
  }

  lemma CallsAreQuiet(db: Db, call: Call)
    ensures Quiet(db, Exec(db, call).db, Loud(call))
    ensures !(call.Cancelling? || call.Joining? || call.Leaving?) ==> Exec(db, call).db.waitlist == db.waitlist
  {
    if IsAgendaCall(call) {
      AgendaCallsAreQuiet(db, call);
    } else if IsPaymentCall(call) {
      PaymentCallsAreQuiet(db, call);
    } else if IsDeskCall(call) {
      DeskCallsAreQuiet(db, call);
    } else if call.Scanning? {
      ScanIsQuiet(db, call.tenant, call.now);
    } else {
      PlaceIsQuiet(db, call.tenant, call.booking);
    }
  }

  // ----- a public booking is a run of its committed units

  /** The attempts that follow a placement, in order, as far as they get. */
  function LaterUnits(db: Db, tenant: Id, service: Service, company: Company, req: BookingRequest,
                      net: Answers): seq<Attempt>
  {
    var pay := Attempt(Charging(tenant, req.appt, req.record, net.charge), net.down);
    if service.depositRequired then
      if Attempted(db, pay).error.Some? then [pay] else [pay, Attempt(Polling(tenant, req.record, net.poll), net.down)]
    else if company.autoConfirm then [Attempt(Confirming(tenant, req.appt), net.down)]
    else []
  }

  function BookingUnits(db: Db, tenant: Id, req: BookingRequest, net: Answers): seq<Attempt> {
    var placed := PlaceBooking(db, tenant, req);
    [Attempt(Placing(tenant, req), {})] +
    if placed.error.Some? then []
    else LaterUnits(placed.db, tenant, db.catalog.services[req.service], db.catalog.companies[tenant], req, net)
  }

  /** A run of steps of any kind. */
  function Fold<S, A>(step: (S, A) -> S, s: S, run: seq<A>): S
    decreases |run|
  {
    if |run| == 0 then s else step(Fold(step, s, run[..|run| - 1]), run[|run| - 1])
  }

  lemma {:induction false} FoldCons<S, A>(step: (S, A) -> S, s: S, a: A, rest: seq<A>)
    ensures Fold(step, s, [a] + rest) == Fold(step, step(s, a), rest)
    decreases |rest|
  {
    var run := [a] + rest;
    if |rest| == 0 {
      assert run[..0] == [];
    } else {
      assert run[..|run| - 1] == [a] + rest[..|rest| - 1];
      FoldCons(step, s, a, rest[..|rest| - 1]);
    }
  }

  function Step(): (Db, Attempt) -> Db {
    (db: Db, a: Attempt) => Attempted(db, a).db
  }

  lemma {:induction false} FromIsFold(db: Db, run: seq<Attempt>)
    ensures From(db, run) == Fold(Step(), db, run)
    decreases |run|
  {
    if run != [] { FromIsFold(db, run[..|run| - 1]); }
  }

  lemma FromCons(db: Db, a: Attempt, rest: seq<Attempt>)
    ensures From(db, [a] + rest) == From(Attempted(db, a).db, rest)
  {
    FoldCons(Step(), db, a, rest);
    FromIsFold(db, [a] + rest);
    FromIsFold(Step()(db, a), rest);
  }

  lemma RunOfOne(db: Db, a: Attempt)
    ensures From(db, [a]) == Attempted(db, a).db
  {
    assert [a][..0] == [];
  }

  lemma RunOfTwo(db: Db, a: Attempt, b: Attempt)
    ensures From(db, [a, b]) == Attempted(Attempted(db, a).db, b).db
  {
    assert [a, b][..1] == [a];
    RunOfOne(db, a);
  }

  lemma ChargedAppointmentStays(db: Db, tenant: Id, appt: Id, id: Id, charge: Option<ChargeStatus>)
    requires CreateDepositCharge(db, tenant, appt, id, charge).error.None?
    ensures FindAppt(CreateDepositCharge(db, tenant, appt, id, charge).db, tenant, appt).Some?
  {
    ChargeIsQuiet(db, tenant, appt, id, charge);
  }

  lemma DepositUnitsAreARun(db: Db, tenant: Id, service: Service, company: Company, req: BookingRequest, net: Answers)
    requires service.depositRequired
    ensures From(db, LaterUnits(db, tenant, service, company, req, net)) ==
              AfterPlacement(db, tenant, service, company, req, net).db
  {
    var pay := Attempt(Charging(tenant, req.appt, req.record, net.charge), net.down);
    var ask := Attempt(Polling(tenant, req.record, net.poll), net.down);
    var paid := FollowUp(db, tenant, service, company, req, net);
    assert Attempted(db, pay) == paid;
    if paid.error.Some? {
      RunOfOne(db, pay);
    } else {
      ChargedAppointmentStays(db, tenant, req.appt, req.record, net.charge);
      assert Attempted(paid.db, ask) == ReadStatus(paid.db, tenant, req.appt, Some(req.record), net);
      RunOfTwo(db, pay, ask);
    }
  }

  lemma LaterUnitsAreARun(db: Db, tenant: Id, service: Service, company: Company, req: BookingRequest, net: Answers)
    ensures From(db, LaterUnits(db, tenant, service, company, req, net)) ==
              AfterPlacement(db, tenant, service, company, req, net).db
  {
    if service.depositRequired {
      DepositUnitsAreARun(db, tenant, service, company, req, net);
    } else if company.autoConfirm {
      var confirm := Attempt(Confirming(tenant, req.appt), net.down);
      RunOfOne(db, confirm);
      assert Attempted(db, confirm) == FollowUp(db, tenant, service, company, req, net);
    }
  }

  /** A placement sends nothing. */
  lemma PlacementIsSilent(db: Db, tenant: Id, req: BookingRequest, down: set<Log>)
    ensures Attempted(db, Attempt(Placing(tenant, req), down)) == PlaceBooking(db, tenant, req)
  {
    PlaceIsQuiet(db, tenant, req);
  }

  /** The state a booking commits, failed or not, is the state after the run of its units. */
  lemma BookingIsARun(db: Db, tenant: Id, req: BookingRequest, net: Answers)
    ensures From(db, BookingUnits(db, tenant, req, net)) == CreateBooking(db, tenant, req, net).db
  {
    var placed := PlaceBooking(db, tenant, req);
    var place := Attempt(Placing(tenant, req), {});
    PlacementIsSilent(db, tenant, req, {});
    if placed.error.Some? {
      FromCons(db, place, []);
    } else {
      var service, company := db.catalog.services[req.service], db.catalog.companies[tenant];
      FromCons(db, place, LaterUnits(placed.db, tenant, service, company, req, net));
      LaterUnitsAreARun(placed.db, tenant, service, company, req, net);
    }
  }

  // ----- counting calls

  /** How many calls of a run succeeded and satisfied a condition on the state they met. */
  function Tally(run: seq<Attempt>, p: (Db, Call) -> bool): nat
    decreases |run|
  {
    if run == [] then 0
    else
      var before, a := run[..|run| - 1], run[|run| - 1];
      Tally(before, p) + (if Attempted(After(before), a).error.None? && p(After(before), a.call) then 1 else 0)
  }

  function Moves(id: Id): (Db, Call) -> bool {
    (db: Db, call: Call) => call.Rescheduling? && call.id == id
  }

  /** A row that is new has no logs yet. */
  lemma NewRowsHaveNoLogs(db: Db, id: Id, log: Log)
    requires LogsOk(db) && id !in db.appts && log.appointment == Some(id)
    ensures db.logs[log] == 0
  {
    assert log in db.logs ==> LogKnown(db.appts, log);
  }

  lemma RescheduleKeepsRows(db: Db, tenant: Id, id: Id, starts: int)
    ensures RescheduleTo(db, tenant, id, starts).db.appts.Keys == db.appts.Keys
    ensures RescheduleTo(db, tenant, id, starts).error.None? ==> id in db.appts
  {
    if RescheduleTo(db, tenant, id, starts).error.None? { var row := RescheduleWrites(db, tenant, id, starts); }
  }

  /** A reschedule adds the log of the row it moves, and no other one of its kind. */
  lemma MoveAddsOneLog(db: Db, tenant: Id, moved: Id, starts: int, id: Id)
    requires RescheduleTo(db, tenant, moved, starts).error.None? && id in db.appts
    ensures var log := LogOf(id, db.appts[id], Reschedule);
            RescheduleTo(db, tenant, moved, starts).db.logs[log] == db.logs[log] + (if moved == id then 1 else 0)
  {
    var row := RescheduleWrites(db, tenant, moved, starts);
  }

  /** A kind that is not loud keeps its count for a row that was there, and has none for a new one. */
  lemma QuietKindStays(db: Db, after: Db, loud: set<Kind>, id: Id, kind: Kind)
    requires LogsOk(db) && Quiet(db, after, loud) && kind !in loud && id in after.appts
    ensures after.logs[LogOf(id, after.appts[id], kind)] ==
              (if id in db.appts then db.logs[LogOf(id, db.appts[id], kind)] else 0)
  {
    if id !in db.appts { NewRowsHaveNoLogs(db, id, LogOf(id, after.appts[id], kind)); }
  }

  lemma OnlyReschedulesAreLoud(call: Call)
    requires !call.Rescheduling?
    ensures Reschedule !in Loud(call)
  {
  }

  /** A call that is no reschedule adds no reschedule log. */
  lemma OthersMoveNothing(db: Db, call: Call, id: Id)
    requires LogsOk(db) && !call.Rescheduling? && id in Exec(db, call).db.appts
    ensures var after := Exec(db, call).db;
            after.logs[LogOf(id, after.appts[id], Reschedule)] ==
              if id in db.appts then db.logs[LogOf(id, db.appts[id], Reschedule)] else 0
  {
    CallsAreQuiet(db, call);
    OnlyReschedulesAreLoud(call);
    QuietKindStays(db, Exec(db, call).db, Loud(call), id, Reschedule);
  }

  lemma MoveStep(db: Db, call: Call, id: Id)
    requires LogsOk(db) && Exec(db, call).error.None? && id in Exec(db, call).db.appts
    ensures var after := Exec(db, call).db;
            after.logs[LogOf(id, after.appts[id], Reschedule)] ==
              (if id in db.appts then db.logs[LogOf(id, db.appts[id], Reschedule)] else 0) +
                  (if Moves(id)(db, call) then 1 else 0)
  {
    if call.Rescheduling? {
      RescheduleKeepsRows(db, call.tenant, call.id, call.starts);
      CallsAreQuiet(db, call);
      MoveAddsOneLog(db, call.tenant, call.id, call.starts, id);
    } else {
      OthersMoveNothing(db, call, id);
    }
  }

  /** Rows stay, and a reschedule names one. */
  lemma MovedRowsStay(db: Db, call: Call, id: Id)
    requires Exec(db, call).error.None?
    ensures id in db.appts ==> id in Exec(db, call).db.appts
    ensures Moves(id)(db, call) ==> id in db.appts
  {
    CallsAreQuiet(db, call);
    if call.Rescheduling? { RescheduleKeepsRows(db, call.tenant, call.id, call.starts); }
  }

  /** In every run an appointment has one RESCHEDULE log per successful reschedule. */
  lemma {:induction false} RescheduleLogsCountMoves(run: seq<Attempt>, id: Id)
    ensures var db := After(run);
            if id in db.appts then db.logs[LogOf(id, db.appts[id], Reschedule)] == Tally(run, Moves(id))
            else Tally(run, Moves(id)) == 0
    decreases |run|
  {
    if run != [] {
      var before, a := run[..|run| - 1], run[|run| - 1];
      RescheduleLogsCountMoves(before, id);
      EveryRunKeeps(before);
      if Attempted(After(before), a).error.None? {
        MovedRowsStay(After(before), a.call, id);
        if id in After(run).appts { MoveStep(After(before), a.call, id); }
      } else {
        FailedCallChangesNothing(After(before), a);
      }
    }
  }
}
