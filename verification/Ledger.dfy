/**
 The tables the services share and, for each service call, the committed
 state it leaves when it runs alone. A failing call leaves the state as it
 was. Queries without an order are answered in table order.
 */
module Ledger {
  import opened Calendar
  import opened References
  import Deposits

  // ----- tables

  /** Owner's opening time on one weekday (0 = Monday), in minutes of the local day. */
  datatype Window = Window(weekday: int, opens: int, closes: int)

  datatype Company = Company(utcOffset: int, autoConfirm: bool)

  datatype Employee = Employee(tenant: Id, active: bool, offers: set<Id>, windows: seq<Window>)

  datatype Room = Room(id: Id, tenant: Id, active: bool)

  datatype Service = Service(
    tenant: Id, duration: int, price: nat, requiresRoom: bool, active: bool,
    depositRequired: bool, depositType: Option<Deposits.DepositType>, depositValue: Option<nat>)

  datatype Catalog = Catalog(
    companies: map<Id, Company>, services: map<Id, Service>, employees: map<Id, Employee>, rooms: seq<Room>)

  datatype Client = Client(id: Id, tenant: Id, phone: string)

  /** A row of the status history; rows stand in the order of their changes. */
  datatype Entry = Entry(appt: Id, from: Option<Status>, to: Status)

  datatype Kind = Reminder24h | Reminder2h | Confirmation | Cancellation | Reschedule | WaitlistPromotion

  datatype Log = Log(tenant: Id, appointment: Option<Id>, client: Id, kind: Kind)

  /** Withdrawn stands for the waitlist's own "cancelled". */
  datatype WaitStatus = Waiting | Promoted | Expired | Withdrawn

  datatype WaitEntry = WaitEntry(
    id: Id, tenant: Id, client: Id, service: Id, employee: Option<Id>,
    windowStart: int, windowEnd: int, status: WaitStatus, created: int)

  /** Unpaid stands for the payment's own "pending". */
  datatype PaymentStatus = Unpaid | Approved | Rejected | Refunded

  datatype Payment = Payment(
    tenant: Id, appt: Id, amount: nat, full: bool, status: PaymentStatus, hasReference: bool, paid: bool)

  datatype Db = Db(
    catalog: Catalog, clients: seq<Client>, appts: Appts, history: seq<Entry>, logs: multiset<Log>,
    waitlist: seq<WaitEntry>, payments: map<Id, Payment>)

  // ----- results

  /**
   Integrity stands for a database error that no service call catches, Provider
   for a failing payment client, Unsent for a message that could not be sent.
   */
  datatype Error = NotFound | Conflict | Invalid | Integrity | Provider | Unsent

  datatype Outcome = Outcome(db: Db, error: Option<Error>)

  function Done(db: Db): Outcome { Outcome(db, None) }

  function Fail(db: Db, error: Error): Outcome { Outcome(db, Some(error)) }

  /** Some message of a call is among those that cannot be sent; every message sent adds its log. */
  predicate Undelivered(db: Db, after: Db, down: set<Log>) {
    exists log :: log in down && after.logs[log] > db.logs[log]
  }

  /** The outcome when the messages in down cannot be sent: the first of them ends the call, which is rolled back. */
  function Delivered(db: Db, out: Outcome, down: set<Log>): Outcome {
    if out.error.None? && Undelivered(db, out.db, down) then Fail(db, Unsent) else out
  }

  // ----- lookups, all filtered on the tenant

  function FindAppt(db: Db, tenant: Id, id: Id): Option<Appt> {
    if id in db.appts && db.appts[id].tenant == tenant then Some(db.appts[id]) else None
  }

  function FindService(db: Db, tenant: Id, id: Id): Option<Service> {
    if id in db.catalog.services && db.catalog.services[id].tenant == tenant then Some(db.catalog.services[id])
        else None
  }

  function FindEmployee(db: Db, tenant: Id, id: Id): Option<Employee> {
    if id in db.catalog.employees && db.catalog.employees[id].tenant == tenant then Some(db.catalog.employees[id])
        else None
  }

  function FindPayment(db: Db, tenant: Id, id: Id): Option<Payment> {
    if id in db.payments && db.payments[id].tenant == tenant then Some(db.payments[id]) else None
  }

  predicate HasRoom(db: Db, tenant: Id, id: Id) {
    exists k :: 0 <= k < |db.catalog.rooms| && db.catalog.rooms[k].id == id && db.catalog.rooms[k].tenant == tenant
  }

  predicate HasClient(db: Db, tenant: Id, id: Id) {
    exists k :: 0 <= k < |db.clients| && db.clients[k].id == id && db.clients[k].tenant == tenant
  }

  // ----- notifications

  predicate Guarded(kind: Kind) {
    kind == Reminder24h || kind == Reminder2h
  }

  predicate AlreadySent(logs: multiset<Log>, tenant: Id, id: Id, kind: Kind) {
    exists log :: log in logs && log.tenant == tenant && log.appointment == Some(id) && log.kind == kind
  }

  function Send(db: Db, tenant: Id, appointment: Option<Id>, client: Id, kind: Kind): Db {
    if Guarded(kind) && appointment.Some? && AlreadySent(db.logs, tenant, appointment.value, kind) then db
    else db.(logs := db.logs + multiset{Log(tenant, appointment, client, kind)})
  }

  // ----- appointments

  /** A request for a new appointment. */
  datatype Request = Request(client: Id, employee: Id, service: Id, starts: int, room: Option<Id>, source: Source)

  function NewRow(tenant: Id, req: Request, service: Service): Appt {
    Appt(tenant, req.client, req.employee, req.service, if service.requiresRoom then req.room else None,
         req.starts, req.starts + service.duration, if req.source == Staff then Confirmed
             else Pending, req.source, false)
  }

  /** Insertion of a new row with its first history entry, and the confirmation a staff booking sends. */
  function Insert(db: Db, id: Id, row: Appt): Db {
    var inserted := db.(appts := db.appts[id := row], history := db.history + [Entry(id, None, row.status)]);
    if row.status == Confirmed then Send(inserted, row.tenant, Some(id), row.client, Confirmation) else inserted
  }

  function CreateAppointment(db: Db, tenant: Id, id: Id, req: Request): Outcome {
    var service := FindService(db, tenant, req.service);
    if service.None? then Fail(db, NotFound)
    else
      var row := NewRow(tenant, req, service.value);
      if !HasClient(db, tenant, req.client) then Fail(db, NotFound)
      else if FindEmployee(db, tenant, req.employee).None? then Fail(db, NotFound)
      else if row.room.Some? && !HasRoom(db, tenant, row.room.value) then Fail(db, NotFound)
      else if HasConflict(db.appts, tenant, row.employee, row.room, row.starts, row.ends, None) then Fail(db, Conflict)
      else if id in db.appts || !Admits(db.appts, id, row) then Fail(db, Conflict)
      else Done(Insert(db, id, row))
  }

  function WriteStatus(db: Db, id: Id, row: Appt, from: Status): Db {
    db.(appts := db.appts[id := row], history := db.history + [Entry(id, Some(from), row.status)])
  }

  /** The one way a status changes. */
  function Transition(db: Db, tenant: Id, id: Id, to: Status, noShow: bool): Outcome {
    var found := FindAppt(db, tenant, id);
    if found.None? then Fail(db, NotFound)
    else if !Allowed(found.value.status, to) then Fail(db, Conflict)
    else
      var row := found.value.(status := to, noShow := noShow || found.value.noShow);
      if !Admits(db.appts, id, row) then Fail(db, Integrity)
      else Done(WriteStatus(db, id, row, found.value.status))
  }

  function Confirm(db: Db, tenant: Id, id: Id): Outcome {
    var moved := Transition(db, tenant, id, Confirmed, false);
    if moved.error.Some? then moved
    else Done(Send(moved.db, tenant, Some(id), db.appts[id].client, Confirmation))
  }

  function Complete(db: Db, tenant: Id, id: Id): Outcome {
    Transition(db, tenant, id, Completed, false)
  }

  function Cancel(db: Db, tenant: Id, id: Id, noShow: bool): Outcome {
    var moved := Transition(db, tenant, id, Cancelled, noShow);
    if moved.error.Some? then moved
    else
      var row := moved.db.appts[id];
      Done(Promote(Send(moved.db, tenant, Some(id), row.client, Cancellation), tenant, row))
  }

  function RescheduleTo(db: Db, tenant: Id, id: Id, starts: int): Outcome {
    var found := FindAppt(db, tenant, id);
    if found.None? then Fail(db, NotFound)
    else if found.value.status == Cancelled || found.value.status == Completed then Fail(db, Conflict)
    else
      var service := FindService(db, tenant, found.value.service);
      if service.None? then Fail(db, NotFound)
      else
        var row := found.value.(starts := starts, ends := starts + service.value.duration);
        if SlotTaken(db.appts, id, row) then Fail(db, Conflict)
        else if !Admits(db.appts, id, row) then Fail(db, Conflict)
        else Done(Send(db.(appts := db.appts[id := row]), tenant, Some(id), row.client, Reschedule))
  }

  // ----- waitlist

  predicate Matches(e: WaitEntry, tenant: Id, service: Id, employee: Id, slot: int) {
    && e.tenant == tenant && e.status == Waiting && e.service == service
    && (e.employee.None? || e.employee == Some(employee))
    && e.windowStart <= slot <= e.windowEnd
  }

  /** The position of the oldest waiting entry that fits a freed slot. */
  function OldestMatch(entries: seq<WaitEntry>, tenant: Id, service: Id, employee: Id, slot: int): (r: Option<nat>)
    ensures r.Some? ==> r.value < |entries| && Matches(entries[r.value], tenant, service, employee, slot)
    ensures r.Some? ==> forall k :: 0 <= k < |entries| && Matches(entries[k], tenant, service, employee, slot) ==>
                                      entries[r.value].created <= entries[k].created
    ensures r.None? ==> forall k :: 0 <= k < |entries| ==> !Matches(entries[k], tenant, service, employee, slot)
  {
    if entries == [] then None
    else
      var last := |entries| - 1;
      var best := OldestMatch(entries[..last], tenant, service, employee, slot);
      if !Matches(entries[last], tenant, service, employee, slot) then best
      else if best.Some? && entries[best.value].created <= entries[last].created then best
      else Some(last)
  }

  /** The match for the slot a cancelled row frees. */
  function NextInLine(db: Db, tenant: Id, freed: Appt): (r: Option<nat>)
    ensures r.Some? ==> r.value < |db.waitlist|
  {
    OldestMatch(db.waitlist, tenant, freed.service, freed.employee, freed.starts)
  }

  function Promote(db: Db, tenant: Id, freed: Appt): Db {
    var k := NextInLine(db, tenant, freed);
    if k.None? then db
    else
      var e := db.waitlist[k.value];
      Send(db.(waitlist := db.waitlist[k.value := e.(status := Promoted)]), tenant, None, e.client, WaitlistPromotion)
  }

  /** The primary key of the waitlist. */
  predicate DistinctEntries(entries: seq<WaitEntry>) {
    forall i, j :: 0 <= i < j < |entries| ==> entries[i].id != entries[j].id
  }

  /** The foreign keys of a waitlist entry; the database checks them without the row policy. */
  predicate Referenced(db: Db, entry: WaitEntry) {
    && (exists k :: 0 <= k < |db.clients| && db.clients[k].id == entry.client)
    && entry.service in db.catalog.services
    && (entry.employee.Some? ==> entry.employee.value in db.catalog.employees)
  }

  function JoinWaitlist(db: Db, entry: WaitEntry): Outcome {
    if !Referenced(db, entry) then Fail(db, Integrity)
    else if exists k :: 0 <= k < |db.waitlist| && db.waitlist[k].id == entry.id then Fail(db, Integrity)
    else Done(db.(waitlist := db.waitlist + [entry.(status := Waiting)]))
  }

  function PositionOf(entries: seq<WaitEntry>, tenant: Id, id: Id): (r: Option<nat>)
    ensures r.Some? ==> r.value < |entries| && entries[r.value].id == id && entries[r.value].tenant == tenant
    ensures r.None? ==> forall k :: 0 <= k < |entries| ==> !(entries[k].id == id && entries[k].tenant == tenant)
  {
    if entries == [] then None
    else if entries[|entries| - 1].id == id && entries[|entries| - 1].tenant == tenant then Some(|entries| - 1)
    else PositionOf(entries[..|entries| - 1], tenant, id)
  }

  function LeaveWaitlist(db: Db, tenant: Id, id: Id): Outcome {
    var k := PositionOf(db.waitlist, tenant, id);
    if k.None? then Fail(db, NotFound)
    else Done(db.(waitlist := db.waitlist[k.value := db.waitlist[k.value].(status := Withdrawn)]))
  }

  // ----- deposits

  /** The three answers of a payment provider. */
  datatype ChargeStatus = ChargePending | ChargeApproved | ChargeRejected

  function StatusOf(charge: ChargeStatus): PaymentStatus {
    match charge
    case ChargePending => Unpaid
    case ChargeApproved => Approved
    case ChargeRejected => Rejected
  }

  /** Confirms the appointment if it still waits for its deposit. */
  function ConfirmIfPending(db: Db, tenant: Id, id: Id): Outcome {
    var found := FindAppt(db, tenant, id);
    if found.None? then Fail(db, NotFound)
    else if found.value.status == Pending then Confirm(db, tenant, id)
    else Done(db)
  }

  /** A deposit charge; charge is None when the provider call fails. */
  function CreateDepositCharge(db: Db, tenant: Id, appt: Id, id: Id, charge: Option<ChargeStatus>): Outcome {
    var found := FindAppt(db, tenant, appt);
    if found.None? then Fail(db, NotFound)
    else if FindService(db, tenant, found.value.service).None? then Fail(db, Integrity)
    else
      var service := FindService(db, tenant, found.value.service).value;
      if !service.depositRequired || service.depositType.None? then Fail(db, Invalid)
      else if service.depositValue.None? || id in db.payments then Fail(db, Integrity)
      else if charge.None? then Fail(db, Provider)
      else
        Settle(db, tenant, id, ChargeRecord(tenant, appt, service, StatusOf(charge.value)))
  }

  function ChargeRecord(tenant: Id, appt: Id, service: Service, status: PaymentStatus): Payment
    requires service.depositType.Some? && service.depositValue.Some?
  {
    var amount := Deposits.Amount(service.depositType, service.depositValue.value, service.price).value;
    Payment(tenant, appt, amount, Deposits.TypedFull(service.depositType, service.depositValue.value),
            status, true, status == Approved)
  }

  /** Writes a payment record and, when it is approved, confirms a pending appointment. */
  function Settle(db: Db, tenant: Id, id: Id, record: Payment): Outcome {
    var written := db.(payments := db.payments[id := record]);
    if record.status != Approved then Done(written)
    else
      var settled := ConfirmIfPending(written, tenant, record.appt);
      if settled.error.Some? then Fail(db, settled.error.value) else settled
  }

  function ApplyStatus(db: Db, tenant: Id, id: Id, status: PaymentStatus): Outcome
    requires id in db.payments
  {
    var record := db.payments[id];
    Settle(db, tenant, id, record.(status := status, paid := record.paid || status == Approved))
  }

  /** Polling: only a pending record with a provider reference is looked up. */
  function RefreshPayment(db: Db, tenant: Id, id: Id, charge: Option<ChargeStatus>): Outcome {
    var found := FindPayment(db, tenant, id);
    if found.None? then Fail(db, Invalid)
    else if found.value.status != Unpaid || !found.value.hasReference then Done(db)
    else if charge.None? then Fail(db, Provider)
    else ApplyStatus(db, tenant, id, StatusOf(charge.value))
  }

  /** A webhook delivery: the tenant and the record come out of its reference text. */
  function Webhook(db: Db, reference: string, charge: ChargeStatus): Outcome {
    var parsed := ParseReference(reference);
    if parsed.None? then Done(db)
    else
      var (tenant, id) := parsed.value;
      if FindPayment(db, tenant, id).None? then Done(db)
      else ApplyStatus(db, tenant, id, StatusOf(charge))
  }

  // ----- reminders

  const INTERVAL := 5

  function LeadTime(kind: Kind): int
    requires Guarded(kind)
  {
    if kind == Reminder24h then 24 * 60 else 2 * 60
  }

  /** Confirmed rows of the tenant that start in [from, to). */
  predicate StartsConfirmedIn(row: Appt, tenant: Id, from: int, to: int) {
    row.tenant == tenant && row.status == Confirmed && from <= row.starts < to
  }

  predicate Due(row: Appt, tenant: Id, kind: Kind, now: int)
    requires Guarded(kind)
  {
    StartsConfirmedIn(row, tenant, now + LeadTime(kind), now + LeadTime(kind) + INTERVAL)
  }

  /** The logs one scan adds for one reminder type, in whatever order the rows come. */
  function NewReminders(db: Db, tenant: Id, kind: Kind, now: int): set<Log>
    requires Guarded(kind)
  {
    set id | id in db.appts && Due(db.appts[id], tenant, kind, now) && !AlreadySent(db.logs, tenant, id, kind)
      :: Log(tenant, Some(id), db.appts[id].client, kind)
  }

  function Remind(db: Db, tenant: Id, kind: Kind, now: int): Db
    requires Guarded(kind)
  {
    db.(logs := db.logs + multiset(NewReminders(db, tenant, kind, now)))
  }

  function Scan(db: Db, tenant: Id, now: int): Db {
    Remind(Remind(db, tenant, Reminder24h, now), tenant, Reminder2h, now)
  }

  // ----- public booking

  datatype BookingRequest = BookingRequest(
    service: Id, employee: Id, starts: int, phone: string, newClient: Id, appt: Id, record: Id)

  predicate RoomFree(db: Db, room: Room, tenant: Id, employee: Id, starts: int, ends: int) {
    room.tenant == tenant && room.active && !HasConflict(db.appts, tenant, employee, Some(room.id), starts, ends, None)
  }

  predicate NoRoomFree(db: Db, rooms: seq<Room>, tenant: Id, employee: Id, starts: int, ends: int) {
    forall k :: 0 <= k < |rooms| ==> !RoomFree(db, rooms[k], tenant, employee, starts, ends)
  }

  /** The first active room, in table order, that the slot query finds free. */
  function FirstFreeRoom(db: Db, rooms: seq<Room>, tenant: Id, employee: Id, starts: int, ends: int): Option<Id> {
    if rooms == [] then None
    else
      var earlier := FirstFreeRoom(db, rooms[..|rooms| - 1], tenant, employee, starts, ends);
      if earlier.Some? then earlier
      else if RoomFree(db, rooms[|rooms| - 1], tenant, employee, starts, ends) then Some(rooms[|rooms| - 1].id)
      else None
  }

  /** It is free, no room before it is, and there is none exactly if no room is free. */
  lemma {:induction false} FirstFreeRoomIsFirst(db: Db, rooms: seq<Room>, tenant: Id, employee: Id, starts: int,
                                                ends: int)
    ensures var r := FirstFreeRoom(db, rooms, tenant, employee, starts, ends);
            && (r.None? <==> NoRoomFree(db, rooms, tenant, employee, starts, ends))
            && (r.Some? ==>
                  exists k :: (0 <= k < |rooms| && r.value == rooms[k].id &&
                      RoomFree(db, rooms[k], tenant, employee, starts, ends)
                               && NoRoomFree(db, rooms[..k], tenant, employee, starts, ends)))
    decreases |rooms|
  {
    if rooms != [] {
      var last := |rooms| - 1;
      FirstFreeRoomIsFirst(db, rooms[..last], tenant, employee, starts, ends);
      assert forall k :: 0 <= k <= last ==> rooms[..last][..k] == rooms[..k];
      assert forall k :: 0 <= k < last ==> rooms[..last][k] == rooms[k];
    }
  }

  /** Is the employee free, and which room would be used? */
  function Capacity(db: Db, tenant: Id, employee: Id, service: Service, starts: int, ends: int): (bool, Option<Id>) {
    if HasConflict(db.appts, tenant, employee, None, starts, ends, None) then (false, None)
    else if !service.requiresRoom then (true, None)
    else
      var room := FirstFreeRoom(db, db.catalog.rooms, tenant, employee, starts, ends);
      (room.Some?, room)
  }

  predicate Bookable(db: Db, tenant: Id, service: Id, employee: Id) {
    && FindService(db, tenant, service).Some? && FindService(db, tenant, service).value.active
    && FindEmployee(db, tenant, employee).Some? && FindEmployee(db, tenant, employee).value.active
    && service in FindEmployee(db, tenant, employee).value.offers
  }

  /** The first client of the tenant with this phone. */
  function ClientByPhone(clients: seq<Client>, tenant: Id, phone: string): (r: Option<Id>)
    ensures r.Some? <==> exists k :: 0 <= k < |clients| && clients[k].tenant == tenant && clients[k].phone == phone
    ensures r.Some? ==> exists k :: 0 <= k < |clients| && clients[k].tenant == tenant && clients[k].id == r.value
  {
    if clients == [] then None
    else if clients[0].tenant == tenant && clients[0].phone == phone then Some(clients[0].id)
    else
      var rest := ClientByPhone(clients[1..], tenant, phone);
      rest
  }

  function FindOrCreateClient(db: Db, tenant: Id, phone: string, newId: Id): Outcome {
    if ClientByPhone(db.clients, tenant, phone).Some? then Done(db)
    else if exists k :: 0 <= k < |db.clients| && db.clients[k].id == newId then Fail(db, Integrity)
    else Done(db.(clients := db.clients + [Client(newId, tenant, phone)]))
  }

  function ClientFor(db: Db, tenant: Id, phone: string, newId: Id): Id {
    var existing := ClientByPhone(db.clients, tenant, phone);
    if existing.Some? then existing.value else newId
  }

  /** The appointment a booking asks for, once its client is known and its room is chosen. */
  function BookedRequest(db: Db, tenant: Id, req: BookingRequest): Request
    requires Bookable(db, tenant, req.service, req.employee)
  {
    var service := FindService(db, tenant, req.service).value;
    Request(ClientFor(db, tenant, req.phone, req.newClient), req.employee, req.service, req.starts,
            Capacity(db, tenant, req.employee, service, req.starts, req.starts + service.duration).1, PublicBooking)
  }

  /** The first committed unit of a public booking: client and pending appointment. */
  function PlaceBooking(db: Db, tenant: Id, req: BookingRequest): Outcome {
    if tenant !in db.catalog.companies || !Bookable(db, tenant, req.service, req.employee) then Fail(db, NotFound)
    else
      var service := FindService(db, tenant, req.service).value;
      if !Capacity(db, tenant, req.employee, service, req.starts, req.starts + service.duration).0
          then Fail(db, Conflict)
      else
        var known := FindOrCreateClient(db, tenant, req.phone, req.newClient);
        if known.error.Some? then known
        else
          var created := CreateAppointment(known.db, tenant, req.appt, BookedRequest(db, tenant, req));
          if created.error.Some? then Fail(db, created.error.value) else created
  }

  /**
   The answers of the payment provider to a booking's charge and poll, None if the
   call fails, and the messages that cannot be sent.
   */
  datatype Answers = Answers(charge: Option<ChargeStatus>, poll: Option<ChargeStatus>, down: set<Log>)

  /** The second committed unit: the deposit charge, the automatic confirmation, or nothing. */
  function FollowUp(db: Db, tenant: Id, service: Service, company: Company, req: BookingRequest,
                    net: Answers): Outcome
  {
    if service.depositRequired
        then Delivered(db, CreateDepositCharge(db, tenant, req.appt, req.record, net.charge), net.down)
    else if company.autoConfirm then Delivered(db, Confirm(db, tenant, req.appt), net.down)
    else Done(db)
  }

  /** The status page polls a payment of the appointment, if there is one. */
  function ReadStatus(db: Db, tenant: Id, appt: Id, payment: Option<Id>, net: Answers): Outcome {
    if FindAppt(db, tenant, appt).None? then Fail(db, NotFound)
    else if payment.Some? then Delivered(db, RefreshPayment(db, tenant, payment.value, net.poll), net.down)
    else Done(db)
  }

  /** All that follows the placement of a booking. */
  function AfterPlacement(db: Db, tenant: Id, service: Service, company: Company, req: BookingRequest,
                          net: Answers): Outcome
  {
    var followed := FollowUp(db, tenant, service, company, req, net);
    if followed.error.Some? then followed
    else ReadStatus(followed.db, tenant, req.appt, if service.depositRequired then Some(req.record) else None, net)
  }

  /** A public booking: its units commit one after the other, so a late failure keeps the earlier ones. */
  function CreateBooking(db: Db, tenant: Id, req: BookingRequest, net: Answers): Outcome {
    var placed := PlaceBooking(db, tenant, req);
    if placed.error.Some? then placed
    else AfterPlacement(placed.db, tenant, db.catalog.services[req.service], db.catalog.companies[tenant], req, net)
  }

  // ----- catalog

  /** A service's data as the catalog accepts it. */
  predicate ServiceOk(s: Service) {
    s.duration > 0 && (s.depositRequired ==> s.depositType.Some? && s.depositValue.Some?)
  }

  /** A partial update: None leaves a field as it is. */
  datatype ServicePatch = ServicePatch(
    duration: Option<int>, price: Option<nat>, requiresRoom: Option<bool>, active: Option<bool>,
    depositRequired: Option<bool>, depositType: Option<Option<Deposits.DepositType>>, depositValue: Option<Option<nat>>)

  function Or<T>(change: Option<T>, current: T): T {
    if change.Some? then change.value else current
  }

  function Patched(s: Service, p: ServicePatch): Service {
    s.(duration := Or(p.duration, s.duration), price := Or(p.price, s.price),
        requiresRoom := Or(p.requiresRoom, s.requiresRoom),
       active := Or(p.active, s.active), depositRequired := Or(p.depositRequired, s.depositRequired),
       depositType := Or(p.depositType, s.depositType), depositValue := Or(p.depositValue, s.depositValue))
  }

  function UpdateService(db: Db, tenant: Id, id: Id, patch: ServicePatch): Outcome {
    var found := FindService(db, tenant, id);
    if found.None? then Fail(db, NotFound)
    else if patch.duration.Some? && patch.duration.value <= 0 then Fail(db, Invalid)
    else
      var s := Patched(found.value, patch);
      if s.depositRequired && (s.depositType.None? || s.depositValue.None?) then Fail(db, Invalid)
      else Done(db.(catalog := db.catalog.(services := db.catalog.services[id := s])))
  }

  function CreateService(db: Db, id: Id, s: Service): Outcome {
    if !ServiceOk(s) then Fail(db, Invalid)
    else if id in db.catalog.services then Fail(db, Integrity)
    else Done(db.(catalog := db.catalog.(services := db.catalog.services[id := s])))
  }
}
