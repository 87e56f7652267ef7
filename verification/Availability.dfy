/**
 The public slot picker and the booking it must agree with. Local times
 differ from the time line by a company's constant offset.
 */
module Availability {
  import opened Calendar
  import opened Ledger
  import opened Invariant
  import opened Sessions
  import opened Services
  import opened BookingServices
  import opened Runs
  import opened Failures
  import opened Outcomes

  const STEP := 15

  /** The window on one day as [lo, hi) on the time line. */
  function OnDay(w: Window, day: nat, offset: int): (int, int) {
    (day * 1440 + w.opens - offset, day * 1440 + w.closes - offset)
  }

  predicate HasCapacity(db: Db, t: Id, employee: Id, service: Service, starts: int) {
    Capacity(db, t, employee, service, starts, starts + service.duration).0
  }

  /** What one grid point contributes. */
  function OfferedAt(db: Db, t: Id, employee: Id, service: Service, start: int, now: int): seq<int> {
    if start > now && HasCapacity(db, t, employee, service, start) then [start] else []
  }

  /** The offered starts from one grid point on to the end of a window. */
  function OfferedFrom(db: Db, t: Id, employee: Id, service: Service, lo: int, hi: int, now: int): seq<int>
    decreases hi - lo
  {
    if lo + service.duration > hi || lo >= hi then []
    else
      OfferedAt(db, t, employee, service, lo, now) + OfferedFrom(db, t, employee, service, lo + STEP, hi, now)
  }

  /** What the picker offers over the first windows of a list. */
  function Offered(db: Db, t: Id, employee: Id, service: Service, windows: seq<Window>, day: nat, offset: int,
                   now: int): seq<int>
  {
    if windows == [] then []
    else
      var last := windows[|windows| - 1];
      Offered(db, t, employee, service, windows[..|windows| - 1], day, offset, now) +
      if last.weekday != Weekday(day) then []
      else
        var (lo, hi) := OnDay(last, day, offset);
        OfferedFrom(db, t, employee, service, lo, hi, now)
  }

  /** The test of one grid point. */
  method OfferAt(s: Session, t: Id, employee: Id, service: Service, start: int, now: int) returns (offer: seq<int>)
    requires s.Scoped(t)
    ensures offer == OfferedAt(s.work, t, employee, service, start, now)
  {
    offer := [];
    if start > now {
      var free, room := CheckCapacity(s, t, employee, service, start, start + service.duration);
      if free {
        offer := [start];
      }
    }
  }

  lemma AppendStep(slots: seq<int>, one: seq<int>, tail: seq<int>, all: seq<int>)
    requires slots + (one + tail) == all
    ensures (slots + one) + tail == all
  {
  }

  /** The walk over one window. */
  method WalkWindow(s: Session, t: Id, employee: Id, service: Service, lo: int, hi: int, now: int)
    returns (slots: seq<int>)
    requires s.Scoped(t) && service.duration > 0
    ensures slots == OfferedFrom(s.work, t, employee, service, lo, hi, now)
  {
    slots := [];
    var start := lo;
    ghost var all := OfferedFrom(s.work, t, employee, service, lo, hi, now);
    while start + service.duration <= hi
      invariant slots + OfferedFrom(s.work, t, employee, service, start, hi, now) == all
      decreases hi - start
    {
      var offer := OfferAt(s, t, employee, service, start, now);
      AppendStep(slots, offer, OfferedFrom(s.work, t, employee, service, start + STEP, hi, now), all);
      slots := slots + offer;
      start := start + STEP;
    }
  }

  /** The picker: for each window of the day, the grid is walked in steps of 15 minutes. */
  method ComputeAvailability(s: Session, t: Id, employee: Id, service: Id, day: nat, now: int)
    returns (slots: seq<int>, error: Option<Error>)
    requires s.Scoped(t) && CatalogOk(s.work)
    ensures error == if t in s.work.catalog.companies && Bookable(s.work, t, service, employee) then None
              else Some(NotFound)
    ensures error.None? ==>
              forall x :: x in slots <==>
                Pickable(s.work, t, employee, s.work.catalog.services[service],
                    s.work.catalog.employees[employee].windows,
                         day, s.work.catalog.companies[t].utcOffset, now, x)
    ensures error.None? ==>
              slots == Offered(s.work, t, employee, s.work.catalog.services[service],
                  s.work.catalog.employees[employee].windows,
                               day, s.work.catalog.companies[t].utcOffset, now)
  {
    var found := LoadBookable(s, t, service, employee);
    if found.None? {
      return [], Some(NotFound);
    }
    var (company, svc, staff) := found.value;
    assert ServiceOk(svc);
    slots := WalkDay(s, t, employee, svc, staff.windows, day, company.utcOffset, now);
    forall x ensures x in slots <==> Pickable(s.work, t, employee, svc, staff.windows, day, company.utcOffset, now, x) {
      PickerOutcome(s.work, t, employee, svc, staff.windows, day, company.utcOffset, now, x);
    }
    error := None;
  }

  /** The loop over the windows. */
  method WalkDay(s: Session, t: Id, employee: Id, service: Service, windows: seq<Window>, day: nat, offset: int,
                 now: int)
    returns (slots: seq<int>)
    requires s.Scoped(t) && service.duration > 0
    ensures slots == Offered(s.work, t, employee, service, windows, day, offset, now)
  {
    slots := [];
    for i := 0 to |windows|
      invariant slots == Offered(s.work, t, employee, service, windows[..i], day, offset, now)
    {
      assert windows[..i + 1][..i] == windows[..i];
      if windows[i].weekday == Weekday(day) {
        var (lo, hi) := OnDay(windows[i], day, offset);
        var more := WalkWindow(s, t, employee, service, lo, hi, now);
        slots := slots + more;
      }
    }
    assert windows[..|windows|] == windows;
  }

  // ----- what is offered

  /** A grid point of the window at which the service still ends in time, and which is not past. */
  predicate OnGrid(start: int, lo: int, hi: int, duration: int, now: int) {
    start >= lo && (start - lo) % STEP == 0 && start + duration <= hi && start > now
  }

  lemma {:induction false} OfferedFromIsTheFreeGrid(db: Db, t: Id, employee: Id, service: Service, lo: int, hi: int,
                                                    now: int)
    requires service.duration > 0
    ensures var slots := OfferedFrom(db, t, employee, service, lo, hi, now);
            forall x :: x in slots <==>
                OnGrid(x, lo, hi, service.duration, now) && HasCapacity(db, t, employee, service, x)
    decreases hi - lo
  {
    if lo + service.duration <= hi {
      OfferedFromIsTheFreeGrid(db, t, employee, service, lo + STEP, hi, now);
      forall x ensures OnGrid(x, lo, hi, service.duration, now) <==>
                         (x == lo && lo > now) || OnGrid(x, lo + STEP, hi, service.duration, now)
      {
        assert (x - (lo + STEP)) % STEP == (x - lo) % STEP;
      }
    }
  }

  /** Within one window the offered starts ascend. */
  lemma {:induction false} OfferedFromAscends(db: Db, t: Id, employee: Id, service: Service, lo: int, hi: int, now: int)
    requires service.duration > 0
    ensures var slots := OfferedFrom(db, t, employee, service, lo, hi, now);
            forall i, j :: 0 <= i < j < |slots| ==> slots[i] < slots[j]
    decreases hi - lo
  {
    if lo + service.duration <= hi {
      var rest := OfferedFrom(db, t, employee, service, lo + STEP, hi, now);
      OfferedFromAscends(db, t, employee, service, lo + STEP, hi, now);
      OfferedFromIsTheFreeGrid(db, t, employee, service, lo + STEP, hi, now);
      forall j | 0 <= j < |rest| ensures lo < rest[j] {
        assert rest[j] in rest;
      }
    }
  }

  /** A start that some window of the day has on its grid. */
  predicate OnSomeGrid(start: int, windows: seq<Window>, day: nat, offset: int, duration: int, now: int) {
    exists k :: 0 <= k < |windows| && windows[k].weekday == Weekday(day)
      && OnGrid(start, OnDay(windows[k], day, offset).0, OnDay(windows[k], day, offset).1, duration, now)
  }

  lemma {:induction false} OfferedIsTheFreeGrid(db: Db, t: Id, employee: Id, service: Service, windows: seq<Window>,
                                                day: nat, offset: int, now: int, x: int)
    requires service.duration > 0
    ensures x in Offered(db, t, employee, service, windows, day, offset, now)
       <==> OnSomeGrid(x, windows, day, offset, service.duration, now) && HasCapacity(db, t, employee, service, x)
    decreases |windows|
  {
    if windows != [] {
      var rest, last := windows[..|windows| - 1], windows[|windows| - 1];
      OfferedIsTheFreeGrid(db, t, employee, service, rest, day, offset, now, x);
      var (lo, hi) := OnDay(last, day, offset);
      OfferedFromIsTheFreeGrid(db, t, employee, service, lo, hi, now);
      GridOfOneMore(x, windows, day, offset, service.duration, now);
    }
  }

  lemma GridOfOneMore(start: int, windows: seq<Window>, day: nat, offset: int, duration: int, now: int)
    requires windows != []
    ensures var rest, last := windows[..|windows| - 1], windows[|windows| - 1];
            OnSomeGrid(start, windows, day, offset, duration, now) <==>
              || OnSomeGrid(start, rest, day, offset, duration, now)
              || (last.weekday == Weekday(day) &&
                  OnGrid(start, OnDay(last, day, offset).0, OnDay(last, day, offset).1, duration, now))
  {
    var rest := windows[..|windows| - 1];
    if k :| 0 <= k < |rest| && rest[k].weekday == Weekday(day)
            && OnGrid(start, OnDay(rest[k], day, offset).0, OnDay(rest[k], day, offset).1, duration, now) {
      assert windows[k] == rest[k];
    }
    if k :| 0 <= k < |windows| && windows[k].weekday == Weekday(day)
            && OnGrid(start, OnDay(windows[k], day, offset).0, OnDay(windows[k], day, offset).1, duration, now) {
      assert k < |rest| ==> rest[k] == windows[k];
    }
  }

  /**
   Start and end lie in the window of that weekday, a multiple of 15 minutes after
   it opens; local time is shifted by the offset.
   */
  predicate InWindow(w: Window, day: nat, offset: int, duration: int, x: int) {
    var m := x + offset - day * 1440;
    && w.weekday == (day + 6) % 7
    && w.opens <= m && m + duration <= w.closes && (m - w.opens) % 15 == 0
  }

  /**
   A start the page may show: ahead, in some window of the day, with the employee
   and, if needed, some room unused.
   */
  predicate Pickable(db: Db, t: Id, employee: Id, service: Service, windows: seq<Window>, day: nat, offset: int,
                     now: int, x: int)
  {
    && x > now
    && (exists k :: 0 <= k < |windows| && InWindow(windows[k], day, offset, service.duration, x))
    && !EmployeeBusy(db, t, employee, x, x + service.duration, None)
    && (service.requiresRoom ==> SomeUsable(db, t, x, x + service.duration))
  }

  /** The grid of a window is met in local minutes. */
  lemma GridInLocalTime(x: int, w: Window, day: nat, offset: int, duration: int, now: int)
    ensures w.weekday == Weekday(day) && OnGrid(x, OnDay(w, day, offset).0, OnDay(w, day, offset).1, duration, now) <==>
              InWindow(w, day, offset, duration, x) && x > now
  {
    assert x - OnDay(w, day, offset).0 == x + offset - day * 1440 - w.opens;
  }

  lemma SomeGridInLocalTime(x: int, windows: seq<Window>, day: nat, offset: int, duration: int, now: int)
    ensures OnSomeGrid(x, windows, day, offset, duration, now) <==>
              x > now && exists k :: 0 <= k < |windows| && InWindow(windows[k], day, offset, duration, x)
  {
    forall k | 0 <= k < |windows|
      ensures windows[k].weekday == Weekday(day)
              && OnGrid(x, OnDay(windows[k], day, offset).0, OnDay(windows[k], day, offset).1, duration, now) <==>
                InWindow(windows[k], day, offset, duration, x) && x > now
    {
      GridInLocalTime(x, windows[k], day, offset, duration, now);
    }
  }

  /** The picker offers exactly these starts. */
  lemma PickerOutcome(db: Db, t: Id, employee: Id, service: Service, windows: seq<Window>, day: nat, offset: int,
                      now: int, x: int)
    requires service.duration > 0
    ensures x in Offered(db, t, employee, service, windows, day, offset, now) <==>
              Pickable(db, t, employee, service, windows, day, offset, now, x)
  {
    OfferedIsTheFreeGrid(db, t, employee, service, windows, day, offset, now, x);
    CapacityReadsTheRows(db, t, employee, service, x, x + service.duration);
    SomeGridInLocalTime(x, windows, day, offset, service.duration, now);
  }

  // ----- capacity means a row the constraints admit

  /** The row a booking would write, with this room. */
  function Candidate(t: Id, client: Id, employee: Id, serviceId: Id, service: Service, starts: int,
                     room: Option<Id>): Appt
  {
    NewRow(t, Request(client, employee, serviceId, starts, room, PublicBooking), service)
  }

  predicate AdmittedRoom(db: Db, t: Id, id: Id, row: Appt, room: Room) {
    room.tenant == t && room.active && Admits(db.appts, id, row.(room := Some(room.id)))
  }

  lemma QueryForRow(db: Db, id: Id, row: Appt)
    requires PositiveLengths(db.appts) && id !in db.appts && row.starts < row.ends && Active(row)
    ensures HasConflict(db.appts, row.tenant, row.employee, row.room, row.starts, row.ends, None) <==>
              !Admits(db.appts, id, row)
  {
    QueryEqualsConstraint(db.appts, id, row);
    ExcludingAbsentRow(db.appts, id, row);
  }

  lemma RoomFreeMeansAdmitted(db: Db, t: Id, id: Id, row: Appt, room: Room)
    requires PositiveLengths(db.appts) && id !in db.appts && row.starts < row.ends && Active(row) && row.tenant == t
    ensures RoomFree(db, room, t, row.employee, row.starts, row.ends) <==> AdmittedRoom(db, t, id, row, room)
  {
    QueryForRow(db, id, row.(room := Some(room.id)));
  }

  /**
   "Free" is exactly what the constraints mean: without a room, that they admit
   the row; with one, that they admit it in some active room. The room chosen
   is the first of those.
   */
  lemma CapacityMeansAdmitted(db: Db, t: Id, id: Id, row: Appt, service: Service)
    requires PositiveLengths(db.appts) && id !in db.appts
    requires row.tenant == t && row.room.None? && row.starts < row.ends && Active(row)
    ensures var (free, room) := Capacity(db, t, row.employee, service, row.starts, row.ends);
            && (!service.requiresRoom ==> room.None? && (free <==> Admits(db.appts, id, row)))
            && (service.requiresRoom ==>
                  && (free <==> exists k ::
                       0 <= k < |db.catalog.rooms| && AdmittedRoom(db, t, id, row, db.catalog.rooms[k]))
                  && (free ==> room.Some? && HasRoom(db, t, room.value) && Admits(db.appts, id, row.(room := room))))
  {
    QueryForRow(db, id, row);
    FirstFreeRoomIsFirst(db, db.catalog.rooms, t, row.employee, row.starts, row.ends);
    forall k | 0 <= k < |db.catalog.rooms|
      ensures RoomFree(db, db.catalog.rooms[k], t, row.employee, row.starts, row.ends) <==>
                AdmittedRoom(db, t, id, row, db.catalog.rooms[k])
      ensures AdmittedRoom(db, t, id, row, db.catalog.rooms[k]) ==> Admits(db.appts, id, row)
    {
      RoomFreeMeansAdmitted(db, t, id, row, db.catalog.rooms[k]);
      if AdmittedRoom(db, t, id, row, db.catalog.rooms[k]) {
        assert forall j :: j in db.appts && j != id ==> !Clash(row.(room := Some(db.catalog.rooms[k].id)), db.appts[j]);
      }
    }
  }

  /** The booking of this request could only fail for the slot: all it names exists, and its new ids are new. */
  predicate ReadyToBook(db: Db, t: Id, req: BookingRequest) {
    && t in db.catalog.companies && Bookable(db, t, req.service, req.employee)
    && req.appt !in db.appts
    && forall k :: 0 <= k < |db.clients| ==> db.clients[k].id != req.newClient
  }

  /** The write path repeats the picker's judgement: placement fails exactly when there is no capacity. */
  lemma CapacityDecidesPlacement(db: Db, t: Id, req: BookingRequest)
    requires Inv(db) && ReadyToBook(db, t, req)
    ensures PlaceBooking(db, t, req).error ==
              (if HasCapacity(db, t, req.employee, db.catalog.services[req.service], req.starts) then None
                  else Some(Conflict))
  {
    var service := db.catalog.services[req.service];
    assert ServiceOk(service);
    if HasCapacity(db, t, req.employee, service, req.starts) {
      var known := FindOrCreateClient(db, t, req.phone, req.newClient);
      KnownClientIsThere(db, t, req.phone, req.newClient);
      CapacityAdmitsRequest(db, t, req);
      ClientsWriteKeeps(db, known.db.clients);
      CreateRunsExactlyWhenAdmitted(known.db, t, req.appt, BookedRequest(db, t, req));
    }
  }

  /** With capacity, the room of the request exists and the constraints admit its row. */
  lemma CapacityAdmitsRequest(db: Db, t: Id, req: BookingRequest)
    requires CatalogOk(db) && PositiveLengths(db.appts) && ReadyToBook(db, t, req)
    requires HasCapacity(db, t, req.employee, db.catalog.services[req.service], req.starts)
    ensures var row := NewRow(t, BookedRequest(db, t, req), db.catalog.services[req.service]);
            (row.room.Some? ==> HasRoom(db, t, row.room.value)) && Admits(db.appts, req.appt, row)
  {
    var service := db.catalog.services[req.service];
    assert ServiceOk(service);
    var client := ClientFor(db, t, req.phone, req.newClient);
    CapacityMeansAdmitted(db, t, req.appt, Candidate(t, client, req.employee, req.service, service, req.starts, None),
        service);
  }

  lemma KnownClientIsThere(db: Db, t: Id, phone: string, newId: Id)
    requires forall k :: 0 <= k < |db.clients| ==> db.clients[k].id != newId
    ensures var known := FindOrCreateClient(db, t, phone, newId);
            && known.error.None? && known.db == db.(clients := known.db.clients)
            && HasClient(known.db, t, ClientFor(db, t, phone, newId))
  {
    var known := FindOrCreateClient(db, t, phone, newId).db;
    if ClientByPhone(db.clients, t, phone).None? {
      assert known.clients[|db.clients|] == Client(newId, t, phone);
    }
  }

  /**
   Main result: the picker offers a start exactly when it is on the grid of one
   of the day's windows, lies ahead, and booking it on the same state succeeds.
   */
  lemma OfferedExactlyWhenBookable(db: Db, t: Id, req: BookingRequest, day: nat, now: int)
    requires Inv(db) && ReadyToBook(db, t, req)
    ensures var service := db.catalog.services[req.service];
            var windows := db.catalog.employees[req.employee].windows;
            var offset := db.catalog.companies[t].utcOffset;
            req.starts in Offered(db, t, req.employee, service, windows, day, offset, now) <==>
              OnSomeGrid(req.starts, windows, day, offset, service.duration, now) &&
                  PlaceBooking(db, t, req).error.None?
  {
    var service := db.catalog.services[req.service];
    assert ServiceOk(service);
    OfferedIsTheFreeGrid(db, t, req.employee, service, db.catalog.employees[req.employee].windows, day,
                         db.catalog.companies[t].utcOffset, now, req.starts);
    CapacityDecidesPlacement(db, t, req);
  }

  /** After a booking its start is taken for the same employee, whatever the service. */
  lemma BookedStartIsTaken(db: Db, t: Id, req: BookingRequest, duration: int)
    requires Inv(db) && PlaceBooking(db, t, req).error.None? && duration > 0
    ensures EmployeeTaken(PlaceBooking(db, t, req).db.appts, t, req.employee, req.starts, req.starts + duration, None)
  {
    var clients, request := PlacementIsCreation(db, t, req);
    var row := PlaceBooking(db, t, req).db.appts[req.appt];
    assert ServiceOk(db.catalog.services[req.service]);
    assert Meets(row, req.appt, t, req.starts, req.starts + duration, None) && row.employee == req.employee;
  }
}
