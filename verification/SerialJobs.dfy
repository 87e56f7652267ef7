/**
 The services on the tables and the jobs of the interleaved sessions are the
 same calls: run alone with their messages sent, they succeed together and leave
 the same appointments. A message that cannot be sent is a rollback there.
 */
module SerialJobs {
  import opened Calendar
  import opened Ledger
  import opened Invariant
  import opened Failures
  import I = Interleaving

  /** The appointments a call leaves, None when it fails. */
  function Appointments(out: Outcome): Option<Appts> {
    if out.error.None? then Some(out.db.appts) else None
  }

  lemma CreateIsBook(db: Db, tenant: Id, id: Id, req: Request)
    requires Inv(db) && WellAddressed(db, tenant, id, req)
    ensures var row := NewRow(tenant, req, FindService(db, tenant, req.service).value);
            && I.WellFormed(I.Book(id, row))
            && Appointments(CreateAppointment(db, tenant, id, req)) == I.ServiceAlone(db.appts, I.Book(id, row))
  {
    var service := FindService(db, tenant, req.service).value;
    assert ServiceOk(service);
    ExcludingAbsentRow(db.appts, id, NewRow(tenant, req, service));
  }

  lemma RescheduleIsMove(db: Db, tenant: Id, id: Id, starts: int)
    requires Inv(db) && FindAppt(db, tenant, id).Some?
    ensures var ends := starts + db.catalog.services[db.appts[id].service].duration;
            && I.WellFormed(I.Move(id, starts, ends))
            && Appointments(RescheduleTo(db, tenant, id, starts)) == I.ServiceAlone(db.appts, I.Move(id, starts, ends))
  {
    assert RowOk(db, db.appts[id]) && ServiceOk(db.catalog.services[db.appts[id].service]);
  }

  lemma TransitionIsMark(db: Db, tenant: Id, id: Id, to: Status, noShow: bool)
    requires FindAppt(db, tenant, id).Some?
    ensures Appointments(Transition(db, tenant, id, to, noShow)) == I.ServiceAlone(db.appts, I.Mark(id, to, noShow))
  {
  }
}
