/**
 A database session as the services use it: the committed tables, the tables
 as the open transaction has them, changes still in memory, and the
 transaction-local tenant setting the row policy reads. Every statement on
 tenant rows sees the tables through the policy and fails without a setting.
 */
module Sessions {
  import opened Calendar
  import opened Ledger

  // ----- the row policy

  /** The rows of one tenant, in table order. */
  function Own<T>(rows: seq<T>, owner: T -> Id, t: Id): seq<T> {
    if |rows| == 0 then []
    else
      var rest, last := Own(rows[..|rows| - 1], owner, t), rows[|rows| - 1];
      if owner(last) == t then rest + [last] else rest
  }

  function RoomOwner(r: Room): Id { r.tenant }

  function ClientOwner(c: Client): Id { c.tenant }

  function EntryOwner(e: WaitEntry): Id { e.tenant }

  /**
   What the policy lets a statement see: rows of the setting's tenant.
   Companies are under no policy. No statement reads the status history, and
   logs are only asked whether there is one.
   */
  function Visible(db: Db, setting: Id): Db {
    Db(Catalog(db.catalog.companies,
               map id | id in db.catalog.services && db.catalog.services[id].tenant == setting ::
                   db.catalog.services[id],
               map id | id in db.catalog.employees && db.catalog.employees[id].tenant == setting ::
                   db.catalog.employees[id],
               Own(db.catalog.rooms, RoomOwner, setting)),
       Own(db.clients, ClientOwner, setting),
       map id | id in db.appts && db.appts[id].tenant == setting :: db.appts[id],
       [],
       multiset(set log | log in db.logs && log.tenant == setting),
       Own(db.waitlist, EntryOwner, setting),
       map id | id in db.payments && db.payments[id].tenant == setting :: db.payments[id])
  }

  // ----- changes in memory

  /** A row, new or changed, that is not flushed yet; an appointment comes with its history entry. */
  datatype Write =
    | PutAppt(id: Id, row: Appt, isNew: bool, entry: Option<Entry>)
    | PutPayment(id: Id, record: Payment, isNew: bool)
    | PutEntry(waiting: WaitEntry, isNew: bool)
    | AddClient(client: Client)
    | AddLog(log: Log)

  function Owner(w: Write): Id {
    match w
    case PutAppt(_, row, _, _) => row.tenant
    case PutPayment(_, record, _) => record.tenant
    case PutEntry(waiting, _) => waiting.tenant
    case AddClient(client) => client.tenant
    case AddLog(log) => log.tenant
  }

  /** The database takes the row: a new key is free, and no exclusion constraint objects. */
  predicate Accepts(db: Db, w: Write) {
    match w
    case PutAppt(id, row, isNew, _) => (isNew <==> id !in db.appts) && Admits(db.appts, id, row)
    case PutPayment(id, _, isNew) => isNew ==> id !in db.payments
    case PutEntry(waiting, isNew) =>
      isNew ==> Referenced(db, waiting) && forall k :: 0 <= k < |db.waitlist| ==> db.waitlist[k].id != waiting.id
    case AddClient(client) => forall k :: 0 <= k < |db.clients| ==> db.clients[k].id != client.id
    case AddLog(_) => true
  }

  function Written(db: Db, w: Write): Db {
    match w
    case PutAppt(id, row, _, entry) =>
      db.(appts := db.appts[id := row], history := db.history + if entry.Some? then [entry.value] else [])
    case PutPayment(id, record, _) => db.(payments := db.payments[id := record])
    case PutEntry(waiting, isNew) =>
      if isNew then db.(waitlist := db.waitlist + [waiting])
      else
        var k := PositionOf(db.waitlist, waiting.tenant, waiting.id);
        if k.None? then db else db.(waitlist := db.waitlist[k.value := waiting])
    case AddClient(client) => db.(clients := db.clients + [client])
    case AddLog(log) => db.(logs := db.logs + multiset{log})
  }

  /** The tables after all writes, None if the database refuses one. */
  function Flushed(db: Db, writes: seq<Write>): Option<Db>
    decreases |writes|
  {
    if writes == [] then Some(db)
    else if !Accepts(db, writes[0]) then None
    else Flushed(Written(db, writes[0]), writes[1..])
  }

  lemma FlushOne(db: Db, w: Write)
    ensures Flushed(db, [w]) == if Accepts(db, w) then Some(Written(db, w)) else None
  {
    assert [w][1..] == [];
  }

  lemma FlushTwo(db: Db, v: Write, w: Write)
    requires Accepts(db, v)
    ensures Flushed(db, [v, w]) == if Accepts(Written(db, v), w) then Some(Written(Written(db, v), w)) else None
  {
    assert [v, w][1..] == [w];
    FlushOne(Written(db, v), w);
  }

  class Session {
    var store: Db
    var work: Db
    var pending: seq<Write>
    var tenant: Option<Id>

    /** Statements on this tenant's rows run under its own setting. */
    predicate Scoped(t: Id)
      reads this
    {
      tenant == Some(t)
    }

    /** What a statement reads from. Without a setting the policy's cast fails, so there is nothing to read from. */
    function View(): Db
      requires tenant.Some?
      reads this
    {
      Visible(work, tenant.value)
    }

    /**
     The policy's check on written rows: there is a setting, and each row is its
     tenant's. Nothing to write needs no setting.
     */
    predicate Cleared()
      reads this
    {
      pending == [] || (tenant.Some? && forall k :: 0 <= k < |pending| ==> Owner(pending[k]) == tenant.value)
    }

    /** Between two transactions: nothing to flush and nothing the store does not have. */
    predicate Committed(db: Db)
      reads this
    {
      store == db && work == db && pending == []
    }

    constructor (db: Db)
      ensures Committed(db) && tenant.None?
    {
      store, work, pending, tenant := db, db, [], None;
    }

    method SetTenantContext(t: Id)
      modifies this`tenant
      ensures Scoped(t)
    {
      tenant := Some(t);
    }

    /** Keeps a change in memory until the next flush. */
    method Stage(w: Write)
      modifies this`pending
      ensures pending == old(pending) + [w]
    {
      pending := pending + [w];
    }

    /** Sends what is in memory to the database. If a row is refused, all stays as it was. */
    method Flush() returns (ok: bool)
      requires Cleared()
      modifies this`work, this`pending
      ensures ok <==> Flushed(old(work), old(pending)).Some?
      ensures ok ==> work == Flushed(old(work), old(pending)).value && pending == []
      ensures !ok ==> work == old(work) && pending == old(pending)
    {
      var i, db := 0, work;
      while i < |pending|
        invariant 0 <= i <= |pending| && pending == old(pending) && work == old(work)
        invariant Flushed(db, pending[i..]) == Flushed(work, pending)
      {
        assert pending[i..][1..] == pending[i + 1..];
        if !Accepts(db, pending[i]) {
          return false;
        }
        db := Written(db, pending[i]);
        i := i + 1;
      }
      work, pending := db, [];
      return true;
    }

    /** Flushes, then ends the transaction and with it the tenant setting. */
    method Commit() returns (ok: bool)
      requires Cleared()
      modifies this
      ensures ok <==> Flushed(old(work), old(pending)).Some?
      ensures ok ==> Committed(Flushed(old(work), old(pending)).value) && tenant.None?
      ensures !ok ==> store == old(store)
    {
      ok := Flush();
      if ok {
        store, tenant := work, None;
      }
    }

    /** Drops the transaction, and with it the tenant setting. */
    method Rollback()
      modifies this
      ensures Committed(old(store)) && tenant.None?
    {
      work, pending, tenant := store, [], None;
    }

    /** The flush of a write whose integrity error is caught: a refused row ends the transaction. */
    method FlushOrRollback() returns (ok: bool)
      requires Cleared()
      modifies this
      ensures ok <==> Flushed(old(work), old(pending)).Some?
      ensures ok ==> work == Flushed(old(work), old(pending)).value && pending == []
      ensures ok ==> store == old(store) && tenant == old(tenant)
      ensures !ok ==> Committed(old(store)) && tenant.None?
    {
      ok := Flush();
      if !ok {
        Rollback();
      }
    }

    /** A service call is over: it committed this outcome, or failed and committed nothing. */
    predicate Ended(out: Outcome, before: Db)
      reads this
    {
      if out.error.None? then Committed(out.db) && tenant.None? else store == before
    }
  }

  // ----- what the policy changes, and what not

  lemma {:induction false} OwnMembers<T>(rows: seq<T>, owner: T -> Id, t: Id)
    ensures forall x :: x in Own(rows, owner, t) <==> x in rows && owner(x) == t
    decreases |rows|
  {
    if |rows| > 0 { OwnMembers(rows[..|rows| - 1], owner, t); }
  }

  /** Under its own setting a tenant finds its rows as if there were no policy; under another one it finds none. */
  lemma LookupsUnderPolicy(db: Db, setting: Id, t: Id, id: Id)
    ensures FindAppt(Visible(db, setting), t, id) == if setting == t then FindAppt(db, t, id) else None
    ensures FindService(Visible(db, setting), t, id) == if setting == t then FindService(db, t, id) else None
    ensures FindEmployee(Visible(db, setting), t, id) == if setting == t then FindEmployee(db, t, id) else None
    ensures FindPayment(Visible(db, setting), t, id) == if setting == t then FindPayment(db, t, id) else None
  {
  }

  lemma ListsUnderPolicy(db: Db, setting: Id, t: Id, id: Id)
    ensures HasRoom(Visible(db, setting), t, id) <==> setting == t && HasRoom(db, t, id)
    ensures HasClient(Visible(db, setting), t, id) <==> setting == t && HasClient(db, t, id)
  {
    OwnMembers(db.catalog.rooms, RoomOwner, setting);
    OwnMembers(db.clients, ClientOwner, setting);
    assert HasRoom(db, t, id) <==> exists r :: r in db.catalog.rooms && r.id == id && r.tenant == t;
    assert HasClient(db, t, id) <==> exists c :: c in db.clients && c.id == id && c.tenant == t;
    var seen := Visible(db, setting);
    assert HasRoom(seen, t, id) <==> exists r :: r in seen.catalog.rooms && r.id == id && r.tenant == t;
    assert HasClient(seen, t, id) <==> exists c :: c in seen.clients && c.id == id && c.tenant == t;
  }

  /** The slot query under its own setting is the one on the whole table; under another it finds nothing taken. */
  lemma SlotQueryUnderPolicy(db: Db, setting: Id, t: Id, employee: Id, room: Option<Id>, starts: int, ends: int,
                             exclude: Option<Id>)
    ensures EmployeeTaken(Visible(db, setting).appts, t, employee, starts, ends, exclude) <==>
              setting == t && EmployeeTaken(db.appts, t, employee, starts, ends, exclude)
    ensures RoomTaken(Visible(db, setting).appts, t, room, starts, ends, exclude) <==>
              setting == t && RoomTaken(db.appts, t, room, starts, ends, exclude)
  {
    var seen := Visible(db, setting).appts;
    forall id | id in db.appts && Meets(db.appts[id], id, t, starts, ends, exclude) && setting == t
      ensures id in seen && seen[id] == db.appts[id]
    {
    }
  }

  lemma SentUnderPolicy(db: Db, setting: Id, t: Id, id: Id, kind: Kind)
    ensures AlreadySent(Visible(db, setting).logs, t, id, kind) <==> setting == t && AlreadySent(db.logs, t, id, kind)
  {
    var seen := Visible(db, setting).logs;
    forall log ensures log in seen <==> log in db.logs && log.tenant == setting {
    }
  }

  lemma {:induction false} OwnClientByPhone(clients: seq<Client>, t: Id, phone: string)
    ensures ClientByPhone(Own(clients, ClientOwner, t), t, phone) == ClientByPhone(clients, t, phone)
    decreases |clients|
  {
    if clients != [] {
      var rest, last := clients[..|clients| - 1], clients[|clients| - 1];
      OwnClientByPhone(rest, t, phone);
      assert clients == rest + [last];
      LastClientByPhone(rest, last, t, phone);
      LastClientByPhone(Own(rest, ClientOwner, t), last, t, phone);
    }
  }

  lemma {:induction false} LastClientByPhone(clients: seq<Client>, last: Client, t: Id, phone: string)
    ensures ClientByPhone(clients + [last], t, phone) ==
              var first := ClientByPhone(clients, t, phone);
              if first.Some? then first else if last.tenant == t && last.phone == phone then Some(last.id) else None
    decreases |clients|
  {
    var all := clients + [last];
    if clients == [] {
      assert all == [last] && all[1..] == [];
    } else {
      assert all[0] == clients[0] && all[1..] == clients[1..] + [last];
      LastClientByPhone(clients[1..], last, t, phone);
    }
  }

  lemma {:induction false} OwnFirstFreeRoom(db: Db, rooms: seq<Room>, t: Id, employee: Id, starts: int, ends: int)
    ensures FirstFreeRoom(db, Own(rooms, RoomOwner, t), t, employee, starts, ends) ==
              FirstFreeRoom(db, rooms, t, employee, starts, ends)
    decreases |rooms|
  {
    if rooms != [] {
      var rest := Own(rooms[..|rooms| - 1], RoomOwner, t);
      OwnFirstFreeRoom(db, rooms[..|rooms| - 1], t, employee, starts, ends);
      assert (rest + [rooms[|rooms| - 1]])[..|rest|] == rest;
    }
  }

  /** The row a match names, None if there is none. */
  function Chosen(entries: seq<WaitEntry>, k: Option<nat>): Option<WaitEntry> {
    if k.Some? && k.value < |entries| then Some(entries[k.value]) else None
  }

  lemma {:induction false} OwnOldestMatch(entries: seq<WaitEntry>, t: Id, service: Id, employee: Id, slot: int)
    ensures var own := Own(entries, EntryOwner, t);
            Chosen(own, OldestMatch(own, t, service, employee, slot)) ==
                Chosen(entries, OldestMatch(entries, t, service, employee, slot))
    decreases |entries|
  {
    if entries != [] {
      var rest := Own(entries[..|entries| - 1], EntryOwner, t);
      OwnOldestMatch(entries[..|entries| - 1], t, service, employee, slot);
      assert (rest + [entries[|entries| - 1]])[..|rest|] == rest;
    }
  }

  lemma {:induction false} OwnPosition(entries: seq<WaitEntry>, t: Id, id: Id)
    ensures var own := Own(entries, EntryOwner, t);
            Chosen(own, PositionOf(own, t, id)) == Chosen(entries, PositionOf(entries, t, id))
    decreases |entries|
  {
    if entries != [] {
      var rest := Own(entries[..|entries| - 1], EntryOwner, t);
      OwnPosition(entries[..|entries| - 1], t, id);
      assert (rest + [entries[|entries| - 1]])[..|rest|] == rest;
    }
  }

  lemma OldestUnderPolicy(entries: seq<WaitEntry>, setting: Id, t: Id, service: Id, employee: Id, slot: int)
    ensures var own := Own(entries, EntryOwner, setting);
            Chosen(own, OldestMatch(own, t, service, employee, slot)) ==
              if setting == t then Chosen(entries, OldestMatch(entries, t, service, employee, slot)) else None
  {
    OwnMembers(entries, EntryOwner, setting);
    if setting == t {
      OwnOldestMatch(entries, t, service, employee, slot);
    } else {
      var own := Own(entries, EntryOwner, setting);
      assert forall k :: 0 <= k < |own| ==> own[k] in own;
    }
  }

  lemma PositionUnderPolicy(entries: seq<WaitEntry>, setting: Id, t: Id, id: Id)
    ensures var own := Own(entries, EntryOwner, setting);
            Chosen(own, PositionOf(own, t, id)) == if setting == t then Chosen(entries, PositionOf(entries, t, id))
                else None
  {
    OwnMembers(entries, EntryOwner, setting);
    if setting == t {
      OwnPosition(entries, t, id);
    } else {
      var own := Own(entries, EntryOwner, setting);
      assert forall k :: 0 <= k < |own| ==> own[k] in own;
    }
  }

  /** A client is found by phone among the rows the policy shows. */
  lemma ClientUnderPolicy(clients: seq<Client>, setting: Id, t: Id, phone: string)
    ensures ClientByPhone(Own(clients, ClientOwner, setting), t, phone) == if setting == t
              then ClientByPhone(clients, t, phone) else None
  {
    OwnMembers(clients, ClientOwner, setting);
    if setting == t {
      OwnClientByPhone(clients, t, phone);
    } else {
      var own := Own(clients, ClientOwner, setting);
      assert forall k :: 0 <= k < |own| ==> own[k] in own;
    }
  }

  lemma {:induction false} KeyFindsEntry(entries: seq<WaitEntry>, k: nat)
    requires DistinctEntries(entries) && k < |entries|
    ensures PositionOf(entries, entries[k].tenant, entries[k].id) == Some(k)
    decreases |entries|
  {
    if k < |entries| - 1 {
      KeyFindsEntry(entries[..|entries| - 1], k);
    }
  }
}
