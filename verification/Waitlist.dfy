/**
 Waitlist promotion over serial runs: who is promoted, how often, and that
 every promotion has its cancellation and its log.
 */
module Waitlist {
  import opened Calendar
  import opened Ledger
  import opened Invariant
  import opened Runs
  import References

  /** A cancellation that passes its checks. */
  predicate Cancels(db: Db, call: Call) {
    call.Cancelling? && Cancel(db, call.tenant, call.id, call.noShow).error.None?
  }

  /** The position a call promotes: the next in line for the row it cancels. */
  function Promotes(db: Db, call: Call): Option<nat> {
    if Cancels(db, call) then
      NextInLine(db, call.tenant, db.appts[call.id])
    else None
  }

  /** The waitlist and promotion logs after entry k, if any, was promoted. */
  ghost predicate PromotedInto(db: Db, after: Db, tenant: Id, k: Option<nat>)
    requires k.Some? ==> k.value < |db.waitlist|
  {
    match k
    case None =>
      after.waitlist == db.waitlist && forall log: Log :: log.kind == WaitlistPromotion ==>
          after.logs[log] == db.logs[log]
    case Some(k) =>
      && after.waitlist == db.waitlist[k := db.waitlist[k].(status := Promoted)]
      && forall log: Log :: log.kind == WaitlistPromotion ==>
           after.logs[log] ==
               db.logs[log] + (if log == Log(tenant, None, db.waitlist[k].client, WaitlistPromotion) then 1 else 0)
  }

  lemma PromoteEffect(db: Db, tenant: Id, freed: Appt)
    ensures PromotedInto(db, Promote(db, tenant, freed), tenant, NextInLine(db, tenant, freed))
  {
  }

  lemma PromotedAfter(db: Db, told: Db, after: Db, tenant: Id, k: Option<nat>)
    requires told.waitlist == db.waitlist && Quiet(db, told, {Cancellation})
    requires k.Some? ==> k.value < |db.waitlist|
    requires PromotedInto(told, after, tenant, k)
    ensures PromotedInto(db, after, tenant, k)
  {
  }

  /** What a successful cancellation does to the waitlist and to its logs. */
  lemma CancellationPromotes(db: Db, tenant: Id, id: Id, noShow: bool)
    requires Cancel(db, tenant, id, noShow).error.None?
    ensures PromotedInto(db, Cancel(db, tenant, id, noShow).db, tenant, NextInLine(db, tenant, db.appts[id]))
  {
    var moved, told, row := CancelSteps(db, tenant, id, noShow);
    PromoteEffect(told, tenant, row);
    PromotedAfter(db, told, Promote(told, tenant, row), tenant, NextInLine(told, tenant, row));
  }

  /** The promoted entry fits the freed slot, and no older waiting entry fits it. */
  lemma PromotionIsFair(db: Db, call: Call, k: nat, older: nat)
    requires Promotes(db, call) == Some(k)
    requires older < |db.waitlist| && db.waitlist[older].created < db.waitlist[k].created
    ensures var freed := db.appts[call.id];
            && Matches(db.waitlist[k], call.tenant, freed.service, freed.employee, freed.starts)
            && !Matches(db.waitlist[older], call.tenant, freed.service, freed.employee, freed.starts)
  {
  }

  /** A fitting entry is never passed over: when somebody waiting fits, somebody is promoted. */
  lemma NobodyIsPassedOver(db: Db, call: Call, k: nat)
    requires Cancels(db, call) && k < |db.waitlist|
    requires var freed := db.appts[call.id];
             Matches(db.waitlist[k], call.tenant, freed.service, freed.employee, freed.starts)
    ensures Promotes(db, call).Some? && db.waitlist[Promotes(db, call).value].created <= db.waitlist[k].created
  {
  }

  function PromotionOf(k: nat): (Db, Call) -> bool {
    (db: Db, call: Call) => Promotes(db, call) == Some(k)
  }

  function PromotionFor(tenant: Id, client: Id): (Db, Call) -> bool {
    (db: Db, call: Call) => Promotes(db, call).Some? && call.tenant == tenant &&
        db.waitlist[Promotes(db, call).value].client == client
  }

  function AnyCancellation(): (Db, Call) -> bool {
    (db: Db, call: Call) => Cancels(db, call)
  }

  /** How one entry may change: entries keep their places, and only a promoted one stops waiting by promotion. */
  predicate EntryStep(before: seq<WaitEntry>, after: seq<WaitEntry>, promoted: Option<nat>, k: nat) {
    && |before| <= |after|
    && (k < |before| ==>
          && (after[k].status == Waiting ==> before[k].status == Waiting && promoted != Some(k))
          && (promoted == Some(k) ==> before[k].status == Waiting && after[k].status == Promoted)
          && (after[k].status == Promoted && promoted != Some(k) ==> before[k].status == Promoted))
    && (|before| <= k < |after| ==> after[k].status == Waiting)
    && (promoted == Some(k) ==> k < |before|)
  }

  lemma PromotionStep(db: Db, after: Db, tenant: Id, promoted: Option<nat>, k: nat)
    requires promoted.Some? ==> promoted.value < |db.waitlist| && db.waitlist[promoted.value].status == Waiting
    requires PromotedInto(db, after, tenant, promoted)
    ensures EntryStep(db.waitlist, after.waitlist, promoted, k)
  {
  }

  lemma CancellationStep(db: Db, tenant: Id, id: Id, noShow: bool, k: nat)
    requires Cancel(db, tenant, id, noShow).error.None?
    ensures EntryStep(db.waitlist, Cancel(db, tenant, id, noShow).db.waitlist, NextInLine(db, tenant, db.appts[id]), k)
  {
    CancellationPromotes(db, tenant, id, noShow);
    PromotionStep(db, Cancel(db, tenant, id, noShow).db, tenant, NextInLine(db, tenant, db.appts[id]), k);
  }

  lemma DeskStep(db: Db, call: Call, k: nat)
    requires IsDeskCall(call)
    ensures EntryStep(db.waitlist, ExecDesk(db, call).db.waitlist, None, k)
  {
  }

  lemma WaitlistStep(db: Db, call: Call, k: nat)
    requires Exec(db, call).error.None?
    ensures EntryStep(db.waitlist, Exec(db, call).db.waitlist, Promotes(db, call), k)
  {
    if call.Cancelling? {
      CancellationStep(db, call.tenant, call.id, call.noShow, k);
    } else if IsDeskCall(call) {
      DeskStep(db, call, k);
    } else {
      CallsAreQuiet(db, call);
    }
  }

  /**
   In every run each entry is promoted at most once, never while it still waits,
   and always if it stands as promoted.
   */
  lemma {:induction false} EntryPromotedAtMostOnce(run: seq<Attempt>, k: nat)
    ensures Tally(run, PromotionOf(k)) <= 1
    ensures k < |After(run).waitlist| ==>
              && (After(run).waitlist[k].status == Waiting ==> Tally(run, PromotionOf(k)) == 0)
              && (After(run).waitlist[k].status == Promoted ==> Tally(run, PromotionOf(k)) == 1)
    ensures k >= |After(run).waitlist| ==> Tally(run, PromotionOf(k)) == 0
    decreases |run|
  {
    if run != [] {
      var before, a := run[..|run| - 1], run[|run| - 1];
      EntryPromotedAtMostOnce(before, k);
      if Attempted(After(before), a).error.None? {
        WaitlistStep(After(before), a.call, k);
      } else {
        FailedCallChangesNothing(After(before), a);
      }
    }
  }

  /** The position a call withdraws. */
  function Withdraws(db: Db, call: Call): Option<nat> {
    if call.Leaving? then PositionOf(db.waitlist, call.tenant, call.id) else None
  }

  function WithdrawalOf(k: nat): (Db, Call) -> bool {
    (db: Db, call: Call) => Withdraws(db, call) == Some(k)
  }

  function Joins(): (Db, Call) -> bool {
    (db: Db, call: Call) => call.Joining?
  }

  /**
   Entries keep their data and places, one is added by joining, and an entry waits
   on unless it is promoted or withdrawn.
   */
  ghost predicate WaitsOn(before: seq<WaitEntry>, after: seq<WaitEntry>, joins: bool, promoted: Option<nat>,
                          withdrawn: Option<nat>, k: nat)
  {
    && |after| == |before| + (if joins then 1 else 0)
    && (k < |before| ==>
          && after[k] == before[k].(status := after[k].status)
          && (after[k].status == Waiting <==>
               before[k].status == Waiting && promoted != Some(k) && withdrawn != Some(k)))
    && (|before| <= k < |after| ==> after[k].status == Waiting)
    && (k >= |before| ==> promoted != Some(k) && withdrawn != Some(k))
  }

  lemma PromotionWaits(db: Db, after: Db, tenant: Id, promoted: Option<nat>, k: nat)
    requires promoted.Some? ==> promoted.value < |db.waitlist|
    requires PromotedInto(db, after, tenant, promoted)
    ensures WaitsOn(db.waitlist, after.waitlist, false, promoted, None, k)
  {
  }

  lemma DeskWaits(db: Db, call: Call, k: nat)
    requires IsDeskCall(call) && ExecDesk(db, call).error.None?
    ensures WaitsOn(db.waitlist, ExecDesk(db, call).db.waitlist, call.Joining?, None, Withdraws(db, call), k)
  {
  }

  lemma WaitingStep(db: Db, call: Call, k: nat)
    requires Exec(db, call).error.None?
    ensures WaitsOn(db.waitlist, Exec(db, call).db.waitlist, call.Joining?, Promotes(db, call), Withdraws(db, call), k)
  {
    if call.Cancelling? {
      CancellationPromotes(db, call.tenant, call.id, call.noShow);
      PromotionWaits(db, Exec(db, call).db, call.tenant, Promotes(db, call), k);
    } else if IsDeskCall(call) {
      DeskWaits(db, call, k);
    } else {
      CallsAreQuiet(db, call);
    }
  }

  /**
   In every run each successful joining has its entry, and an entry still waits
   exactly when nothing promoted or withdrew it.
   */
  lemma {:induction false} WaitsUntilPromotedOrWithdrawn(run: seq<Attempt>, k: nat)
    ensures |After(run).waitlist| == Tally(run, Joins())
    ensures k < |After(run).waitlist| ==>
              (After(run).waitlist[k].status == Waiting <==>
                  Tally(run, PromotionOf(k)) == 0 && Tally(run, WithdrawalOf(k)) == 0)
    ensures k >= |After(run).waitlist| ==> Tally(run, PromotionOf(k)) == 0 && Tally(run, WithdrawalOf(k)) == 0
    decreases |run|
  {
    if run != [] {
      var before, a := run[..|run| - 1], run[|run| - 1];
      WaitsUntilPromotedOrWithdrawn(before, k);
      if Attempted(After(before), a).error.None? {
        WaitingStep(After(before), a.call, k);
      } else {
        FailedCallChangesNothing(After(before), a);
      }
    }
  }

  /** Only joining adds an entry, and its id is new. */
  lemma KeyStep(db: Db, call: Call)
    requires DistinctEntries(db.waitlist) && Exec(db, call).error.None?
    ensures DistinctEntries(Exec(db, call).db.waitlist)
  {
    var before, after := db.waitlist, Exec(db, call).db.waitlist;
    forall i, j | 0 <= i < j < |after| ensures after[i].id != after[j].id {
      WaitingStep(db, call, i);
      WaitingStep(db, call, j);
      if j >= |before| { JoiningIsNew(db, call, i); }
    }
  }

  lemma JoiningIsNew(db: Db, call: Call, i: nat)
    requires call.Joining? && Exec(db, call).error.None? && i < |db.waitlist|
    ensures Exec(db, call).db.waitlist == db.waitlist + [call.entry.(status := Waiting)] &&
              db.waitlist[i].id != call.entry.id
  {
  }

  /** In every run the ids of the waitlist stay distinct. */
  lemma {:induction false} EntriesStayDistinct(run: seq<Attempt>)
    ensures DistinctEntries(After(run).waitlist)
    decreases |run|
  {
    if run != [] {
      var before, a := run[..|run| - 1], run[|run| - 1];
      EntriesStayDistinct(before);
      if Attempted(After(before), a).error.None? {
        KeyStep(After(before), a.call);
      } else {
        FailedCallChangesNothing(After(before), a);
      }
    }
  }

  // ----- promotions and cancelled rows

  function CancelledRows(appts: Appts): set<Id> {
    set id | id in appts && appts[id].status == Cancelled
  }

  function PromotedEntries(entries: seq<WaitEntry>): set<nat> {
    set k: nat | k < |entries| && entries[k].status == Promoted
  }

  /** A successful cancellation cancels its row, which was not cancelled before, and no other. */
  lemma CancellationCancels(db: Db, tenant: Id, id: Id, noShow: bool)
    requires Cancel(db, tenant, id, noShow).error.None?
    ensures id !in CancelledRows(db.appts)
    ensures CancelledRows(Cancel(db, tenant, id, noShow).db.appts) == CancelledRows(db.appts) + {id}
  {
    var moved, told, row := CancelSteps(db, tenant, id, noShow);
    assert Promote(told, tenant, row).appts == db.appts[id := row];
  }

  lemma ConfirmationCancelsNobody(db: Db, tenant: Id, id: Id)
    ensures CancelledRows(Confirm(db, tenant, id).db.appts) == CancelledRows(db.appts)
  {
  }

  lemma CreationCancelsNobody(db: Db, tenant: Id, id: Id, req: Request)
    ensures CancelledRows(CreateAppointment(db, tenant, id, req).db.appts) == CancelledRows(db.appts)
  {
  }

  lemma MoveCancelsNobody(db: Db, tenant: Id, id: Id, starts: int)
    ensures CancelledRows(RescheduleTo(db, tenant, id, starts).db.appts) == CancelledRows(db.appts)
  {
    if RescheduleTo(db, tenant, id, starts).error.None? {
      var row := RescheduleWrites(db, tenant, id, starts);
    }
  }

  lemma AgendaCancelsNobodyElse(db: Db, call: Call)
    requires IsAgendaCall(call) && !call.Cancelling?
    ensures CancelledRows(ExecAgenda(db, call).db.appts) == CancelledRows(db.appts)
  {
    match call
    case Creating(t, id, req) => CreationCancelsNobody(db, t, id, req);
    case Confirming(t, id) => ConfirmationCancelsNobody(db, t, id);
    case Completing(t, id) =>
    case Rescheduling(t, id, starts) => MoveCancelsNobody(db, t, id, starts);
  }

  lemma SettlingCancelsNobody(db: Db, tenant: Id, id: Id, record: Payment)
    ensures CancelledRows(Settle(db, tenant, id, record).db.appts) == CancelledRows(db.appts)
  {
    ConfirmationCancelsNobody(db.(payments := db.payments[id := record]), tenant, record.appt);
  }

  lemma PaymentCancelsNobody(db: Db, call: Call)
    requires IsPaymentCall(call)
    ensures CancelledRows(ExecPayment(db, call).db.appts) == CancelledRows(db.appts)
  {
    if ExecPayment(db, call).db != db {
      var tenant, id, record := PaymentCallSettles(db, call);
      SettlingCancelsNobody(db, tenant, id, record);
    }
  }

  /** A payment call that changes anything settles one record. */
  lemma PaymentCallSettles(db: Db, call: Call) returns (tenant: Id, id: Id, record: Payment)
    requires IsPaymentCall(call) && ExecPayment(db, call).db != db
    ensures ExecPayment(db, call) == Settle(db, tenant, id, record)
  {
    match call
    case Charging(t, appt, added, charge) =>
      var service := FindService(db, t, db.appts[appt].service).value;
      tenant, id, record := t, added, ChargeRecord(t, appt, service, StatusOf(charge.value));
    case Polling(t, polled, charge) =>
      var status := StatusOf(charge.value);
      tenant, id, record :=
          t, polled, db.payments[polled].(status := status, paid := db.payments[polled].paid || status == Approved);
    case Delivering(reference, charge) =>
      var status := StatusOf(charge);
      tenant, id := References.ParseReference(reference).value.0, References.ParseReference(reference).value.1;
      record := db.payments[id].(status := status, paid := db.payments[id].paid || status == Approved);
  }

  lemma PlacementCancelsNobody(db: Db, tenant: Id, req: BookingRequest)
    ensures CancelledRows(PlaceBooking(db, tenant, req).db.appts) == CancelledRows(db.appts)
  {
    if PlaceBooking(db, tenant, req).error.Some? {
      FailedPlacementChangesNothing(db, tenant, req);
    } else {
      var clients, request := PlacementIsCreation(db, tenant, req);
      CreationCancelsNobody(db.(clients := clients), tenant, req.appt, request);
    }
  }

  lemma DeskCancelsNobody(db: Db, call: Call)
    requires IsDeskCall(call)
    ensures ExecDesk(db, call).db.appts == db.appts
  {
  }

  lemma OthersCancelNobody(db: Db, call: Call)
    requires !call.Cancelling?
    ensures CancelledRows(Exec(db, call).db.appts) == CancelledRows(db.appts)
  {
    if IsAgendaCall(call) {
      AgendaCancelsNobodyElse(db, call);
    } else if IsPaymentCall(call) {
      PaymentCancelsNobody(db, call);
    } else if IsDeskCall(call) {
      DeskCancelsNobody(db, call);
    } else if call.Placing? {
      PlacementCancelsNobody(db, call.tenant, call.booking);
    }
  }

  /** In every run the cancelled rows are as many as the successful cancellations. */
  lemma {:induction false} CancelledRowsCountCancellations(run: seq<Attempt>)
    ensures |CancelledRows(After(run).appts)| == Tally(run, AnyCancellation())
    decreases |run|
  {
    if run != [] {
      var before, a := run[..|run| - 1], run[|run| - 1];
      CancelledRowsCountCancellations(before);
      if Attempted(After(before), a).error.Some? {
        FailedCallChangesNothing(After(before), a);
      } else if a.call.Cancelling? {
        CancellationCancels(After(before), a.call.tenant, a.call.id, a.call.noShow);
      } else {
        OthersCancelNobody(After(before), a.call);
      }
    }
  }

  /** One call promotes one entry at most, and only with a row it cancels. */
  lemma PromotedStep(db: Db, call: Call)
    requires Exec(db, call).error.None?
    ensures var added := if Promotes(db, call).Some? then {Promotes(db, call).value} else {};
            PromotedEntries(Exec(db, call).db.waitlist) <= PromotedEntries(db.waitlist) + added
  {
    forall k: nat | k in PromotedEntries(Exec(db, call).db.waitlist)
      ensures k in PromotedEntries(db.waitlist) || Promotes(db, call) == Some(k)
    {
      WaitlistStep(db, call, k);
    }
  }

  lemma SubsetIsSmaller<T>(a: set<T>, b: set<T>)
    requires a <= b
    ensures |a| <= |b|
  {
    if a != {} {
      var x :| x in a;
      SubsetIsSmaller(a - {x}, b - {x});
    }
  }

  lemma FewMorePromoted(before: set<nat>, after: set<nat>, promoted: Option<nat>)
    requires after <= before + (if promoted.Some? then {promoted.value} else {})
    ensures |after| <= |before| + (if promoted.Some? then 1 else 0)
  {
    SubsetIsSmaller(after, before + (if promoted.Some? then {promoted.value} else {}));
  }

  /** A cancellation frees one slot and promotes one entry at most; no other call does either. */
  lemma BalanceStep(db: Db, call: Call)
    requires Exec(db, call).error.None?
    requires |PromotedEntries(db.waitlist)| <= |CancelledRows(db.appts)|
    ensures |PromotedEntries(Exec(db, call).db.waitlist)| <= |CancelledRows(Exec(db, call).db.appts)|
  {
    PromotedStep(db, call);
    FewMorePromoted(PromotedEntries(db.waitlist), PromotedEntries(Exec(db, call).db.waitlist), Promotes(db, call));
    if call.Cancelling? {
      CancellationCancels(db, call.tenant, call.id, call.noShow);
    } else {
      OthersCancelNobody(db, call);
    }
  }

  /**
   In every run there are at most as many promoted entries as cancelled
   appointments: every offer has its freed slot.
   */
  lemma {:induction false} PromotionsNeverExceedCancellations(run: seq<Attempt>)
    ensures |PromotedEntries(After(run).waitlist)| <= |CancelledRows(After(run).appts)|
    decreases |run|
  {
    if run != [] {
      var before, a := run[..|run| - 1], run[|run| - 1];
      PromotionsNeverExceedCancellations(before);
      if Attempted(After(before), a).error.Some? {
        FailedCallChangesNothing(After(before), a);
      } else {
        BalanceStep(After(before), a.call);
      }
    }
  }

  // ----- promotion logs

  lemma PromotionAddsItsLog(db: Db, after: Db, tenant: Id, k: Option<nat>, log: Log)
    requires k.Some? ==> k.value < |db.waitlist|
    requires PromotedInto(db, after, tenant, k) && log == Log(log.tenant, None, log.client, WaitlistPromotion)
    ensures after.logs[log] ==
              db.logs[log] +
                  (if k.Some? && tenant == log.tenant && db.waitlist[k.value].client == log.client then 1 else 0)
  {
  }

  lemma PromotionLogStep(db: Db, call: Call, log: Log)
    requires Exec(db, call).error.None? && log == Log(log.tenant, None, log.client, WaitlistPromotion)
    ensures Exec(db, call).db.logs[log] ==
              db.logs[log] + (if PromotionFor(log.tenant, log.client)(db, call) then 1 else 0)
  {
    if call.Cancelling? {
      CancellationPromotes(db, call.tenant, call.id, call.noShow);
      PromotionAddsItsLog(db, Exec(db, call).db, call.tenant, Promotes(db, call), log);
    } else {
      CallsAreQuiet(db, call);
    }
  }

  /** In every run a client has one promotion log per promotion of one of its entries. */
  lemma {:induction false} PromotionLogsCountPromotions(run: seq<Attempt>, tenant: Id, client: Id)
    ensures After(run).logs[Log(tenant, None, client, WaitlistPromotion)] == Tally(run, PromotionFor(tenant, client))
    decreases |run|
  {
    if run != [] {
      var before, a := run[..|run| - 1], run[|run| - 1];
      PromotionLogsCountPromotions(before, tenant, client);
      if Attempted(After(before), a).error.None? {
        PromotionLogStep(After(before), a.call, Log(tenant, None, client, WaitlistPromotion));
      } else {
        FailedCallChangesNothing(After(before), a);
      }
    }
  }
}
