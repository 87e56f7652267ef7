# Scheduling engine: a Dafny model

This project models the scheduling engine of a multi-tenant booking system:
the tables, the sessions that work on them, and the service calls that change
them. It proves what those calls keep, one at a time, over whole runs, and, for
the schedule itself, under arbitrary interleaving of sessions.

| file | what it holds |
|---|---|
| `Calendar.dfy` | appointment rows, the transition graph, the slot query, the two exclusion constraints |
| `Interleaving.dfy` | any number of sessions that check, flush, commit and roll back in any order |
| `Ledger.dfy` | all tables, and the committed state each service call leaves when it runs alone |
| `Invariant.dfy`, `Runs.dfy` | the invariant of every serial run; histories, notification and call counts |
| `Outcomes.dfy` | what each call comes to, in the rows, errors and amounts themselves |
| `SerialJobs.dfy` | the calls of `Ledger.dfy` are the jobs of `Interleaving.dfy` |
| `Waitlist.dfy`, `Reminders.dfy`, `PaymentRuns.dfy`, `Failures.dfy` | results about serial runs, one subject each |
| `Sessions.dfy`, `Services.dfy`, `BookingServices.dfy`, `Availability.dfy` | the session object and the service functions step by step, proved against `Ledger.dfy` |
| `Deposits.dfy`, `References.dfy` | deposit arithmetic; texts that carry a tenant |
| `Dashboard.dfy` | opening minutes, booked minutes, revenue |
| `Tokens.dfy`, `SingleFlight.dfy` | refresh-token rotation and password reset; the browser's shared refresh |

Conventions. Times are whole minutes, money is cents, percentages are
hundredths of a percent, ids are 128-bit numbers. Local time is the time line
shifted by one constant offset per company. A provider's answer, a new random
id or secret and the clock are parameters. Where a payment call can fail, its
answer is an `Option`; a message that cannot be sent is in the set `down` that
comes with a call, and ends that call. Rows that a query returns without an
order come in table order. A failing call yields an error and the state it
leaves; `Integrity` stands for a database error that no service function
catches. A run is a list of attempts, each a call with its `down`.

The tenant setting and the row policy have semantics. `Session.View` is what a
statement reads from: the rows of the setting's tenant, and with no setting
there is nothing to read from, which is its precondition. Changes are staged in
memory and reach the tables by `Flush` or `Commit`, which demand the setting of
the tenant of every row written; `Commit` and `Rollback` drop the setting. The
queries in `Services.dfy`, `BookingServices.dfy` and `Tokens.dfy` go through
`View` and promise the answer of the whole table under the tenant's own setting
and no row under any other; the services read and write through these queries
and staged changes alone. So a service whose setting is missing or set too late
does not meet its contract, in particular along the chained commits of `Book`,
`ChargeDeposit`, `GetBookingStatus` and `HandleWebhook`, and the second commit
after a nested confirmation is only allowed because nothing is left to flush.

## Findings

Six statements one would expect do not hold of the code. Each has a lemma with
a concrete run or input that shows it, and an if-and-only-if that says when it holds.

- What a session read is never read again before it writes. A reschedule may
  commit on a row that was cancelled after it read the row
  (`StaleRescheduleCommits`), and a confirmation may revive one
  (`StaleConfirmationRevivesRow`). An UPDATE carries only the columns that differ
  from the loaded row, so two reschedules can mix into a row of length zero
  (`StaleReschedulesEmptyRow`). The calls of an interleaving would all have
  succeeded alone, in the order of their commits and with the same results,
  exactly when at its commit each would still have passed its tests and no
  column it left out had changed (`RunRefinesServicesAloneExactlyWhenGuardsPass`).
  Callers can ensure this by opening no session on an appointment that another
  open session works on (`OneSessionPerRowPassesGuards`).
- `core/config.py:43-45` says that every reminder instant is caught by exactly
  one tick. With the window as wide as the interval this holds exactly when
  consecutive ticks are exactly one interval apart
  (`CaughtOnceExactlyByPunctualTicks`): a late tick misses starts
  (`NothingMissedExactlyWithoutLateTicks`), an early one meets some twice
  (`EarlyTickCatchesTwice`). The log guard makes it one log at most in any case.
- An approved payment record can lose its approval: a later webhook delivery
  with another status overwrites it (`ApprovalLostExactlyByDelivery`,
  `SomeRunLosesAnApproval`).
- A client may be charged without a record: when a charge is approved at once and
  the confirmation cannot be sent, the whole call is rolled back, and the
  provider's deliveries then find no record
  (`ApprovedChargeLostExactlyWithItsConfirmation`, `SomeRunLosesACharge`).
- A charge for the whole price need not be typed as full
  (`PartialChargeCanBeThePrice`). Asking for the price and being typed as full
  mean the same exactly for fixed amounts other than the price and for
  percentages that are 100 or do not round to the price (`FullTypeMeansPriceExactlyWhen`).
- The shared refresh is per tab while the token store is shared by all tabs: no
  refresh is ever rejected exactly when there is at most one tab
  (`NoRejectionExactlyWithOneTab`, `TwoTabsRejectOneRefresh`), or when tabs take
  turns (`OneRefreshAtATime`).

## Model

| member | source | states |
|---|---|---|
| Calendar.QueryEqualsConstraint | backend/src/app/services/appointment_service.py:37-74 | for an active row version of positive length, self excluded, the slot query answers "taken" exactly when the exclusion constraints reject the write |
| Calendar.QueryErrsOnEmptyRangesOnly | backend/src/app/services/appointment_service.py:56-74 | why lengths must be positive: on any table the query finds whatever the constraints reject, and errs exactly when all it finds are crossings with an empty range, of the employee or of the room |
| Calendar.OverlapsMeansSharedMinute | backend/alembic/versions/0001_initial_schema.py:288-295 | ranges overlap exactly when some minute lies in both half-open intervals |
| Calendar.WeekdaysFollow | backend/src/app/services/booking_service.py:113-114 | day 1 is a Monday and weekdays follow each other, as the calendar counts them |
| Calendar.ExclusionMeansNoDoubleBooking | backend/alembic/versions/0001_initial_schema.py:288-303 | under the two constraints no minute lies in two active rows of one employee or of one room of a tenant |
| Calendar.AdmittedWriteKeepsExclusion | backend/alembic/versions/0001_initial_schema.py:288-303 | checking the one row an INSERT or UPDATE writes keeps both constraints of the whole table |
| Interleaving.EveryRunIsSafe | backend/src/app/services/appointment_service.py:163-201 | for any number of sessions and any interleaving of reads, flushes, commits and rollbacks, however stale the reads and whichever columns an UPDATE leaves out, the committed rows satisfy both constraints and no flushed row clashes with any other |
| Interleaving.NoDoubleBookingEver | backend/alembic/versions/0001_initial_schema.py:283-303 | from the empty table on, no interleaving ever commits two active rows of one employee or room that share a minute |
| Interleaving.FlushIsSafe | backend/src/app/services/appointment_service.py:197-201 | a flush that neither waits nor fails clashes with no committed and no other uncommitted row version |
| Interleaving.RunRefinesSerialWrites | backend/src/app/services/appointment_service.py:327-344 | the statements of any interleaving, in commit order, are a serial run of atomic "write if free" steps that all succeed and end in the same rows |
| Interleaving.CommittedCallSucceedsAlone | backend/src/app/services/appointment_service.py:320-344 | at its place in the commit order a call would also have succeeded alone, with the same result, exactly if its status test and slot query still pass there and no column its UPDATE left out has changed |
| Interleaving.CreateSucceedsAlone | backend/src/app/services/appointment_service.py:163-201 | while all rows have a positive length, a committed create would always have succeeded alone |
| Interleaving.RunRefinesServicesAloneExactlyWhenGuardsPass | backend/src/app/services/appointment_service.py:163-201 | the calls of any interleaving, run alone in commit order, all succeed and reach the same rows at each commit if and only if that holds at each commit |
| Interleaving.OneSessionPerRowPassesGuards | backend/src/app/services/appointment_service.py:232-248 | while no session opens on an appointment that another open session works on, it does hold at each commit, and every row keeps a positive length |
| Interleaving.StaleRescheduleCommits | backend/src/app/services/appointment_service.py:320-356 | for every pending row there is a run in which a reschedule commits although the row was cancelled in between |
| Interleaving.StaleConfirmationRevivesRow | backend/src/app/services/appointment_service.py:232-248 | for every pending row there is a run in which a confirmation commits over a committed cancellation |
| Interleaving.StaleReschedulesEmptyRow | backend/src/app/services/appointment_service.py:338-341 | for every pending row there is a run in which two reschedules, computed with different service durations, leave it with length zero |
| Interleaving.ConflictIsJustified | backend/src/app/services/appointment_service.py:163-166 | every "slot taken" answer has a committed active row that holds the employee or room and crosses the time refused, at the flush overlaps it, or the new id is taken |
| Interleaving.SomeSessionCanStep | backend/src/app/services/appointment_service.py:197-213 | about the step rule only: sessions that wait for one another under it never lock up, while some are open one can step |
| Interleaving.SoloSessionIsServiceAlone | backend/src/app/services/appointment_service.py:134-214 | a session that has the database to itself ends, step by step, with exactly what its call run alone is specified to do: committed, or failed with the rows as they were |
| SerialJobs.CreateIsBook | backend/src/app/services/appointment_service.py:147-196 | a create run alone, its message sent, succeeds and writes exactly as its interleaved job alone does |
| SerialJobs.RescheduleIsMove | backend/src/app/services/appointment_service.py:320-356 | the same for a reschedule |
| SerialJobs.TransitionIsMark | backend/src/app/services/appointment_service.py:232-249 | the same for a status change |
| Runs.EveryRunKeeps | backend/src/app/services/appointment_service.py:29-34 | every serial run of all service calls keeps slots disjoint, lengths positive, no-show only on cancelled rows, histories paths, notification counts equal to history entries, and approved payments off pending appointments |
| Runs.HistoriesArePaths | backend/src/app/services/appointment_service.py:29-34 | in every run an appointment's history starts from nothing to PENDING or CONFIRMED, each entry continues the previous one along an allowed transition, the last one is the row's status, there are at most three, and RESCHEDULED is never reached |
| Runs.NotificationsMatchHistory | backend/src/app/services/notification_service.py:89-114 | in every run confirmation and cancellation logs equal the entries into CONFIRMED and CANCELLED, at most one each, and a cancellation log exists exactly when the row is cancelled |
| Runs.RescheduleLogsCountMoves | backend/src/app/services/appointment_service.py:346-356 | in every run an appointment has one reschedule log per successful reschedule |
| Runs.BookingIsARun | backend/src/app/services/booking_service.py:189-228 | the state a public booking commits, failed or not, is the state after the run of its committed units, so all results about runs hold of bookings |
| Runs.FailedPlacementChangesNothing | backend/src/app/services/booking_service.py:186-203 | a booking that fails before its first commit leaves nothing behind, no client either |
| Invariant.PathsAreShort | backend/src/app/services/appointment_service.py:29-34 | a path of the transition graph has at most three entries, enters no status twice and never ends in RESCHEDULED |
| Invariant.CancelKeeps | backend/src/app/services/appointment_service.py:286-302 | a cancellation with its notification and its promotion keeps the whole invariant |
| Invariant.RescheduleKeeps | backend/src/app/services/appointment_service.py:320-356 | a reschedule keeps the whole invariant |
| Invariant.SettleKeeps | backend/src/app/services/payment_service.py:105-118 | writing a payment status and confirming on approval keeps the whole invariant |
| Invariant.RemindKeepsLogs | backend/src/app/workers/reminders.py:68-87 | a reminder round keeps every count, so no reminder of a type is logged twice |
| Failures.NoUncaughtIntegrityError | backend/src/app/services/appointment_service.py:237-249 | in a state of a run no call with fresh ids, nor a joining that names existing rows, dies of a database error that nothing catches, messages failing or not |
| Failures.CreateSucceedsExactlyWhenAdmitted | backend/src/app/services/appointment_service.py:156-213 | alone, a create whose references exist succeeds exactly when the constraints admit its row and, for staff, the confirmation can be sent; its error tells which |
| Failures.RescheduleSucceedsExactlyWhenAdmitted | backend/src/app/services/appointment_service.py:320-356 | alone, a reschedule of a live row succeeds exactly when the constraints admit its new times and its notification can be sent |
| Failures.LateBookingFailureIsAClient | backend/src/app/services/booking_service.py:189-228 | once its placement is committed, a booking fails if and only if a payment call it makes fails or the confirmation it must send cannot be sent, case by case; the deposit amount in particular is always defined |
| Failures.ClientStep | backend/src/app/services/booking_service.py:145-157 | in any state any call but manual entry leaves the number of clients with a phone, or a booking takes it from none to one |
| Failures.OneClientPerPhone | backend/src/app/services/booking_service.py:145-157 | in every run the clients with a phone are those entered by hand plus at most one added by a booking |
| Outcomes.CreateOutcome | backend/src/app/services/appointment_service.py:147-214 | a create needs its references (else not found) and a free slot of employee and, if the service uses one, room (else conflict); it leaves exactly the row asked for: end by the service's duration, room only if the service uses one, CONFIRMED with a message for staff, PENDING otherwise |
| Outcomes.RoomIsNotShared | backend/src/app/services/appointment_service.py:149-166 | two successful creates of room services that ask for the same room never share a minute |
| Outcomes.ConfirmOutcome | backend/src/app/services/appointment_service.py:252-266 | confirm succeeds exactly on a PENDING row of the tenant and leaves it CONFIRMED with its history entry and message; every other existing row is a conflict |
| Outcomes.CompleteOutcome | backend/src/app/services/appointment_service.py:269-275 | complete succeeds exactly on a CONFIRMED row and sends nothing |
| Outcomes.CancelOutcome | backend/src/app/services/appointment_service.py:278-302 | cancel succeeds exactly on a PENDING or CONFIRMED row, sets the no-show flag if asked, and promotes and tells the oldest waiting entry for that service, employee and time, if there is one |
| Outcomes.RescheduleOutcome | backend/src/app/services/appointment_service.py:320-356 | reschedule succeeds exactly on a PENDING or CONFIRMED row whose new slot no other row holds, and changes its two times only |
| Outcomes.HistoryShapes | backend/src/app/services/appointment_service.py:29-34 | in every run the statuses an appointment went through are one of eight lists |
| Outcomes.ChargeLeavesItsTerms | backend/src/app/services/payment_service.py:40-101 | an answered charge leaves a record of this tenant and appointment, with the fixed amount or the nearest-even cent of the percentage, full only for 100%, paid exactly if approved, and confirms a pending appointment on approval, unless its message is lost |
| Outcomes.PollLeaves | backend/src/app/services/payment_service.py:121-140 | a poll asks only for an unpaid record of the tenant with a reference (else nothing changes), and records the answer, confirming a pending appointment on approval |
| Outcomes.DeliveryLeaves | backend/src/app/services/payment_service.py:143-171 | a delivery with the record's reference does the same whatever the record's status was |
| Outcomes.RecordsKeepTheirTerms | backend/src/app/services/payment_service.py:105-140 | no call changes a record's tenant, appointment, amount or type, and paid is never taken back |
| Outcomes.TermsLast | backend/src/app/services/payment_service.py:68-85 | so they last over every continuation of every run |
| Outcomes.PlacementOutcome | backend/src/app/services/booking_service.py:173-203 | a public booking with new ids is placed exactly if company, active service and active employee offer it (else not found), the employee is free and a usable room is left (else conflict) |
| Outcomes.PlacementLeaves | backend/src/app/services/booking_service.py:145-203 | a placed booking's row names the first client with that phone, added if there was none, and the first active room unused at the time |
| Outcomes.PlacedRoomIsBusy | backend/src/app/services/booking_service.py:90-97 | the room of a placed booking is taken at its time |
| Outcomes.BookingEnds | backend/src/app/services/booking_service.py:189-249 | where a successful booking stands: CONFIRMED by automatic confirmation or an approved deposit, PENDING otherwise, the record with its terms and the provider's last answer |
| Outcomes.JoinOutcome | backend/src/app/services/waitlist_service.py:15-36 | joining adds a waiting entry with the given data exactly if its references exist and its id is new |
| Outcomes.LeaveOutcome | backend/src/app/services/waitlist_service.py:43-48 | leaving withdraws the tenant's entry with that id and no other |
| Outcomes.UpdateServiceOutcome | backend/src/app/services/catalog_service.py:33-42 | an update sets the given fields only, exactly if the result has a positive duration and complete deposit fields |
| Waitlist.PromotionIsFair | backend/src/app/repositories/waitlist_repository.py:23-37 | the promoted entry fits the freed slot and no older waiting entry does |
| Waitlist.NobodyIsPassedOver | backend/src/app/services/waitlist_service.py:65-72 | when a waiting entry fits the freed slot, one at least as old is promoted |
| Waitlist.CancellationPromotes | backend/src/app/services/waitlist_service.py:65-92 | a successful cancellation promotes the next in line and adds its one promotion log, or changes nothing of the waitlist |
| Waitlist.EntryPromotedAtMostOnce | backend/src/app/services/waitlist_service.py:74-75 | in every run each entry is promoted at most once, never before it stops waiting, exactly once if it stands as promoted |
| Waitlist.WaitsUntilPromotedOrWithdrawn | backend/src/app/services/waitlist_service.py:15-92 | in every run there is one entry per successful joining, and an entry still waits exactly when no call promoted or withdrew it |
| Waitlist.CancelledRowsCountCancellations | backend/src/app/services/appointment_service.py:286-302 | in every run the cancelled rows are as many as the successful cancellations |
| Waitlist.PromotionsNeverExceedCancellations | backend/src/app/services/appointment_service.py:298-300 | in every run the entries that stand as promoted are at most as many as the cancelled rows |
| Waitlist.EntriesStayDistinct | backend/src/app/services/waitlist_service.py:15-36 | in every run the ids of the waitlist are distinct, which the promotion step relies on |
| Waitlist.PromotionLogsCountPromotions | backend/src/app/services/waitlist_service.py:77-92 | in every run a client's promotion logs equal the promotions of its entries |
| Ledger.OldestMatch | backend/src/app/repositories/waitlist_repository.py:23-37 | a waiting match with the least creation time, none exactly if nothing matches |
| Ledger.FirstFreeRoomIsFirst | backend/src/app/services/booking_service.py:90-97 | the room used is the first active room, in table order, without a conflict; there is none exactly if every active room has one |
| Reminders.RemindedExactlyWhenCaught | backend/src/app/workers/reminders.py:62-89 | in every run, whatever ticks, failing scans and reschedules it mixes, an appointment has one log of a reminder type if some successful scan found it confirmed and due, and none otherwise |
| Reminders.RemindedExactlyOnce | backend/src/app/workers/reminders.py:68-71 | successful scans without a late tick that find the appointment confirmed at one start in their range leave exactly one log of the type |
| Reminders.CaughtOnceExactlyByPunctualTicks | backend/src/app/core/config.py:43-46 | ticks in time order catch every start in their range exactly once if and only if consecutive ones are exactly one interval apart |
| Reminders.NothingMissedExactlyWithoutLateTicks | backend/src/app/core/config.py:43-46 | they catch every start at least once if and only if consecutive ones are at most one interval apart |
| Reminders.EarlyTickCatchesTwice | backend/src/app/workers/reminders.py:68-71 | two ticks less than one interval apart both catch the start at which the second one's window opens |
| Reminders.ScanStep | backend/src/app/services/notification_service.py:89-95 | one scan logs a reminder exactly if the row is due and had none of the type |
| Reminders.ScanStepInMinutes | backend/src/app/workers/reminders.py:39-71 | in minutes: a scan reminds of a confirmed row that starts from 1440, or from 120, to less than 5 minutes more from now |
| Reminders.ScanSucceedsExactlyWhenSent | backend/src/app/workers/reminders.py:68-89 | a scan logs all its new reminders if each of them can be sent, and none otherwise |
| PaymentRuns.ApprovedMeansNotPending | backend/src/app/services/payment_service.py:113-118 | in every run an approved record is paid and its appointment is not pending |
| PaymentRuns.PollLeavesSettledRecords | backend/src/app/services/payment_service.py:133-140 | a poll alters no record but the polled one, and that one only while it is pending |
| PaymentRuns.DeliveryLandsOnItsRecord | backend/src/app/services/payment_service.py:157-171 | a delivery with the reference built at charge creation changes that tenant's record alone, and confirms its appointment exactly when it approves a pending one; it fails, changing nothing, exactly when that confirmation cannot be sent |
| PaymentRuns.StrayDeliveryIsIgnored | backend/src/app/services/payment_service.py:166-168 | a reference to no record of its tenant changes nothing |
| PaymentRuns.RepeatedDeliveryChangesNothing | backend/src/app/services/payment_service.py:164-171 | once a delivery went through, a repeat succeeds and leaves every table, logs included, whatever messages cannot be sent by then |
| PaymentRuns.ApprovalLostExactlyByDelivery | backend/src/app/services/payment_service.py:105-111 | one call takes an approval away exactly if it is a delivery for that record with another status |
| PaymentRuns.SomeRunLosesAnApproval | backend/src/app/services/payment_service.py:105-111 | a run from the empty database in which a record approved at its charge is rejected by a later delivery |
| PaymentRuns.ChargeOutcome | backend/src/app/services/payment_service.py:84-101 | a charge the provider answers leaves its record and confirms on approval, unless its confirmation cannot be sent |
| PaymentRuns.ApprovedChargeLostExactlyWithItsConfirmation | backend/src/app/services/payment_service.py:84-101 | a charge the provider took leaves no record exactly when it is approved at once, the appointment pending and the confirmation lost; later deliveries are then ignored |
| PaymentRuns.SomeRunLosesACharge | backend/src/app/services/payment_service.py:84-101 | a run from the empty database in which the approved deposit of a pending visit leaves no record, and the delivery that follows is ignored |
| References.ReferenceRoundTrip | backend/src/app/services/payment_service.py:157-162 | parsing the external reference of a charge gives back its tenant and record |
| References.TokenTenantRoundTrip | backend/src/app/core/security.py:72-83 | a refresh token names the tenant it was issued for, whatever its secret |
| References.ParseUuidExactly | backend/src/app/services/payment_service.py:157-162 | a UUID text is accepted exactly if 32 hexadecimal digits remain without its dashes |
| References.SplitAtDotExactly | backend/src/app/core/security.py:72-83 | a text is cut at its first dot, and not cut exactly if it has none |
| Deposits.RoundingIsNearestEven | backend/src/app/services/payment_service.py:43-44 | the rounded amount is the nearest cent, the even one of two, and it is the only such amount |
| Deposits.PercentageAmountIsMonotone | backend/src/app/services/payment_service.py:43-44 | the amount is monotone in price and percentage |
| Deposits.PercentageStaysBelowPrice | backend/src/app/services/payment_service.py:43-44 | a percentage of at most 100 never asks for more than the price |
| Deposits.FullChargeIsThePrice | backend/src/app/services/payment_service.py:64-65 | a charge typed as full asks for exactly the price |
| Deposits.PartialChargeCanBeThePrice | backend/src/app/services/payment_service.py:64-65 | a charge typed as partial can also ask for the whole price |
| Deposits.PercentageAmountIsThePriceExactlyWhen | backend/src/app/services/payment_service.py:43-44 | a percentage asks for exactly the price if and only if its distance from 100% is worth at most half a cent, ties to even |
| Deposits.FullTypeMeansPriceExactlyWhen | backend/src/app/services/payment_service.py:40-65 | for every policy, value and price: the amount is the price exactly if the charge is typed as full, if and only if there is no policy, a fixed amount is not the price, or a percentage is 100 or does not round to the price |
| Runs.UpdateServiceKeeps | backend/src/app/services/catalog_service.py:33-42 | a service update keeps the deposit fields complete and the duration positive, and with them the whole invariant |
| Sessions.LookupsUnderPolicy | backend/alembic/versions/0001_initial_schema.py:478-487 | under its own setting a tenant's lookups answer as on the whole tables, under any other they find nothing |
| Sessions.ListsUnderPolicy | backend/alembic/versions/0001_initial_schema.py:478-487 | the same for the existence of a client or a room |
| Sessions.SlotQueryUnderPolicy | backend/alembic/versions/0001_initial_schema.py:478-487 | under its own setting the slot query sees every clashing row; under another it would find every slot free |
| Sessions.OldestUnderPolicy | backend/alembic/versions/0001_initial_schema.py:478-487 | the oldest match found through the policy is the oldest of the whole waitlist under its own setting, none under another |
| Sessions.OwnFirstFreeRoom | backend/src/app/services/booking_service.py:90-97 | the rooms the policy lists decide the choice of room as all rooms would |
| Sessions.Session.Flush | backend/src/app/services/appointment_service.py:197-201 | a flush, under the setting of the tenant of every staged row, writes them all if the database accepts each in turn, and changes nothing otherwise |
| Sessions.Session.FlushOrRollback | backend/src/app/services/appointment_service.py:340-344 | a refused flush ends the transaction and drops all it did |
| Sessions.Session.Commit | backend/src/app/core/database.py:27-48 | commit flushes, publishes the transaction and drops the setting; without a setting it is allowed only if nothing is staged |
| Services.Create | backend/src/app/services/appointment_service.py:134-214 | create commits exactly the specified state or fails and commits nothing, reading through the row policy |
| Services.MoveStatus | backend/src/app/services/appointment_service.py:217-249 | the transition of a loaded row, which may carry changes in memory, equals the specified one |
| Services.ConfirmAppointment | backend/src/app/services/appointment_service.py:252-266 | confirm commits exactly the specified state or nothing |
| Services.CompleteAppointment | backend/src/app/services/appointment_service.py:269-275 | complete commits exactly the specified state or nothing |
| Services.CancelAppointment | backend/src/app/services/appointment_service.py:278-302 | cancel commits exactly the specified state or nothing, although the no-show flag is set before the status test |
| Services.RescheduleAppointment | backend/src/app/services/appointment_service.py:305-356 | reschedule commits exactly the outcome defined by its cases or nothing |
| Services.MovingIsDelivered | backend/src/app/services/appointment_service.py:320-356 | those cases are the specified reschedule, its message considered |
| Services.SendNotification | backend/src/app/services/notification_service.py:66-114 | adds one log once the message is sent, nothing if it cannot be sent, and skips a reminder already logged for the appointment |
| Services.PromoteNextMatch | backend/src/app/services/waitlist_service.py:51-92 | promotes the oldest match and notifies its client, or changes nothing |
| Services.Join | backend/src/app/services/waitlist_service.py:15-36 | adds a waiting entry and commits; an entry naming an unknown client, service or employee fails, uncaught, on its foreign keys |
| Services.CancelEntry | backend/src/app/services/waitlist_service.py:43-48 | withdraws the tenant's entry and commits, or fails |
| BookingServices.ChargeDeposit | backend/src/app/services/payment_service.py:48-102 | commits the specified charge, whose record ChargeLeavesItsTerms describes, with nothing left to flush at the second commit |
| BookingServices.ApplyAndMaybeConfirm | backend/src/app/services/payment_service.py:105-118 | writes a status and confirms a pending appointment on approval |
| BookingServices.RefreshStatus | backend/src/app/services/payment_service.py:121-140 | polls a pending record with a reference and leaves any other alone |
| BookingServices.HandleWebhook | backend/src/app/services/payment_service.py:143-171 | a delivery commits exactly the specified state, its record read under the setting of the tenant it names |
| BookingServices.CheckCapacity | backend/src/app/services/booking_service.py:64-97 | the room loop finds what the specification says: free or not, and the first free room |
| BookingServices.FindOrAddClient | backend/src/app/services/booking_service.py:145-157 | reuses the first client of that phone, or adds one inside the open transaction |
| BookingServices.PlaceBookingOn | backend/src/app/services/booking_service.py:173-203 | client and appointment commit together or not at all |
| BookingServices.GetBookingStatus | backend/src/app/services/booking_service.py:231-249 | polls one payment of the appointment if it has any, is back under its tenant afterwards, and reports the status the store has then |
| BookingServices.Book | backend/src/app/services/booking_service.py:160-228 | the whole booking commits exactly the specified state, also when it fails late, though each commit inside drops the setting its next read needs |
| BookingServices.ScanTenant | backend/src/app/workers/reminders.py:62-89 | one tick commits exactly the specified logs, in whatever order the due rows come, or none if a reminder cannot be sent |
| BookingServices.RemindersGrow | backend/src/app/services/notification_service.py:89-114 | within a scan the log guard is blind to the reminders just sent to other rows |
| Availability.ComputeAvailability | backend/src/app/services/booking_service.py:100-142 | the picker returns, window by window, the specified offers of the day, and a start is among them exactly as PickerOutcome says |
| Availability.PickerOutcome | backend/src/app/services/booking_service.py:118-142 | in local minutes of the day, the start shifted by the company's offset: offered exactly if it lies ahead, some window of that weekday holds it and its end, it is a multiple of 15 minutes after the opening, and employee and, if needed, some room are free |
| Availability.WalkWindow | backend/src/app/services/booking_service.py:124-141 | the walk over one window returns its specified offers |
| Availability.OfferedIsTheFreeGrid | backend/src/app/services/booking_service.py:122-142 | a start is offered exactly when it lies on the 15-minute grid of a window of the day, ends inside the window, lies ahead and has capacity |
| Availability.OfferedFromAscends | backend/src/app/services/booking_service.py:126-141 | within a window the offers strictly ascend |
| Availability.CapacityMeansAdmitted | backend/src/app/services/booking_service.py:82-97 | "free" holds exactly when the constraints admit the row, in some active room if the service needs one, and the room chosen is admitted |
| Availability.CapacityDecidesPlacement | backend/src/app/services/booking_service.py:177-203 | a booking whose references exist is placed exactly when there is capacity; the second check in the write path never disagrees |
| Availability.OfferedExactlyWhenBookable | backend/src/app/services/booking_service.py:118-142 | on one state the picker offers a start exactly when it is on the day's grid, lies ahead and booking it succeeds |
| Availability.BookedStartIsTaken | backend/src/app/services/booking_service.py:189-203 | after a booking its start is taken for that employee, whatever the service |
| Dashboard.AvailableMinutes | backend/src/app/services/dashboard_service.py:13-32 | the nested loop computes the day-by-day sum; an empty or reversed range has none |
| Dashboard.MinutesWindowByWindow | backend/src/app/services/dashboard_service.py:26-31 | each window adds its length on its weekday and nothing on others |
| Dashboard.OpenMinutesClosedForm | backend/src/app/services/dashboard_service.py:22-31 | the day-by-day sum equals the sum over windows of length times the number of that weekday in the range |
| Dashboard.OpenMinutesAddUp | backend/src/app/services/dashboard_service.py:22-31 | capacities of adjacent ranges add up |
| Dashboard.CapacityIgnoresOrder | backend/src/app/services/dashboard_service.py:26-31 | the capacity does not depend on the order of the windows |
| Dashboard.RowsArePacked | backend/src/app/repositories/dashboard_repository.py:68-78 | active rows of one employee from a time on fit, in total length, between that time and the end of the last one |
| Dashboard.BookedMinutesPacked | backend/src/app/repositories/dashboard_repository.py:68-78 | in every run the booked minutes of a range are at most the sum, over the employees with rows in it, of the time from its start to the end of that employee's last row |
| Dashboard.BookedMinutesBounded | backend/src/app/repositories/dashboard_repository.py:68-78 | so they are at most, per employee with rows in the range, its length plus the longest of those rows |
| Dashboard.BookedRowByRow | backend/src/app/repositories/dashboard_repository.py:68-78 | each row adds its length to the booked minutes exactly if it starts in the range and is not cancelled |
| Dashboard.ProjectedRowsAreBookedRows | backend/src/app/services/dashboard_service.py:52-62 | in every run projected revenue and booked minutes range over the same rows |
| Dashboard.RevenueAddsUp | backend/src/app/repositories/dashboard_repository.py:33-45 | revenues of adjacent half-open ranges add up |
| Dashboard.RevenueRowByRow | backend/src/app/repositories/dashboard_repository.py:26-45 | each row adds the present price of its service exactly if it starts in the range in one of the given states |
| Dashboard.RealizedWithinProjected | backend/src/app/services/dashboard_service.py:52-57 | realized revenue never exceeds projected revenue |
| Tokens.OneLiveTokenPerLogin | backend/src/app/services/auth_service.py:83-86 | in every run the tokens descending from one login include at most one live one |
| Tokens.NoTokenAcceptedTwice | backend/src/app/services/auth_service.py:67-86 | in every run refresh accepts no token twice |
| Tokens.DeadTokensStayDead | backend/src/app/repositories/refresh_token_repository.py:13-24 | a revoked token stays revoked over any run and is refused |
| Tokens.LiveUntilEnded | backend/src/app/services/auth_service.py:83-100 | in every run an issued token is live exactly until it is traded by refresh, signed out while valid, or its user's password is reset |
| Tokens.AcceptedExactlyWhen | backend/src/app/services/auth_service.py:67-86 | in every run refresh accepts a text exactly when it was issued, nothing ended it, it has not expired, its user is active and the new secret is new |
| Tokens.LineageKeepsItsUser | backend/src/app/services/auth_service.py:83-86 | in every run all tokens of a login's chain belong to the user who logged in |
| Tokens.ResetEndsOldSessions | backend/src/app/services/auth_service.py:141-143 | after a reset no earlier token of the user is ever accepted |
| Tokens.ResetLinkWorksOnce | backend/src/app/core/security.py:133-139 | a reset link works at most once while no later reset restores its password hash |
| Tokens.ResetLinkReusableExactlyWhenHashRepeats | backend/src/app/services/auth_service.py:136-143 | right after its use an unexpired link works again exactly when the new hash equals the old one |
| Tokens.RowsUnderPolicy | backend/alembic/versions/0002_auth_support.py:55-63 | under its own setting a tenant finds its tokens and users as on the whole tables, under any other none |
| Tokens.LoginOutcome | backend/src/app/services/auth_service.py:52-64 | a login issues one token of 30 days exactly for an existing, active user with a verified password and a new secret |
| Tokens.RefreshOutcome | backend/src/app/services/auth_service.py:67-86 | refresh trades a good token of an active user for a new one of the same user and tenant, and refuses anything else |
| Tokens.LogoutOutcome | backend/src/app/services/auth_service.py:89-100 | logout revokes a good token and nothing else |
| Tokens.ResetOutcome | backend/src/app/services/auth_service.py:125-143 | a reset needs an unexpired link with the present password hash, and then sets the password and revokes exactly that user's tokens |
| Tokens.AuthStore.RefreshToken | backend/src/app/services/auth_service.py:67-86 | rotation, its rows read under the tenant the text names, commits exactly the specified tables: old token revoked, new one live, or nothing |
| Tokens.AuthStore.IssueTokenPair | backend/src/app/services/auth_service.py:36-49 | issuing commits the tokens of the transaction with the new one, or nothing |
| Tokens.AuthStore.SignIn | backend/src/app/services/auth_service.py:52-64 | a login with a verified password issues one token, any other none |
| Tokens.AuthStore.SignOut | backend/src/app/services/auth_service.py:89-100 | logout revokes a valid token and ignores any other |
| Tokens.AuthStore.RevokeAllForUser | backend/src/app/repositories/refresh_token_repository.py:26-35 | the loop revokes, once committed, all tokens of the user and touches no other |
| Tokens.AuthStore.Reset | backend/src/app/services/auth_service.py:125-143 | a reset changes the password and revokes all tokens, or changes nothing |
| SingleFlight.OneRefreshAtATime | frontend/src/lib/api.ts:16-46 | for any number of requests that meet a 401 in any interleaving, over any number of tabs that never start a refresh while another's is unsettled, there are never two refreshes in flight and none is rejected by rotation |
| SingleFlight.RefusedRefreshLogsOut | frontend/src/lib/api.ts:24-46 | a refused refresh, delivered and finished, clears the shared store and lets its waiting requests go |
| SingleFlight.AtMostOneRefreshPerRequest | frontend/src/lib/api.ts:67-78 | with any number of tabs and whatever the answers, at most one refresh goes out per request, because the repeated call never asks for another |
| SingleFlight.NoRejectionExactlyWithOneTab | frontend/src/lib/api.ts:16-46 | from open tabs on one store with a usable token, no interleaving rejects a refresh if and only if there is at most one tab |
| SingleFlight.TwoTabsRejectOneRefresh | frontend/src/lib/api.ts:20-46 | with two tabs or more there is an interleaving in which a refresh is rejected |

## Left out

- HTTP routes, request parsing, roles, pages and deployment: plumbing without a property of the schedule.
- Message texts, e-mail, WhatsApp and payment clients: a send succeeds and is logged or fails, an answer is a parameter; a message that was sent before its call failed is not recalled, nor counted here.
- Hashing and signing: a token stands for its hash and a stored password hash for its fingerprint, so collisions are outside the model; so are expiry of access tokens and the `iat` claim.
- Time zones with daylight saving: one constant offset per company is assumed, as dashboard_service.py:38-44 does.
- Times are whole minutes: seconds and microseconds would change no argument here, floating-point minutes and rates are not modelled.
- References.ReferenceRoundTrip: `uuid.UUID` also accepts braces and a URN prefix; the model's parser drops dashes only.
- Interleaving.EveryRunIsSafe: index locks and deadlock detection of the database are replaced by the rule that a flush waits for open sessions with clashing rows and fails on clashing committed ones; status histories, payments and the waitlist are claimed for serial runs only, because status writes carry no version check.
- Interleaving.SomeSessionCanStep: concurrent inserts under an exclusion constraint can deadlock in PostgreSQL; its deadlock detection ends one of them, which is a rollback step here.
- Runs.EveryRunKeeps: one service call is one atomic step there.
- BookingServices.Book: that service code reads tables through `Session.View` only is how these files are written; Dafny gives fields no privacy.
- SingleFlight.OneRefreshAtATime: assumes that answers arrive and that no expiry, logout or reset intervenes; of a repeated request only its 401 is modelled, not its result.
- Rooms, employees and companies are edited by arbitrary changes of their tables; services by their real update with its checks; clients are only added, an edit of a phone number is not modelled.
- `find_next_actionable_for_client`, `top_services`, `completed_and_no_show_counts` and the rates computed from them: single queries without a property of their own.
- Notes, channels, provider ids, QR codes, `changed_by` and timestamps of rows: no modelled decision reads them.
