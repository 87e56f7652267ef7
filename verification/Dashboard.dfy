/**
 The management dashboard: opening minutes of a date range, booked minutes
 and revenue, and how they relate to the schedule.
 */
module Dashboard {
  import opened Calendar
  import opened Ledger
  import opened Invariant
  import opened Runs

  // ----- opening minutes

  function MinutesOn(windows: seq<Window>, weekday: int): int {
    if windows == [] then 0
    else
      var w := windows[|windows| - 1];
      MinutesOn(windows[..|windows| - 1], weekday) + (if w.weekday == weekday then w.closes - w.opens else 0)
  }

  /** Opening minutes of n days from start on, day by day. */
  function OpenMinutes(windows: seq<Window>, start: int, n: nat): int {
    if n == 0 then 0 else OpenMinutes(windows, start, n - 1) + MinutesOn(windows, Weekday(start + n - 1))
  }

  /** The nested loop of the dashboard; an empty or reversed range has no minutes. */
  method AvailableMinutes(windows: seq<Window>, start: int, end: int) returns (total: int)
    ensures total == OpenMinutes(windows, start, if end > start then end - start else 0)
  {
    total := 0;
    var offset := 0;
    while offset < end - start
      invariant 0 <= offset && (offset > 0 ==> offset <= end - start)
      invariant total == OpenMinutes(windows, start, offset)
    {
      var weekday := Weekday(start + offset);
      ghost var before := total;
      for i := 0 to |windows|
        invariant total == before + MinutesOn(windows[..i], weekday)
      {
        assert windows[..i + 1][..i] == windows[..i];
        if windows[i].weekday == weekday {
          total := total + (windows[i].closes - windows[i].opens);
        }
      }
      assert windows[..|windows|] == windows;
      offset := offset + 1;
    }
  }

  /** How often a weekday falls into n days from start on. */
  function Occurrences(start: int, n: nat, weekday: int): nat {
    n / 7 + (if (weekday - Weekday(start)) % 7 < n % 7 then 1 else 0)
  }

  /** The closed form: each window's length times the number of its weekdays in the range. */
  function ClosedForm(windows: seq<Window>, start: int, n: nat): int {
    if windows == [] then 0
    else
      var w := windows[|windows| - 1];
      ClosedForm(windows[..|windows| - 1], start, n) + (w.closes - w.opens) * Occurrences(start, n, w.weekday)
  }

  predicate ValidWeekdays(windows: seq<Window>) {
    forall k :: 0 <= k < |windows| ==> 0 <= windows[k].weekday <= 6
  }

  lemma OneMoreWeekday(start: int, n: nat)
    ensures Weekday(start + n) == (Weekday(start) + n % 7) % 7
  {
  }

  lemma DayOfWeekday(first: int, r: int, weekday: int)
    requires 0 <= first <= 6 && 0 <= r <= 6 && 0 <= weekday <= 6
    ensures (first + r) % 7 == weekday <==> (weekday - first) % 7 == r
  {
  }

  lemma OneMoreDay(start: int, n: nat, weekday: int)
    requires 0 <= weekday <= 6
    ensures Occurrences(start, n + 1, weekday) ==
              Occurrences(start, n, weekday) + (if Weekday(start + n) == weekday then 1 else 0)
  {
    OneMoreWeekday(start, n);
    DayOfWeekday(Weekday(start), n % 7, weekday);
    var r := n % 7;
    assert (n + 1) / 7 == (if r == 6 then n / 7 + 1 else n / 7);
    assert (n + 1) % 7 == (if r == 6 then 0 else r + 1);
  }

  /** One more day adds a window's length if it is the window's weekday. */
  lemma WindowOneMoreDay(w: Window, start: int, n: nat)
    requires 0 <= w.weekday <= 6
    ensures (w.closes - w.opens) * Occurrences(start, n + 1, w.weekday) ==
              (w.closes - w.opens) * Occurrences(start, n, w.weekday) +
              (if w.weekday == Weekday(start + n) then w.closes - w.opens else 0)
  {
    OneMoreDay(start, n, w.weekday);
    OneMoreShare(Occurrences(start, n, w.weekday), w.closes - w.opens, Occurrences(start, n, w.weekday) + 1);
  }

  lemma {:induction false} ClosedFormOneMoreDay(windows: seq<Window>, start: int, n: nat)
    requires ValidWeekdays(windows)
    ensures ClosedForm(windows, start, n + 1) == ClosedForm(windows, start, n) + MinutesOn(windows, Weekday(start + n))
    decreases |windows|
  {
    if windows != [] {
      ClosedFormOneMoreDay(windows[..|windows| - 1], start, n);
      WindowOneMoreDay(windows[|windows| - 1], start, n);
    }
  }

  lemma {:induction false} ClosedFormOfNothing(windows: seq<Window>, start: int)
    ensures ClosedForm(windows, start, 0) == 0
    decreases |windows|
  {
    if windows != [] { ClosedFormOfNothing(windows[..|windows| - 1], start); }
  }

  /** The day-by-day sum equals the closed form. */
  lemma {:induction false} OpenMinutesClosedForm(windows: seq<Window>, start: int, n: nat)
    requires ValidWeekdays(windows)
    ensures OpenMinutes(windows, start, n) == ClosedForm(windows, start, n)
  {
    if n == 0 {
      ClosedFormOfNothing(windows, start);
    } else {
      OpenMinutesClosedForm(windows, start, n - 1);
      ClosedFormOneMoreDay(windows, start, n - 1);
    }
  }

  /** Capacities of adjacent ranges add up. */
  lemma {:induction false} OpenMinutesAddUp(windows: seq<Window>, start: int, m: nat, n: nat)
    ensures OpenMinutes(windows, start, m + n) == OpenMinutes(windows, start, m) + OpenMinutes(windows, start + m, n)
    decreases n
  {
    if n > 0 {
      OpenMinutesAddUp(windows, start, m, n - 1);
      assert OpenMinutes(windows, start, m + n) ==
             OpenMinutes(windows, start, m + (n - 1)) + MinutesOn(windows, Weekday(start + m + n - 1));
    }
  }

  /** MinutesOn counts each window by its multiplicity only. */
  lemma {:induction false} TakeOneOut(windows: seq<Window>, k: nat, weekday: int)
    requires k < |windows|
    ensures MinutesOn(windows, weekday) ==
              MinutesOn(windows[..k] + windows[k + 1..], weekday) +
              (if windows[k].weekday == weekday then windows[k].closes - windows[k].opens else 0)
    decreases |windows|
  {
    var rest := windows[..k] + windows[k + 1..];
    if k == |windows| - 1 {
      assert rest == windows[..k];
    } else {
      var shorter := windows[..|windows| - 1];
      TakeOneOut(shorter, k, weekday);
      assert rest[..|rest| - 1] == shorter[..k] + shorter[k + 1..];
    }
  }

  /** The last window of one list stands somewhere in the other, and without it the lists still agree. */
  lemma SamePlace(a: seq<Window>, b: seq<Window>) returns (k: nat)
    requires multiset(a) == multiset(b) && a != []
    ensures k < |b| && b[k] == a[|a| - 1]
    ensures multiset(a[..|a| - 1]) == multiset(b[..k] + b[k + 1..])
  {
    var w := a[|a| - 1];
    assert w in multiset(a);
    k :| 0 <= k < |b| && b[k] == w;
    assert b == b[..k] + [w] + b[k + 1..];
    assert a == a[..|a| - 1] + [w];
    assert multiset(b[..k] + b[k + 1..]) == multiset(b) - multiset{w};
    assert multiset(a[..|a| - 1]) == multiset(a) - multiset{w};
  }

  lemma {:induction false} OrderOfWindowsIsIrrelevant(a: seq<Window>, b: seq<Window>, weekday: int)
    requires multiset(a) == multiset(b)
    ensures MinutesOn(a, weekday) == MinutesOn(b, weekday)
    decreases |a|
  {
    if a == [] {
      assert multiset(b) == multiset{};
      assert |b| == |multiset(b)|;
    } else {
      var k := SamePlace(a, b);
      OrderOfWindowsIsIrrelevant(a[..|a| - 1], b[..k] + b[k + 1..], weekday);
      TakeOneOut(b, k, weekday);
    }
  }

  /** The capacity of a range does not depend on the order of the windows. */
  lemma {:induction false} CapacityIgnoresOrder(a: seq<Window>, b: seq<Window>, start: int, n: nat)
    requires multiset(a) == multiset(b)
    ensures OpenMinutes(a, start, n) == OpenMinutes(b, start, n)
  {
    if n > 0 {
      CapacityIgnoresOrder(a, b, start, n - 1);
      OrderOfWindowsIsIrrelevant(a, b, Weekday(start + n - 1));
    }
  }

  // ----- sums over rows

  /** SUM over a set of rows. */
  ghost function Sum(ids: set<Id>, value: map<Id, int>): int
    requires ids <= value.Keys
  {
    if ids == {} then 0 else var id :| id in ids; value[id] + Sum(ids - {id}, value)
  }

  lemma {:induction false} SumTakeOut(ids: set<Id>, value: map<Id, int>, id: Id)
    requires ids <= value.Keys && id in ids
    ensures Sum(ids, value) == value[id] + Sum(ids - {id}, value)
    decreases ids
  {
    var first :| first in ids && Sum(ids, value) == value[first] + Sum(ids - {first}, value);
    if first != id {
      SumTakeOut(ids - {first}, value, id);
      SumTakeOut(ids - {id}, value, first);
      assert ids - {first} - {id} == ids - {id} - {first};
    }
  }

  lemma {:induction false} SumSplits(a: set<Id>, b: set<Id>, value: map<Id, int>)
    requires a !! b && a + b <= value.Keys
    ensures Sum(a + b, value) == Sum(a, value) + Sum(b, value)
    decreases a
  {
    if a == {} {
      assert a + b == b;
    } else {
      var id :| id in a;
      SumTakeOut(a, value, id);
      SumTakeOut(a + b, value, id);
      assert a + b - {id} == (a - {id}) + b;
      SumSplits(a - {id}, b, value);
    }
  }

  lemma {:induction false} SumNonNegative(ids: set<Id>, value: map<Id, int>)
    requires ids <= value.Keys && forall id :: id in ids ==> value[id] >= 0
    ensures Sum(ids, value) >= 0
    decreases ids
  {
    if ids != {} {
      var id :| id in ids;
      SumTakeOut(ids, value, id);
      SumNonNegative(ids - {id}, value);
    }
  }

  // ----- booked minutes

  function Lengths(appts: Appts): map<Id, int> {
    map id | id in appts :: appts[id].ends - appts[id].starts
  }

  /** Rows that count as booked time. */
  function BookedRows(appts: Appts, tenant: Id, start: int, end: int): set<Id> {
    set id | id in appts && appts[id].tenant == tenant && start <= appts[id].starts < end &&
        appts[id].status != Cancelled
  }

  ghost function BookedMinutes(appts: Appts, tenant: Id, start: int, end: int): int {
    Sum(BookedRows(appts, tenant, start, end), Lengths(appts))
  }

  predicate OneCalendar(appts: Appts, ids: set<Id>, tenant: Id, employee: Id, start: int) {
    forall id :: id in ids ==>
      id in appts && appts[id].tenant == tenant && appts[id].employee == employee && Active(appts[id]) &&
          appts[id].starts >= start
  }

  lemma {:induction false} LatestRow(appts: Appts, ids: set<Id>) returns (last: Id)
    requires ids != {} && ids <= appts.Keys
    ensures last in ids && forall id :: id in ids ==> appts[id].starts <= appts[last].starts
    decreases ids
  {
    last :| last in ids;
    if ids != {last} {
      var other := LatestRow(appts, ids - {last});
      if appts[other].starts > appts[last].starts { last := other; }
    }
  }

  /** Rows of one employee are packed: their total length fits between the range's start and the end of the last one. */
  lemma {:induction false} RowsArePacked(appts: Appts, ids: set<Id>, tenant: Id, employee: Id, start: int)
    returns (last: Id)
    requires ExclusionHolds(appts) && PositiveLengths(appts)
    requires ids != {} && OneCalendar(appts, ids, tenant, employee, start)
    ensures last in ids && ids <= appts.Keys
    ensures Sum(ids, Lengths(appts)) <= appts[last].ends - start
    ensures forall id :: id in ids && id != last ==> appts[id].ends <= appts[last].starts
    decreases ids
  {
    last := LatestRow(appts, ids);
    var rest := ids - {last};
    SumTakeOut(ids, Lengths(appts), last);
    forall id | id in ids && id != last ensures appts[id].ends <= appts[last].starts {
      assert !Clash(appts[id], appts[last]);
    }
    if rest != {} {
      var before := RowsArePacked(appts, rest, tenant, employee, start);
    } else {
      assert Sum(rest, Lengths(appts)) == 0;
    }
  }

  /** The rows of one employee among the booked ones. */
  function RowsOf(appts: Appts, ids: set<Id>, employee: Id): set<Id> {
    set id | id in ids && id in appts && appts[id].employee == employee
  }

  function EmployeesOf(appts: Appts, ids: set<Id>): set<Id> {
    set id | id in ids && id in appts :: appts[id].employee
  }

  lemma OneMoreShare(n: nat, each: int, m: nat)
    requires m == n + 1
    ensures m * each == n * each + each
  {
  }

  /** Taking one employee's rows out leaves the other employees' rows. */
  lemma OthersRows(appts: Appts, ids: set<Id>, e: Id)
    requires ids <= appts.Keys
    ensures ids - RowsOf(appts, ids, e) + RowsOf(appts, ids, e) == ids
    ensures forall f :: f != e ==> RowsOf(appts, ids - RowsOf(appts, ids, e), f) == RowsOf(appts, ids, f)
  {
  }

  ghost predicate EachWithin(appts: Appts, ids: set<Id>, employees: set<Id>, bound: map<Id, int>)
    requires ids <= appts.Keys && employees <= bound.Keys
  {
    forall e :: e in employees ==> Sum(RowsOf(appts, ids, e), Lengths(appts)) <= bound[e]
  }

  lemma OthersStayWithin(appts: Appts, ids: set<Id>, employees: set<Id>, bound: map<Id, int>, e: Id)
    requires ids <= appts.Keys && employees <= bound.Keys && EachWithin(appts, ids, employees, bound)
    ensures EachWithin(appts, ids - RowsOf(appts, ids, e), employees - {e}, bound)
  {
    forall f | f in employees - {e}
      ensures Sum(RowsOf(appts, ids - RowsOf(appts, ids, e), f), Lengths(appts)) <= bound[f]
    {
      OthersRows(appts, ids, e);
    }
  }

  /** If each employee's rows stay within a bound, all rows stay within the sum of the bounds. */
  lemma {:induction false} SumOverEmployees(appts: Appts, ids: set<Id>, employees: set<Id>, bound: map<Id, int>)
    requires ids <= appts.Keys && employees <= bound.Keys
    requires forall id :: id in ids ==> appts[id].employee in employees
    requires EachWithin(appts, ids, employees, bound)
    ensures Sum(ids, Lengths(appts)) <= Sum(employees, bound)
    decreases employees
  {
    if employees == {} {
      assert ids == {};
    } else {
      var e :| e in employees;
      var own := RowsOf(appts, ids, e);
      var others := ids - own;
      OthersRows(appts, ids, e);
      SumSplits(others, own, Lengths(appts));
      OthersStayWithin(appts, ids, employees, bound, e);
      SumOverEmployees(appts, others, employees - {e}, bound);
      SumTakeOut(employees, bound, e);
    }
  }

  lemma {:induction false} SumWithin(ids: set<Id>, value: map<Id, int>, each: int)
    requires ids <= value.Keys && forall id :: id in ids ==> value[id] <= each
    ensures Sum(ids, value) <= |ids| * each
    decreases ids
  {
    if ids != {} {
      var id :| id in ids;
      SumTakeOut(ids, value, id);
      SumWithin(ids - {id}, value, each);
      OneMoreShare(|ids - {id}|, each, |ids|);
    }
  }

  /** The chosen row is the last of its employee among the given ones: all the others have ended when it starts. */
  ghost predicate IsLast(appts: Appts, ids: set<Id>, employee: Id, last: Id)
    requires ids <= appts.Keys
  {
    last in RowsOf(appts, ids, employee) &&
    forall id :: id in RowsOf(appts, ids, employee) && id != last ==> appts[id].ends <= appts[last].starts
  }

  /** The rows of one employee, in total length, fit between a time and the end of this row, their last. */
  ghost predicate PackedBy(appts: Appts, ids: set<Id>, start: int, employee: Id, last: Id)
    requires ids <= appts.Keys
  {
    IsLast(appts, ids, employee, last) && Sum(RowsOf(appts, ids, employee), Lengths(appts)) <= appts[last].ends - start
  }

  lemma LastRowOf(appts: Appts, ids: set<Id>, tenant: Id, start: int, employee: Id) returns (last: Id)
    requires ExclusionHolds(appts) && PositiveLengths(appts) && ids <= appts.Keys
    requires forall id :: id in ids ==> appts[id].tenant == tenant && Active(appts[id]) && appts[id].starts >= start
    requires employee in EmployeesOf(appts, ids)
    ensures last in ids && PackedBy(appts, ids, start, employee, last)
  {
    var own := RowsOf(appts, ids, employee);
    var id :| id in ids && appts[id].employee == employee;
    assert id in own;
    last := RowsArePacked(appts, own, tenant, employee, start);
  }

  /** The minutes from a time on to the end of each employee's last row. */
  function Spans(appts: Appts, last: map<Id, Id>, start: int): map<Id, int>
    requires forall e :: e in last ==> last[e] in appts
  {
    map e | e in last :: appts[last[e]].ends - start
  }

  lemma {:induction false} LastRows(appts: Appts, ids: set<Id>, tenant: Id, start: int, employees: set<Id>)
    returns (last: map<Id, Id>)
    requires ExclusionHolds(appts) && PositiveLengths(appts) && ids <= appts.Keys
    requires forall id :: id in ids ==> appts[id].tenant == tenant && Active(appts[id]) && appts[id].starts >= start
    requires employees <= EmployeesOf(appts, ids)
    ensures last.Keys == employees
    ensures forall e :: e in last ==> last[e] in ids && PackedBy(appts, ids, start, e, last[e])
    decreases employees
  {
    last := map[];
    if employees != {} {
      var e :| e in employees;
      var before := LastRows(appts, ids, tenant, start, employees - {e});
      var mine := LastRowOf(appts, ids, tenant, start, e);
      last := before[e := mine];
    }
  }

  /**
   In every run the booked minutes of a range are at most the sum, over the
   employees with rows in it, of the minutes from its start to the end of that
   employee's last row: the length of the range plus the last row's overrun.
   */
  lemma BookedMinutesPacked(run: seq<Attempt>, tenant: Id, start: int, end: int) returns (last: map<Id, Id>)
    ensures var appts := After(run).appts;
            var rows := BookedRows(appts, tenant, start, end);
            && last.Keys == EmployeesOf(appts, rows)
            && (forall e :: e in last ==> last[e] in rows && IsLast(appts, rows, e, last[e]))
            && BookedMinutes(appts, tenant, start, end) <= Sum(last.Keys, Spans(appts, last, start))
  {
    EveryRunKeeps(run);
    last := PackedRows(After(run).appts, tenant, start, end);
  }

  lemma PackedRows(appts: Appts, tenant: Id, start: int, end: int) returns (last: map<Id, Id>)
    requires ExclusionHolds(appts) && PositiveLengths(appts)
    ensures var rows := BookedRows(appts, tenant, start, end);
            && last.Keys == EmployeesOf(appts, rows)
            && (forall e :: e in last ==> last[e] in rows && IsLast(appts, rows, e, last[e]))
            && Sum(rows, Lengths(appts)) <= Sum(last.Keys, Spans(appts, last, start))
  {
    var rows := BookedRows(appts, tenant, start, end);
    last := LastRows(appts, rows, tenant, start, EmployeesOf(appts, rows));
    forall e | e in last.Keys ensures Sum(RowsOf(appts, rows, e), Lengths(appts)) <= Spans(appts, last, start)[e] {
      assert PackedBy(appts, rows, start, e, last[e]);
    }
    SumOverEmployees(appts, rows, last.Keys, Spans(appts, last, start));
  }

  /** So they are at most, per employee with rows in the range, its length plus one longest of those rows. */
  lemma BookedMinutesBounded(run: seq<Attempt>, tenant: Id, start: int, end: int, longest: nat)
    requires var appts := After(run).appts;
             forall id :: id in BookedRows(appts, tenant, start, end) ==> appts[id].ends - appts[id].starts <= longest
    ensures var appts := After(run).appts;
            BookedMinutes(appts, tenant, start, end) <=
              |EmployeesOf(appts, BookedRows(appts, tenant, start, end))| * (end - start + longest)
  {
    EveryRunKeeps(run);
    RowsBounded(After(run).appts, tenant, start, end, longest);
  }

  /** One employee's booked minutes exceed the range by no more than its longest booked row. */
  lemma EmployeeMinutesBounded(appts: Appts, tenant: Id, employee: Id, start: int, end: int, longest: nat)
    requires ExclusionHolds(appts) && PositiveLengths(appts)
    requires forall id :: id in BookedRows(appts, tenant, start, end) ==> appts[id].ends - appts[id].starts <= longest
    requires employee in EmployeesOf(appts, BookedRows(appts, tenant, start, end))
    ensures Sum(RowsOf(appts, BookedRows(appts, tenant, start, end), employee), Lengths(appts)) <= end - start + longest
  {
    var last := LastRowOf(appts, BookedRows(appts, tenant, start, end), tenant, start, employee);
  }

  lemma RowsWithin(appts: Appts, tenant: Id, start: int, end: int, longest: nat, each: int)
    requires ExclusionHolds(appts) && PositiveLengths(appts) && each == end - start + longest
    requires forall id :: id in BookedRows(appts, tenant, start, end) ==> appts[id].ends - appts[id].starts <= longest
    ensures BookedMinutes(appts, tenant, start, end) <= |EmployeesOf(appts,
              BookedRows(appts, tenant, start, end))| * each
  {
    var rows := BookedRows(appts, tenant, start, end);
    var employees := EmployeesOf(appts, rows);
    var bound := map e | e in employees :: each;
    forall e | e in employees ensures Sum(RowsOf(appts, rows, e), Lengths(appts)) <= bound[e] {
      EmployeeMinutesBounded(appts, tenant, e, start, end, longest);
    }
    SumOverEmployees(appts, rows, employees, bound);
    SumWithin(employees, bound, each);
  }

  lemma RowsBounded(appts: Appts, tenant: Id, start: int, end: int, longest: nat)
    requires ExclusionHolds(appts) && PositiveLengths(appts)
    requires forall id :: id in BookedRows(appts, tenant, start, end) ==> appts[id].ends - appts[id].starts <= longest
    ensures BookedMinutes(appts, tenant, start, end) <=
              |EmployeesOf(appts, BookedRows(appts, tenant, start, end))| * (end - start + longest)
  {
    RowsWithin(appts, tenant, start, end, longest, end - start + longest);
  }

  // ----- revenue

  /** Rows of a range in one of the given states. */
  function RowsIn(appts: Appts, tenant: Id, start: int, end: int, statuses: set<Status>): set<Id> {
    set id | id in appts && appts[id].tenant == tenant && start <= appts[id].starts < end &&
        appts[id].status in statuses
  }

  /** The present price of each row's service. */
  function Prices(db: Db): map<Id, int> {
    map id | id in db.appts && db.appts[id].service in db.catalog.services ::
        db.catalog.services[db.appts[id].service].price
  }

  ghost function Revenue(db: Db, tenant: Id, start: int, end: int, statuses: set<Status>): int
    requires db.appts.Keys <= Prices(db).Keys
  {
    Sum(RowsIn(db.appts, tenant, start, end, statuses), Prices(db))
  }

  const PROJECTED := {Pending, Confirmed, Completed}

  lemma EveryRowHasAPrice(db: Db)
    requires RowsOk(db)
    ensures db.appts.Keys <= Prices(db).Keys
  {
    forall id | id in db.appts ensures id in Prices(db) {
      assert RowOk(db, db.appts[id]);
    }
  }

  /** In every run, projected revenue and booked minutes range over the same rows. */
  lemma ProjectedRowsAreBookedRows(run: seq<Attempt>, tenant: Id, start: int, end: int)
    ensures RowsIn(After(run).appts, tenant, start, end, PROJECTED) == BookedRows(After(run).appts, tenant, start, end)
  {
    var appts := After(run).appts;
    forall id | id in appts ensures appts[id].status in PROJECTED <==> appts[id].status != Cancelled {
      HistoriesArePaths(run, id);
    }
  }

  /** Revenues of adjacent half-open ranges add up, with no row counted twice or dropped. */
  lemma RevenueAddsUp(db: Db, tenant: Id, a: int, b: int, c: int, statuses: set<Status>)
    requires RowsOk(db) && a <= b <= c
    ensures db.appts.Keys <= Prices(db).Keys
    ensures Revenue(db, tenant, a, c, statuses) ==
              Revenue(db, tenant, a, b, statuses) + Revenue(db, tenant, b, c, statuses)
  {
    EveryRowHasAPrice(db);
    var left, right := RowsIn(db.appts, tenant, a, b, statuses), RowsIn(db.appts, tenant, b, c, statuses);
    assert RowsIn(db.appts, tenant, a, c, statuses) == left + right;
    SumSplits(left, right, Prices(db));
  }

  /** Realized revenue never exceeds projected revenue. */
  lemma RealizedWithinProjected(db: Db, tenant: Id, start: int, end: int)
    requires RowsOk(db)
    ensures db.appts.Keys <= Prices(db).Keys
    ensures Revenue(db, tenant, start, end, {Completed}) <= Revenue(db, tenant, start, end, PROJECTED)
  {
    EveryRowHasAPrice(db);
    var done, open :=
        RowsIn(db.appts, tenant, start, end, {Completed}), RowsIn(db.appts, tenant, start, end, {Pending, Confirmed});
    assert RowsIn(db.appts, tenant, start, end, PROJECTED) == done + open;
    SumSplits(done, open, Prices(db));
    SumNonNegative(open, Prices(db));
  }

  // ----- row by row

  /**
   A row adds its length to the booked minutes of a range if it starts in it and is
   not cancelled; no row, no minutes.
   */
  lemma BookedRowByRow(appts: Appts, tenant: Id, start: int, end: int, id: Id)
    requires id in appts
    ensures var row := appts[id];
            BookedMinutes(appts, tenant, start, end) == BookedMinutes(appts - {id}, tenant, start, end) +
              if row.tenant == tenant && start <= row.starts < end && row.status != Cancelled
                  then row.ends - row.starts else 0
    ensures BookedMinutes(map[], tenant, start, end) == 0
  {
    var rows, rest := BookedRows(appts, tenant, start, end), BookedRows(appts - {id}, tenant, start, end);
    assert rest == rows - {id};
    SameValues(rest, Lengths(appts), Lengths(appts - {id}));
    if id in rows { SumTakeOut(rows, Lengths(appts), id); } else { assert rest == rows; }
    assert BookedRows(map[], tenant, start, end) == {};
  }

  lemma {:induction false} SameValues(ids: set<Id>, a: map<Id, int>, b: map<Id, int>)
    requires ids <= a.Keys && ids <= b.Keys && forall id :: id in ids ==> a[id] == b[id]
    ensures Sum(ids, a) == Sum(ids, b)
    decreases ids
  {
    if ids != {} {
      var id :| id in ids;
      SumTakeOut(ids, a, id);
      SumTakeOut(ids, b, id);
      SameValues(ids - {id}, a, b);
    }
  }

  /**
   A row adds the present price of its service to the revenue of a range if it
   starts in it in one of the given states.
   */
  lemma RevenueRowByRow(db: Db, tenant: Id, start: int, end: int, statuses: set<Status>, id: Id)
    requires RowsOk(db) && id in db.appts
    ensures var row, without := db.appts[id], db.(appts := db.appts - {id});
            && row.service in db.catalog.services
            && db.appts.Keys <= Prices(db).Keys && without.appts.Keys <= Prices(without).Keys
            && Revenue(db, tenant, start, end, statuses) == Revenue(without, tenant, start, end, statuses) +
                 if row.tenant == tenant && start <= row.starts < end && row.status in statuses
                 then db.catalog.services[row.service].price else 0
  {
    var without := db.(appts := db.appts - {id});
    EveryRowHasAPrice(db);
    assert RowOk(db, db.appts[id]);
    var rows, rest :=
        RowsIn(db.appts, tenant, start, end, statuses), RowsIn(without.appts, tenant, start, end, statuses);
    assert rest == rows - {id};
    SameValues(rest, Prices(db), Prices(without));
    if id in rows { SumTakeOut(rows, Prices(db), id); } else { assert rest == rows; }
  }

  lemma NoRowsNoRevenue(db: Db, tenant: Id, start: int, end: int, statuses: set<Status>)
    requires db.appts == map[]
    ensures db.appts.Keys <= Prices(db).Keys && Revenue(db, tenant, start, end, statuses) == 0
  {
    assert RowsIn(db.appts, tenant, start, end, statuses) == {};
  }

  /** The minutes open on a day are those of the windows of its weekday; a window more adds its length there. */
  lemma MinutesWindowByWindow(windows: seq<Window>, w: Window, weekday: int)
    ensures MinutesOn([], weekday) == 0
    ensures MinutesOn(windows + [w], weekday) ==
              MinutesOn(windows, weekday) + (if w.weekday == weekday then w.closes - w.opens else 0)
  {
    assert (windows + [w])[..|windows|] == windows;
  }
}
