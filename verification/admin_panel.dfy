/** The admin dashboard page: its role gate, the headline statistics, the seven-day attendance
    chart, the per-department employee counts, the top performers of the month and the merged
    alert list. Query results are inputs; a query that returned null is `None`. */
module AdminPanel {
  import opened JsValues
  import AccessGate

  datatype Employee = Employee(status: Option<string>, department: Option<string>)

  /** An attendance row: `kind` is the row's `type` (`masuk` for a check-in). A null
      `is_late` reads as false. */
  datatype Attendance = Attendance(kind: string, isLate: bool)

  datatype Payment = Payment(amount: Option<int>, status: Option<string>)

  datatype DashboardStats = DashboardStats(
    totalEmployees: nat, activeEmployees: nat, todayAttendance: nat, monthlyAttendance: nat,
    totalSalaryPaid: int, pendingPayments: nat, lateEmployees: nat, absentEmployees: int,
    onTimePercentage: int)

  // ---------------------------------------------------------------- headline statistics

  predicate IsCheckIn(a: Attendance) { a.kind == "masuk" }

  function CheckIns(atts: seq<Attendance>): (n: nat)
    ensures n <= |atts|
  {
    if atts == [] then 0 else (if IsCheckIn(atts[0]) then 1 else 0) + CheckIns(atts[1..])
  }

  function LateCheckIns(atts: seq<Attendance>): nat {
    if atts == [] then 0
    else (if IsCheckIn(atts[0]) && atts[0].isLate then 1 else 0) + LateCheckIns(atts[1..])
  }

  function ActiveCount(emps: seq<Employee>): (n: nat)
    ensures n <= |emps|
  {
    if emps == [] then 0
    else (if emps[0].status == Some("active") then 1 else 0) + ActiveCount(emps[1..])
  }

  predicate IsPending(p: Payment) {
    p.status == Some("pending") || p.status == Some("processing")
  }

  function PendingCount(ps: seq<Payment>): (n: nat)
    ensures n <= |ps|
  {
    if ps == [] then 0 else (if IsPending(ps[0]) then 1 else 0) + PendingCount(ps[1..])
  }

  /** The `reduce` as written: a left fold that adds a completed payment's amount (0 when
      missing) to the running sum and passes any other payment over. */
  function PaidFold(ps: seq<Payment>, sum: int): int {
    if ps == [] then sum
    else PaidFold(ps[1..], if ps[0].status == Some("completed") then sum + OrZero(ps[0].amount) else sum)
  }

  /** The completed payments, in order. */
  function Completed(ps: seq<Payment>): (r: seq<Payment>)
    ensures forall p :: p in r <==> p in ps && p.status == Some("completed")
  {
    if ps == [] then []
    else (if ps[0].status == Some("completed") then [ps[0]] else []) + Completed(ps[1..])
  }

  /** The plain sum of the amounts, a missing amount counting as 0. */
  function SumAmounts(ps: seq<Payment>): int {
    if ps == [] then 0 else OrZero(ps[0].amount) + SumAmounts(ps[1..])
  }

  /** `Math.round(100 * part / whole)`, half up, on exact integers. */
  function RoundPercent(part: nat, whole: nat): int
    requires whole > 0
  {
    (200 * part + whole) / (2 * whole)
  }

  /** The headline figures. The late count never exceeds the check-ins, so the on-time count is
      not negative; the percentage is 100 with no check-ins and in 0..100 otherwise. The absent
      count is the active employees minus today's check-ins, with no clamping. The salary total
      is the sum of the completed payments' amounts. */
  function ComputeStats(employees: Option<seq<Employee>>, todayAttendance: Option<seq<Attendance>>,
                        monthlyAttendance: Option<seq<Attendance>>, payments: Option<seq<Payment>>): (s: DashboardStats)
    ensures s.totalEmployees == |OrEmpty(employees)| && s.activeEmployees == ActiveCount(OrEmpty(employees))
    ensures s.todayAttendance == CheckIns(OrEmpty(todayAttendance))
    ensures s.monthlyAttendance == CheckIns(OrEmpty(monthlyAttendance))
    ensures s.lateEmployees == LateCheckIns(OrEmpty(todayAttendance))
    ensures s.pendingPayments == PendingCount(OrEmpty(payments))
    ensures s.lateEmployees <= s.todayAttendance
    ensures s.todayAttendance == 0 ==> s.onTimePercentage == 100
    ensures 0 <= s.onTimePercentage <= 100
    ensures s.absentEmployees == s.activeEmployees - s.todayAttendance
    ensures s.activeEmployees <= s.totalEmployees
    ensures s.totalSalaryPaid == SumAmounts(Completed(OrEmpty(payments)))
  {
    var emps, today, month, pays :=
      OrEmpty(employees), OrEmpty(todayAttendance), OrEmpty(monthlyAttendance), OrEmpty(payments);
    var checkIns := CheckIns(today);
    var late := LateCheckIns(today);
    LateWithinCheckIns(today);
    TotalSalaryPaidIsCompletedSum(pays);
    var onTime := checkIns - late;
    DashboardStats(
      |emps|, ActiveCount(emps), checkIns, CheckIns(month),
      PaidFold(pays, 0), PendingCount(pays), late, ActiveCount(emps) - checkIns,
      if checkIns > 0 then RoundPercentBounds(onTime, checkIns); RoundPercent(onTime, checkIns) else 100)
  }

  lemma {:induction false} PaidFoldShifts(ps: seq<Payment>, sum: int)
    ensures PaidFold(ps, sum) == sum + PaidFold(ps, 0)
  {
    if ps != [] {
      var step := if ps[0].status == Some("completed") then OrZero(ps[0].amount) else 0;
      PaidFoldShifts(ps[1..], sum + step);
      PaidFoldShifts(ps[1..], step);
    }
  }

  /** The fold as written equals the sum of the amounts of the completed payments: a payment
      with any other status, `pending` included, adds nothing. */
  lemma {:induction false} TotalSalaryPaidIsCompletedSum(ps: seq<Payment>)
    ensures PaidFold(ps, 0) == SumAmounts(Completed(ps))
  {
    if ps != [] {
      TotalSalaryPaidIsCompletedSum(ps[1..]);
      var step := if ps[0].status == Some("completed") then OrZero(ps[0].amount) else 0;
      PaidFoldShifts(ps[1..], step);
      if ps[0].status == Some("completed") {
        assert Completed(ps) == [ps[0]] + Completed(ps[1..]);
        assert ([ps[0]] + Completed(ps[1..]))[1..] == Completed(ps[1..]);
      } else {
        assert Completed(ps) == Completed(ps[1..]);
      }
    }
  }

  lemma {:induction false} LateWithinCheckIns(atts: seq<Attendance>)
    ensures LateCheckIns(atts) <= CheckIns(atts)
  {
    if atts != [] {
      LateWithinCheckIns(atts[1..]);
    }
  }

  /** Arithmetic helper for RoundPercentBounds: multiplying by a natural keeps order. */
  lemma MulMonotone(a: nat, b: int, c: int)
    requires b <= c
    ensures a * b <= a * c
  {
    if a > 0 {
      MulMonotone(a - 1, b, c);
      assert a * b == (a - 1) * b + b && a * c == (a - 1) * c + c;
    }
  }

  /** Arithmetic helper for RoundPercentBounds: integer division is pinned down by the quotient's bracket. */
  lemma DivBetween(n: int, d: int, q: int)
    requires d > 0 && q * d <= n < (q + 1) * d
    ensures n / d == q
  {
    var q', r := n / d, n % d;
    assert n == d * q' + r && 0 <= r < d;
    if q' > q {
      MulMonotone(d, q + 1, q');
    } else if q' < q {
      MulMonotone(d, q', q - 1);
    }
  }

  /** Arithmetic helper for RoundPercentBounds: a quotient inherits an upper bound on the dividend. */
  lemma DivAtMost(n: int, d: int, bound: int)
    requires d > 0 && 0 <= n < (bound + 1) * d
    ensures 0 <= n / d <= bound
  {
    var q', r := n / d, n % d;
    assert n == d * q' + r && 0 <= r < d;
    if q' > bound {
      MulMonotone(d, bound + 1, q');
    }
    if q' < 0 {
      MulMonotone(d, q', -1);
    }
  }

  /** Rounding a fraction in [0, 1] to a percentage stays in 0..100, with the ends exact. */
  lemma RoundPercentBounds(part: nat, whole: nat)
    requires 0 < whole && part <= whole
    ensures 0 <= RoundPercent(part, whole) <= 100
    ensures part == 0 ==> RoundPercent(part, whole) == 0
    ensures part == whole ==> RoundPercent(part, whole) == 100
  {
    DivAtMost(200 * part + whole, 2 * whole, 100);
    if part == 0 {
      DivBetween(whole, 2 * whole, 0);
    }
    if part == whole {
      DivBetween(201 * whole, 2 * whole, 100);
    }
  }

  /** More active employees than check-ins is not required: with none active and one check-in
      the absent count is -1. */
  lemma AbsentCanBeNegative()
    ensures ComputeStats(Some([]), Some([Attendance("masuk", false)]), None, None).absentEmployees == -1
  {
  }

  /** Exactly the payments in `pending` or `processing` are counted as pending. */
  lemma {:induction false} PendingCountsExactly(ps: seq<Payment>, extra: Payment)
    ensures PendingCount(ps + [extra]) == PendingCount(ps) + (if IsPending(extra) then 1 else 0)
  {
    if ps != [] {
      assert (ps + [extra])[1..] == ps[1..] + [extra];
      PendingCountsExactly(ps[1..], extra);
    } else {
      assert ps + [extra] == [extra];
    }
  }

  // ---------------------------------------------------------------- seven-day chart

  datatype ChartPoint = ChartPoint(hadir: nat, tepatWaktu: int, terlambat: nat)

  /** One day's bar: check-ins, of which on time and late. */
  function ChartDay(data: Option<seq<Attendance>>): (p: ChartPoint)
    ensures p.hadir == CheckIns(OrEmpty(data)) && p.terlambat == LateCheckIns(OrEmpty(data))
    ensures p.tepatWaktu + p.terlambat == p.hadir && 0 <= p.tepatWaktu
  {
    var atts := OrEmpty(data);
    LateWithinCheckIns(atts);
    ChartPoint(CheckIns(atts), CheckIns(atts) - LateCheckIns(atts), LateCheckIns(atts))
  }

  /** The chart for the seven days ending at `today` (day numbers, oldest first); `query`
      gives the successful attendance rows of a day. Bar `i` counts the check-ins of day
      `today - 6 + i` and its late ones, and splits the check-ins into on-time and late,
      neither negative. */
  function AttendanceChart(today: int, query: int -> Option<seq<Attendance>>): (chart: seq<ChartPoint>)
    ensures |chart| == 7
    ensures forall i :: 0 <= i < 7 ==>
      chart[i].hadir == CheckIns(OrEmpty(query(today - 6 + i)))
      && chart[i].terlambat == LateCheckIns(OrEmpty(query(today - 6 + i)))
    ensures forall i :: 0 <= i < 7 ==>
      chart[i].tepatWaktu + chart[i].terlambat == chart[i].hadir && 0 <= chart[i].tepatWaktu
  {
    var chart := seq(7, i requires 0 <= i < 7 => ChartDay(query(today - 6 + i)));
    assert forall i :: 0 <= i < 7 ==> chart[i] == ChartDay(query(today - 6 + i));
    chart
  }

  // ---------------------------------------------------------------- grouping helpers

  /** The distinct values of `xs`, in order of first appearance (the key order of an object
      filled in that order). */
  function Distinct(xs: seq<string>): (d: seq<string>)
  {
    if xs == [] then []
    else
      var d := Distinct(xs[..|xs| - 1]);
      if xs[|xs| - 1] in d then d else d + [xs[|xs| - 1]]
  }

  /** How often `k` occurs in `xs`. */
  function Occurrences(xs: seq<string>, k: string): (n: nat)
    ensures n <= |xs|
  {
    if xs == [] then 0
    else Occurrences(xs[..|xs| - 1], k) + (if xs[|xs| - 1] == k then 1 else 0)
  }

  predicate NoDuplicates(xs: seq<string>) {
    forall i, j :: 0 <= i < j < |xs| ==> xs[i] != xs[j]
  }

  /** Each value of `xs` appears in `Distinct(xs)` exactly once. */
  lemma {:induction false} DistinctSpec(xs: seq<string>)
    ensures forall k :: k in Distinct(xs) <==> k in xs
    ensures NoDuplicates(Distinct(xs))
  {
    if xs != [] {
      var init := xs[..|xs| - 1];
      DistinctSpec(init);
      assert xs == init + [xs[|xs| - 1]];
    }
  }

  lemma {:induction false} OccurrencesPositive(xs: seq<string>, k: string)
    ensures k in xs <==> Occurrences(xs, k) > 0
  {
    if xs != [] {
      var init := xs[..|xs| - 1];
      OccurrencesPositive(init, k);
      assert xs == init + [xs[|xs| - 1]];
    }
  }

  /** `Σ_{k ∈ keys} Occurrences(xs, k)`. */
  function SumOccurrences(keys: seq<string>, xs: seq<string>): nat {
    if keys == [] then 0 else Occurrences(xs, keys[0]) + SumOccurrences(keys[1..], xs)
  }

  lemma {:induction false} SumOccurrencesSnoc(keys: seq<string>, xs: seq<string>, x: string)
    requires NoDuplicates(keys)
    ensures SumOccurrences(keys, xs + [x]) == SumOccurrences(keys, xs) + (if x in keys then 1 else 0)
  {
    if keys != [] {
      assert (xs + [x])[..|xs + [x]| - 1] == xs;
      SumOccurrencesSnoc(keys[1..], xs, x);
      assert keys == [keys[0]] + keys[1..];
    }
  }

  lemma {:induction false} SumOccurrencesAppendKey(keys: seq<string>, k: string, xs: seq<string>)
    ensures SumOccurrences(keys + [k], xs) == SumOccurrences(keys, xs) + Occurrences(xs, k)
  {
    if keys != [] {
      assert (keys + [k])[1..] == keys[1..] + [k];
      SumOccurrencesAppendKey(keys[1..], k, xs);
    }
  }

  /** Counting each distinct value's occurrences accounts for every element exactly once. */
  lemma {:induction false} CountsCoverAll(xs: seq<string>)
    ensures SumOccurrences(Distinct(xs), xs) == |xs|
  {
    if xs != [] {
      var init, x := xs[..|xs| - 1], xs[|xs| - 1];
      assert xs == init + [x];
      CountsCoverAll(init);
      DistinctSpec(init);
      SumOccurrencesSnoc(Distinct(init), init, x);
      if x !in Distinct(init) {
        SumOccurrencesAppendKey(Distinct(init), x, xs);
        OccurrencesPositive(init, x);
        assert Occurrences(xs, x) == 1;
      }
    }
  }

  // ---------------------------------------------------------------- department grouping

  const Palette: seq<string> := ["#3B82F6", "#10B981", "#F59E0B", "#EF4444", "#8B5CF6", "#06B6D4"]

  datatype DeptStat = DeptStat(name: string, value: nat, color: string)

  /** The department an employee is counted under. */
  function DeptOf(e: Employee): string {
    OrElse(e.department, "Tidak Ada")
  }

  function DeptNames(emps: seq<Employee>): (names: seq<string>)
    ensures |names| == |emps|
    ensures forall i :: 0 <= i < |emps| ==> names[i] == DeptOf(emps[i])
  {
    seq(|emps|, i requires 0 <= i < |emps| => DeptOf(emps[i]))
  }

  function SumValues(stats: seq<DeptStat>): nat {
    if stats == [] then 0 else stats[0].value + SumValues(stats[1..])
  }

  /** The department counts after the names `xs`, one employee at a time. */
  function CountMap(xs: seq<string>): map<string, nat>
  {
    if xs == [] then map[]
    else
      var m := CountMap(xs[..|xs| - 1]);
      var x := xs[|xs| - 1];
      m[x := (if x in m then m[x] else 0) + 1]
  }

  /** The counts have a key exactly for each name that occurs, holding its number of
      occurrences. */
  lemma {:induction false} CountMapAt(xs: seq<string>, k: string)
    ensures k in CountMap(xs) <==> k in xs
    ensures k in CountMap(xs) ==> CountMap(xs)[k] == Occurrences(xs, k)
  {
    if xs != [] {
      var init, x := xs[..|xs| - 1], xs[|xs| - 1];
      CountMapAt(init, k);
      assert xs == init + [x];
      OccurrencesPositive(init, k);
    }
  }

  /** The `reduce` into an object keyed by department; `keys` is the object's key order. */
  method CountDepartments(emps: seq<Employee>) returns (acc: map<string, nat>, keys: seq<string>)
    ensures acc == CountMap(DeptNames(emps)) && keys == Distinct(DeptNames(emps))
  {
    acc, keys := map[], [];
    var i := 0;
    while i < |emps|
      invariant 0 <= i <= |emps|
      invariant acc == CountMap(DeptNames(emps[..i])) && keys == Distinct(DeptNames(emps[..i]))
    {
      var dept := DeptOf(emps[i]);
      assert DeptNames(emps[..i + 1]) == DeptNames(emps[..i]) + [dept];
      CountMapAt(DeptNames(emps[..i]), dept);
      DistinctSpec(DeptNames(emps[..i]));
      var prev := if dept in acc then acc[dept] else 0;
      if dept !in acc {
        keys := keys + [dept];
      }
      acc := acc[dept := prev + 1];
      i := i + 1;
    }
    assert emps[..i] == emps;
  }

  /** The department entries of these employees: one per department (a missing one counts as
      `Tidak Ada`) in first-seen order, each with its employee count and colour `j % 6`; the
      names are distinct, every department appears, and the counts sum to the number of
      employees. */
  ghost predicate DepartmentEntries(employees: Option<seq<Employee>>, stats: seq<DeptStat>) {
    var names := DeptNames(OrEmpty(employees));
    && |stats| == |Distinct(names)|
    && (forall j :: 0 <= j < |stats| ==>
          stats[j].name == Distinct(names)[j]
          && stats[j].value == Occurrences(names, stats[j].name)
          && stats[j].color == Palette[j % 6])
    && SumValues(stats) == |OrEmpty(employees)|
    && (forall n :: n in names ==> exists j :: 0 <= j < |stats| && stats[j].name == n)
    && (forall i, j :: 0 <= i < j < |stats| ==> stats[i].name != stats[j].name)
  }

  /** The department counts, then their entries with a colour each. */
  method GroupDepartments(employees: Option<seq<Employee>>) returns (stats: seq<DeptStat>)
    ensures DepartmentEntries(employees, stats)
  {
    var emps := OrEmpty(employees);
    var acc, keys := CountDepartments(emps);
    ghost var names := DeptNames(emps);
    DistinctSpec(names);
    forall k | k in keys ensures k in acc && acc[k] == Occurrences(names, k) {
      CountMapAt(names, k);
    }
    stats := seq(|keys|, j requires 0 <= j < |keys| => DeptStat(keys[j], acc[keys[j]], Palette[j % 6]));
    GroupingCountsEachOnce(names, stats);
    GroupingCoversEachDepartment(names, stats);
  }

  lemma {:induction false} SumValuesIsSumOccurrences(stats: seq<DeptStat>, keys: seq<string>, xs: seq<string>)
    requires |stats| == |keys|
    requires forall j :: 0 <= j < |stats| ==> stats[j].value == Occurrences(xs, keys[j])
    ensures SumValues(stats) == SumOccurrences(keys, xs)
  {
    if stats != [] {
      SumValuesIsSumOccurrences(stats[1..], keys[1..], xs);
    }
  }

  /** The counts add up to the number of employees: each is counted exactly once. */
  lemma GroupingCountsEachOnce(names: seq<string>, stats: seq<DeptStat>)
    requires |stats| == |Distinct(names)|
    requires forall j :: 0 <= j < |stats| ==> stats[j].value == Occurrences(names, Distinct(names)[j])
    ensures SumValues(stats) == |names|
  {
    CountsCoverAll(names);
    SumValuesIsSumOccurrences(stats, Distinct(names), names);
  }

  /** Every employee's department, or `Tidak Ada`, has an entry, and no department has two. */
  lemma GroupingCoversEachDepartment(names: seq<string>, stats: seq<DeptStat>)
    requires |stats| == |Distinct(names)|
    requires forall j :: 0 <= j < |stats| ==> stats[j].name == Distinct(names)[j]
    ensures forall n :: n in names ==> exists j :: 0 <= j < |stats| && stats[j].name == n
    ensures forall i, j :: 0 <= i < j < |stats| ==> stats[i].name != stats[j].name
  {
    DistinctSpec(names);
    forall n | n in names
      ensures exists j :: 0 <= j < |stats| && stats[j].name == n
    {
      var j :| 0 <= j < |Distinct(names)| && Distinct(names)[j] == n;
      assert stats[j].name == n;
    }
  }

  // ---------------------------------------------------------------- top performers

  datatype PerformerProfile = PerformerProfile(name: Option<string>, department: Option<string>)

  /** A check-in of the month with its user's joined profile. */
  datatype CheckIn = CheckIn(userId: string, isLate: bool, profile: Option<PerformerProfile>)

  /** A user's running totals in the accumulator. */
  datatype Tally = Tally(profile: Option<PerformerProfile>, totalDays: nat, onTimeDays: nat)

  /** A ranked entry. `userId` is the accumulator key the entry came from; the page itself
      shows only the profile and the figures. */
  datatype Performer = Performer(userId: string, profile: Option<PerformerProfile>,
                                 onTimePercentage: int, totalDays: nat)

  function UserIds(recs: seq<CheckIn>): (ids: seq<string>)
    ensures |ids| == |recs|
    ensures forall i :: 0 <= i < |recs| ==> ids[i] == recs[i].userId
  {
    seq(|recs|, i requires 0 <= i < |recs| => recs[i].userId)
  }

  /** The user's check-ins that were not late. */
  function OnTimeDays(recs: seq<CheckIn>, id: string): (n: nat)
    ensures n <= Occurrences(UserIds(recs), id)
  {
    if recs == [] then 0
    else
      var init := recs[..|recs| - 1];
      assert UserIds(recs)[..|recs| - 1] == UserIds(init);
      OnTimeDays(init, id) + (if recs[|recs| - 1].userId == id && !recs[|recs| - 1].isLate then 1 else 0)
  }

  /** The profile of the user's first check-in. */
  function FirstProfile(recs: seq<CheckIn>, id: string): Option<PerformerProfile>
  {
    if recs == [] then None
    else if recs[0].userId == id then recs[0].profile
    else FirstProfile(recs[1..], id)
  }

  lemma {:induction false} FirstProfileSnoc(recs: seq<CheckIn>, r: CheckIn, id: string)
    requires id in UserIds(recs)
    ensures FirstProfile(recs + [r], id) == FirstProfile(recs, id)
  {
    if recs != [] {
      assert (recs + [r])[1..] == recs[1..] + [r];
      if recs[0].userId != id {
        assert UserIds(recs) == [recs[0].userId] + UserIds(recs[1..]);
        FirstProfileSnoc(recs[1..], r, id);
      }
    }
  }

  lemma FirstProfileNew(recs: seq<CheckIn>, r: CheckIn)
    requires r.userId !in UserIds(recs)
    ensures FirstProfile(recs + [r], r.userId) == r.profile
  {
    if recs != [] {
      assert (recs + [r])[1..] == recs[1..] + [r];
      assert recs[0].userId == UserIds(recs)[0];
      assert UserIds(recs) == [recs[0].userId] + UserIds(recs[1..]);
      FirstProfileNew(recs[1..], r);
    } else {
      assert recs + [r] == [r];
    }
  }

  predicate SortedByPercentage(ps: seq<Performer>) {
    forall i, j :: 0 <= i < j < |ps| ==> ps[i].onTimePercentage >= ps[j].onTimePercentage
  }

  predicate DistinctUsers(ps: seq<Performer>) {
    forall i, j :: 0 <= i < j < |ps| ==> ps[i].userId != ps[j].userId
  }

  /** Insert into a list sorted by percentage, non-increasing, ahead of the first entry that
      does not beat it. */
  function Insert(x: Performer, s: seq<Performer>): (r: seq<Performer>)
    ensures |r| == |s| + 1
    ensures multiset(r) == multiset(s) + multiset{x}
    ensures forall e :: e in r <==> e == x || e in s
  {
    if s == [] then [x]
    else if x.onTimePercentage >= s[0].onTimePercentage then [x] + s
    else assert s == [s[0]] + s[1..]; [s[0]] + Insert(x, s[1..])
  }

  /** `sort((a, b) => b.onTimePercentage - a.onTimePercentage)`, stable. */
  function SortByPercentage(s: seq<Performer>): (r: seq<Performer>)
    ensures |r| == |s|
    ensures multiset(r) == multiset(s)
    ensures forall e :: e in r <==> e in s
  {
    if s == [] then [] else assert s == [s[0]] + s[1..]; Insert(s[0], SortByPercentage(s[1..]))
  }

  lemma {:induction false} InsertSorted(x: Performer, s: seq<Performer>)
    requires SortedByPercentage(s)
    ensures SortedByPercentage(Insert(x, s))
  {
    if s != [] && x.onTimePercentage < s[0].onTimePercentage {
      InsertSorted(x, s[1..]);
      var r := Insert(x, s[1..]);
      forall e | e in r ensures e.onTimePercentage <= s[0].onTimePercentage {
        if e != x {
          var k :| 0 <= k < |s[1..]| && s[1..][k] == e;
          assert s[k + 1] == e;
        }
      }
      assert Insert(x, s) == [s[0]] + r;
      forall i, j | 0 <= i < j < |[s[0]] + r|
        ensures ([s[0]] + r)[i].onTimePercentage >= ([s[0]] + r)[j].onTimePercentage
      {
        if i == 0 {
          assert ([s[0]] + r)[j] == r[j - 1];
          assert r[j - 1] in r;
        }
      }
    }
  }

  lemma {:induction false} InsertDistinct(x: Performer, s: seq<Performer>)
    requires DistinctUsers(s)
    requires forall e :: e in s ==> e.userId != x.userId
    ensures DistinctUsers(Insert(x, s))
  {
    if s != [] && x.onTimePercentage < s[0].onTimePercentage {
      assert forall e :: e in s[1..] ==> e in s;
      InsertDistinct(x, s[1..]);
      var r := Insert(x, s[1..]);
      forall e | e in r ensures e.userId != s[0].userId {
        if e != x {
          var k :| 0 <= k < |s[1..]| && s[1..][k] == e;
          assert s[k + 1] == e;
        }
      }
      forall i, j | 0 <= i < j < |[s[0]] + r|
        ensures ([s[0]] + r)[i].userId != ([s[0]] + r)[j].userId
      {
        if i == 0 {
          assert ([s[0]] + r)[j] == r[j - 1];
          assert r[j - 1] in r;
        }
      }
    } else if s != [] {
      forall i, j | 0 <= i < j < |[x] + s|
        ensures ([x] + s)[i].userId != ([x] + s)[j].userId
      {
        if i == 0 {
          assert ([x] + s)[j] in s;
        }
      }
    }
  }

  /** The sort orders by percentage, non-increasing, and keeps distinct users distinct. */
  lemma {:induction false} SortSpec(s: seq<Performer>)
    ensures SortedByPercentage(SortByPercentage(s))
    ensures DistinctUsers(s) ==> DistinctUsers(SortByPercentage(s))
  {
    if s != [] {
      SortSpec(s[1..]);
      InsertSorted(s[0], SortByPercentage(s[1..]));
      if DistinctUsers(s) {
        forall e | e in SortByPercentage(s[1..]) ensures e.userId != s[0].userId {
          var k :| 0 <= k < |s[1..]| && s[1..][k] == e;
          assert s[k + 1] == e;
        }
        assert DistinctUsers(s[1..]);
        InsertDistinct(s[0], SortByPercentage(s[1..]));
      }
    }
  }

  function Min(a: int, b: int): int { if a <= b then a else b }

  /** The ranking entry of a user. */
  function PerformerOf(recs: seq<CheckIn>, id: string): Performer
    requires id in UserIds(recs)
  {
    OccurrencesPositive(UserIds(recs), id);
    Performer(id, FirstProfile(recs, id),
      RoundPercent(OnTimeDays(recs, id), Occurrences(UserIds(recs), id)),
      Occurrences(UserIds(recs), id))
  }

  /** The accumulator entry after one more check-in of its user: created on the user's first
      check-in, then one more day, and one more on-time day when not late. */
  function Bumped(acc: map<string, Tally>, r: CheckIn): Tally {
    var t := if r.userId in acc then acc[r.userId] else Tally(r.profile, 0, 0);
    t.(totalDays := t.totalDays + 1, onTimeDays := if !r.isLate then t.onTimeDays + 1 else t.onTimeDays)
  }

  /** The accumulator after the check-ins `recs`, one check-in at a time. */
  function TallyMap(recs: seq<CheckIn>): map<string, Tally>
  {
    if recs == [] then map[]
    else
      var m := TallyMap(recs[..|recs| - 1]);
      m[recs[|recs| - 1].userId := Bumped(m, recs[|recs| - 1])]
  }

  /** The accumulator has a key exactly for each user with a check-in. */
  lemma {:induction false} TallyMapKeys(recs: seq<CheckIn>, k: string)
    ensures k in TallyMap(recs) <==> k in UserIds(recs)
  {
    if recs != [] {
      var init, r := recs[..|recs| - 1], recs[|recs| - 1];
      TallyMapKeys(init, k);
      assert UserIds(recs) == UserIds(init) + [r.userId];
    }
  }

  /** One more check-in adds one to its user's count and, when on time, to their on-time count. */
  lemma CountsSnoc(recs: seq<CheckIn>, k: string)
    requires recs != []
    ensures Occurrences(UserIds(recs), k) ==
      Occurrences(UserIds(recs[..|recs| - 1]), k) + (if recs[|recs| - 1].userId == k then 1 else 0)
    ensures OnTimeDays(recs, k) ==
      OnTimeDays(recs[..|recs| - 1], k) + (if recs[|recs| - 1].userId == k && !recs[|recs| - 1].isLate then 1 else 0)
  {
    assert UserIds(recs)[..|recs| - 1] == UserIds(recs[..|recs| - 1]);
  }

  /** Each user's entry holds the profile of their first check-in, their check-in count and
      their on-time count. */
  lemma {:induction false} TallyMapAt(recs: seq<CheckIn>, k: string)
    ensures k in TallyMap(recs) <==> k in UserIds(recs)
    ensures k in TallyMap(recs) ==>
      TallyMap(recs)[k] == Tally(FirstProfile(recs, k), Occurrences(UserIds(recs), k), OnTimeDays(recs, k))
  {
    TallyMapKeys(recs, k);
    if recs != [] {
      var init, r := recs[..|recs| - 1], recs[|recs| - 1];
      TallyMapAt(init, k);
      CountsSnoc(recs, k);
      assert recs == init + [r];
      var m := TallyMap(init);
      assert TallyMap(recs) == m[r.userId := Bumped(m, r)];
      if k != r.userId {
        if k in UserIds(init) {
          FirstProfileSnoc(init, r, k);
        }
      } else if k in m {
        FirstProfileSnoc(init, r, k);
      } else {
        FirstProfileNew(init, r);
        OccurrencesPositive(UserIds(init), k);
      }
    }
  }

  /** The `reduce` into a per-user accumulator over the month's check-ins; `keys` is the key
      order of the accumulator object. */
  method TallyCheckIns(recs: seq<CheckIn>) returns (acc: map<string, Tally>, keys: seq<string>)
    ensures acc == TallyMap(recs) && keys == Distinct(UserIds(recs))
  {
    acc, keys := map[], [];
    var i := 0;
    while i < |recs|
      invariant 0 <= i <= |recs|
      invariant acc == TallyMap(recs[..i]) && keys == Distinct(UserIds(recs[..i]))
    {
      var r := recs[i];
      assert recs[..i + 1][..i] == recs[..i];
      assert UserIds(recs[..i + 1])[..i] == UserIds(recs[..i]);
      TallyMapAt(recs[..i], r.userId);
      DistinctSpec(UserIds(recs[..i]));
      if r.userId !in acc {
        keys := keys + [r.userId];
      }
      acc := acc[r.userId := Bumped(acc, r)];
      i := i + 1;
    }
    assert recs[..i] == recs;
  }

  /** `.sort(...)` by on-time percentage, then `.slice(0, 5)`. */
  function Ranked(ps: seq<Performer>): seq<Performer> {
    SortByPercentage(ps)[..Min(5, |ps|)]
  }

  /** The ranking keeps at most five entries, in non-increasing order, all from the input and
      with distinct users when the input's are. */
  lemma RankedSpec(ps: seq<Performer>)
    ensures |Ranked(ps)| == Min(5, |ps|)
    ensures SortedByPercentage(Ranked(ps))
    ensures DistinctUsers(ps) ==> DistinctUsers(Ranked(ps))
    ensures forall e :: e in Ranked(ps) ==> e in ps
  {
    SortSpec(ps);
    var sorted := SortByPercentage(ps);
    assert forall e :: e in Ranked(ps) ==> e in sorted;
  }

  /** An entry left out of the ranking beats none that was kept. */
  lemma RankedKeepsBest(ps: seq<Performer>)
    ensures forall p :: p in ps && p !in Ranked(ps) ==>
      forall k :: 0 <= k < |Ranked(ps)| ==> Ranked(ps)[k].onTimePercentage >= p.onTimePercentage
  {
    var sorted := SortByPercentage(ps);
    SortSpec(ps);
    var top := Ranked(ps);
    forall p | p in ps && p !in top
      ensures forall k :: 0 <= k < |top| ==> top[k].onTimePercentage >= p.onTimePercentage
    {
      var m :| 0 <= m < |sorted| && sorted[m] == p;
      assert m >= |top|;
    }
  }

  /** `Object.values(acc).map(...)`: each user's entry with its on-time percentage. */
  function FromTally(acc: map<string, Tally>, keys: seq<string>): (ps: seq<Performer>)
    requires forall k :: k in keys ==> k in acc && acc[k].totalDays > 0
    ensures |ps| == |keys|
  {
    seq(|keys|, j requires 0 <= j < |keys| =>
      Performer(keys[j], acc[keys[j]].profile,
        RoundPercent(acc[keys[j]].onTimeDays, acc[keys[j]].totalDays), acc[keys[j]].totalDays))
  }

  /** Read off the finished accumulator, every user's entry is its ranking entry, and the users
      are distinct. */
  lemma FromTallyEntries(recs: seq<CheckIn>, acc: map<string, Tally>, keys: seq<string>)
    requires acc == TallyMap(recs) && keys == Distinct(UserIds(recs))
    ensures forall k :: k in keys ==> k in acc && acc[k].totalDays > 0
    ensures forall j :: 0 <= j < |keys| ==> keys[j] in UserIds(recs) && FromTally(acc, keys)[j] == PerformerOf(recs, keys[j])
    ensures DistinctUsers(FromTally(acc, keys))
  {
    DistinctSpec(UserIds(recs));
    forall k | k in keys ensures k in acc && acc[k].totalDays > 0 {
      TallyMapAt(recs, k);
      OccurrencesPositive(UserIds(recs), k);
    }
    forall j | 0 <= j < |keys|
      ensures FromTally(acc, keys)[j] == PerformerOf(recs, keys[j])
    {
      TallyMapAt(recs, keys[j]);
    }
  }

  /** The top performers of the check-ins `recs`: min(5, number of users) entries, one per
      user, sorted by on-time percentage, each with that user's figures; a user left out beats
      no one shown. */
  ghost predicate TopFive(recs: seq<CheckIn>, top: seq<Performer>) {
    && |top| == Min(5, |Distinct(UserIds(recs))|)
    && SortedByPercentage(top)
    && DistinctUsers(top)
    && (forall k :: 0 <= k < |top| ==>
          top[k].userId in UserIds(recs) && top[k] == PerformerOf(recs, top[k].userId))
    && (forall id :: id in UserIds(recs) && (forall k :: 0 <= k < |top| ==> top[k].userId != id) ==>
          forall k :: 0 <= k < |top| ==> top[k].onTimePercentage >= PerformerOf(recs, id).onTimePercentage)
  }

  /** Ranking the entries of all users, in first-check-in order. */
  lemma RankingSpec(recs: seq<CheckIn>, ps: seq<Performer>)
    requires |ps| == |Distinct(UserIds(recs))| && DistinctUsers(ps)
    requires forall j :: 0 <= j < |ps| ==>
      Distinct(UserIds(recs))[j] in UserIds(recs) && ps[j] == PerformerOf(recs, Distinct(UserIds(recs))[j])
    ensures TopFive(recs, Ranked(ps))
  {
    var keys := Distinct(UserIds(recs));
    DistinctSpec(UserIds(recs));
    var top := Ranked(ps);
    RankedSpec(ps);
    RankedKeepsBest(ps);
    forall k | 0 <= k < |top|
      ensures top[k].userId in UserIds(recs) && top[k] == PerformerOf(recs, top[k].userId)
    {
      assert top[k] in top;
      var j :| 0 <= j < |ps| && ps[j] == top[k];
    }
    forall id | id in UserIds(recs) && (forall k :: 0 <= k < |top| ==> top[k].userId != id)
      ensures forall k :: 0 <= k < |top| ==> top[k].onTimePercentage >= PerformerOf(recs, id).onTimePercentage
    {
      var j :| 0 <= j < |keys| && keys[j] == id;
      assert ps[j] in ps;
      assert ps[j] !in top;
    }
  }

  /** The top performers of the month: per user the on-time percentage of their check-ins, the
      five best, best first. A user left out does not beat anyone shown. */
  method TopPerformers(data: Option<seq<CheckIn>>) returns (top: seq<Performer>)
    ensures TopFive(OrEmpty(data), top)
  {
    var recs := OrEmpty(data);
    var acc, keys := TallyCheckIns(recs);
    FromTallyEntries(recs, acc, keys);
    var performers := FromTally(acc, keys);
    RankingSpec(recs, performers);
    top := Ranked(performers);
  }

  /** Every ranked user has at least one check-in, and no more on-time days than days, so its
      percentage lies in 0..100. */
  lemma PerformerFigures(recs: seq<CheckIn>, id: string)
    requires id in UserIds(recs)
    ensures PerformerOf(recs, id).totalDays >= 1
    ensures OnTimeDays(recs, id) <= PerformerOf(recs, id).totalDays
    ensures 0 <= PerformerOf(recs, id).onTimePercentage <= 100
  {
    OccurrencesPositive(UserIds(recs), id);
    RoundPercentBounds(OnTimeDays(recs, id), Occurrences(UserIds(recs), id));
  }

  // ---------------------------------------------------------------- alerts

  /** An unresolved warning with its user's name. */
  datatype WarningRow = WarningRow(name: Option<string>, warningType: string, level: int)

  /** A late check-in of today with its user's name. */
  datatype LateRow = LateRow(name: Option<string>, lateMinutes: int)

  datatype AlertKind = WarningAlert | LateAlert

  datatype Alert = Alert(kind: AlertKind, subject: Option<string>, severity: int)

  /** Over 30 minutes late is severity 3, over 15 is 2, anything else 1. */
  function LateSeverity(minutes: int): (s: int)
    ensures 1 <= s <= 3
  {
    if minutes > 30 then 3 else if minutes > 15 then 2 else 1
  }

  /** A later arrival is never a lower severity. */
  lemma LateSeverityMonotone(m1: int, m2: int)
    requires m1 <= m2
    ensures LateSeverity(m1) <= LateSeverity(m2)
  {
  }

  function WarningAlerts(ws: seq<WarningRow>): (r: seq<Alert>)
    ensures |r| == |ws|
    ensures forall i :: 0 <= i < |ws| ==> r[i] == Alert(WarningAlert, ws[i].name, ws[i].level)
  {
    seq(|ws|, i requires 0 <= i < |ws| => Alert(WarningAlert, ws[i].name, ws[i].level))
  }

  function LateAlerts(ls: seq<LateRow>): (r: seq<Alert>)
    ensures |r| == |ls|
    ensures forall i :: 0 <= i < |ls| ==> r[i] == Alert(LateAlert, ls[i].name, LateSeverity(ls[i].lateMinutes))
  {
    seq(|ls|, i requires 0 <= i < |ls| => Alert(LateAlert, ls[i].name, LateSeverity(ls[i].lateMinutes)))
  }

  /** The warnings' alerts, then the late arrivals', cut to five: every warning comes before
      every late entry, the warnings keep their order and level and the late entries their
      order, each with its late-minute severity. */
  function MergeAlerts(warnings: Option<seq<WarningRow>>, lates: Option<seq<LateRow>>): (r: seq<Alert>)
    ensures var ws, ls := OrEmpty(warnings), OrEmpty(lates);
      && |r| == Min(5, |ws| + |ls|)
      && (forall i, j :: 0 <= i < j < |r| && r[i].kind == LateAlert ==> r[j].kind == LateAlert)
      && (forall i :: 0 <= i < |r| && i < |ws| ==> r[i] == Alert(WarningAlert, ws[i].name, ws[i].level))
      && (forall i :: 0 <= i < |r| && i >= |ws| ==>
            r[i] == Alert(LateAlert, ls[i - |ws|].name, LateSeverity(ls[i - |ws|].lateMinutes)))
  {
    var all := WarningAlerts(OrEmpty(warnings)) + LateAlerts(OrEmpty(lates));
    all[..Min(5, |all|)]
  }

  datatype Tone = Red | Orange | Yellow

  /** The colour class of an alert: severity 3 red, 2 orange, anything else yellow. */
  function AlertTone(severity: int): Tone {
    if severity == 3 then Red else if severity == 2 then Orange else Yellow
  }

  /** A late arrival is shown red exactly when it is over 30 minutes late, orange when over 15,
      and yellow otherwise. */
  lemma LateTone(minutes: int)
    ensures AlertTone(LateSeverity(minutes)) == Red <==> minutes > 30
    ensures AlertTone(LateSeverity(minutes)) == Orange <==> 15 < minutes <= 30
    ensures AlertTone(LateSeverity(minutes)) == Yellow <==> minutes <= 15
  {
  }

  // ---------------------------------------------------------------- the page

  /** Everything the dashboard's queries return. `chartQuery` gives a day's rows; `today` is
      that day's number. */
  datatype DashboardData = DashboardData(
    employees: Option<seq<Employee>>, todayAttendance: Option<seq<Attendance>>,
    monthlyAttendance: Option<seq<Attendance>>, payments: Option<seq<Payment>>,
    recent: Option<seq<Attendance>>, today: int, chartQuery: int -> Option<seq<Attendance>>,
    activeEmployees: Option<seq<Employee>>, monthCheckIns: Option<seq<CheckIn>>,
    warnings: Option<seq<WarningRow>>, lates: Option<seq<LateRow>>)

  class AdminPanelPage {
    var loading: bool
    var currentUser: Option<string>
    var stats: DashboardStats
    var recentActivities: seq<Attendance>
    var attendanceChart: seq<ChartPoint>
    var departmentStats: seq<DeptStat>
    var topPerformers: seq<Performer>
    var alerts: seq<Alert>

    constructor ()
      ensures loading && currentUser == None
      ensures stats == DashboardStats(0, 0, 0, 0, 0, 0, 0, 0, 0)
      ensures recentActivities == [] && attendanceChart == [] && departmentStats == []
      ensures topPerformers == [] && alerts == []
    {
      loading := true;
      currentUser := None;
      stats := DashboardStats(0, 0, 0, 0, 0, 0, 0, 0, 0);
      recentActivities := [];
      attendanceChart := [];
      departmentStats := [];
      topPerformers := [];
      alerts := [];
    }

    /** The page shows what the queries in `data` returned: the headline statistics, the
        recent activity, the chart, the department entries, the top performers and the alerts. */
    ghost predicate Shows(data: DashboardData)
      reads this
    {
      && stats == ComputeStats(data.employees, data.todayAttendance, data.monthlyAttendance, data.payments)
      && recentActivities == OrEmpty(data.recent)
      && attendanceChart == AttendanceChart(data.today, data.chartQuery)
      && DepartmentEntries(data.activeEmployees, departmentStats)
      && TopFive(OrEmpty(data.monthCheckIns), topPerformers)
      && alerts == MergeAlerts(data.warnings, data.lates)
    }

    /** The six fetches of an admitted admin. */
    method Load(data: DashboardData)
      modifies this
      ensures Shows(data)
      ensures loading == old(loading) && currentUser == old(currentUser)
    {
      var departments := GroupDepartments(data.activeEmployees);
      var performers := TopPerformers(data.monthCheckIns);
      stats, recentActivities, attendanceChart, departmentStats, topPerformers, alerts :=
        ComputeStats(data.employees, data.todayAttendance, data.monthlyAttendance, data.payments),
        OrEmpty(data.recent), AttendanceChart(data.today, data.chartQuery), departments, performers,
        MergeAlerts(data.warnings, data.lates);
    }

    /** The mount check: only an admin gets the dashboard filled; anyone else is sent away with
        the page untouched. Loading ends on every path. */
    method CheckAccess(user: Outcome<Option<string>>, profile: Outcome<Option<AccessGate.Profile>>,
                       data: DashboardData)
      returns (navigateTo: Option<string>)
      modifies this
      ensures !loading
      ensures var d := AccessGate.Gate(user, profile);
        && (d.NavigateTo? ==>
              (navigateTo == Some(d.path) && currentUser == old(currentUser) && stats == old(stats)
               && recentActivities == old(recentActivities) && attendanceChart == old(attendanceChart)
               && departmentStats == old(departmentStats) && topPerformers == old(topPerformers)
               && alerts == old(alerts)))
        && (d.Admitted? ==> navigateTo == None && currentUser == Some(d.userId) && Shows(data))
    {
      var d := AccessGate.Gate(user, profile);
      if d.NavigateTo? {
        navigateTo := Some(d.path);
      } else {
        navigateTo := None;
        currentUser := Some(d.userId);
        Load(data);
      }
      loading := false;
    }
  }
}
