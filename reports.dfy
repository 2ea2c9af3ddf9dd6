/**
 * The report endpoints of `app/api/reports.py`: the dashboard counters and
 * the bounds of the current week, the partition of the patients by the
 * state of their bilan, and the accumulation of the notification counts by
 * type and by status.
 */
module Reports {
  import opened Common
  import opened Schema
  import opened Calendar
  import opened PatientModel
  import opened NotificationModel

  /** A set holding exactly the elements of a strictly increasing sequence is as large as it. */
  lemma {:induction false} IncreasingCard(s: seq<nat>, elems: set<nat>)
    requires forall i, j :: 0 <= i < j < |s| ==> s[i] < s[j]
    requires forall x :: x in elems <==> x in s
    ensures |elems| == |s|
    decreases |s|
  {
    if s != [] {
      var init := s[..|s| - 1];
      var last := s[|s| - 1];
      assert last in elems;
      forall x
        ensures x in elems - {last} <==> x in init
      {
        if x in init {
          var i :| 0 <= i < |init| && init[i] == x;
          assert s[i] == x;
        }
        if x in elems && x != last {
          var i :| 0 <= i < |s| && s[i] == x;
          assert init[i] == x;
        }
      }
      IncreasingCard(init, elems - {last});
    }
  }

  /** `query.count()` without a filter is the number of rows. */
  lemma SelectAllCount<T>(m: map<nat, T>, n: nat)
    requires forall k :: k in m ==> k < n
    ensures |Select(m, n, Everything())| == |m|
  {
    var r := Select(m, n, Everything());
    IncreasingCard(r, m.Keys);
  }

  /** Rows that pass `p` are the ones that also pass `q` and the ones that do not. */
  lemma {:induction false} SelectSplit<T>(m: map<nat, T>, n: nat, p: nat -> bool, pq: nat -> bool, pnq: nat -> bool, q: nat -> bool)
    requires forall k :: k in m && k < n ==> pq(k) == (p(k) && q(k)) && pnq(k) == (p(k) && !q(k))
    ensures |Select(m, n, p)| == |Select(m, n, pq)| + |Select(m, n, pnq)|
  {
    if n > 0 {
      SelectSplit(m, n - 1, p, pq, pnq, q);
    }
  }

  /** `today - timedelta(days=today.weekday())`. */
  function WeekStart(today: Date): Date {
    today - Weekday(today)
  }

  /** `week_start + timedelta(days=6)`. */
  function WeekEnd(today: Date): Date {
    WeekStart(today) + 6
  }

  /**
   * The week runs from the Monday on or before today to the Sunday six days
   * later; no later Monday comes before today.
   */
  lemma WeekBounds(today: Date)
    ensures Weekday(WeekStart(today)) == 0
    ensures WeekStart(today) <= today <= WeekEnd(today)
    ensures WeekEnd(today) == WeekStart(today) + 6 && Weekday(WeekEnd(today)) == 6
    ensures forall d :: WeekStart(today) < d <= today ==> Weekday(d) != 0
  {
    forall d | WeekStart(today) < d <= today
      ensures Weekday(d) != 0
    {
      assert Weekday(d) == Weekday(today) - (today - d);
    }
  }

  /** Every day of a week falls in the week of its Monday. */
  lemma SameWeek(today: Date, d: Date)
    requires WeekStart(today) <= d <= WeekEnd(today)
    ensures WeekStart(d) == WeekStart(today)
  {
  }

  /** The counters of `dashboard()`. */
  datatype Dashboard = Dashboard(
    totalPatients: nat,
    patientsNeedingBilan: nat,
    todayAppointments: nat,
    weekAppointments: nat,
    pendingNotifications: nat,
    upcomingBilans: nat)

  /** Scheduled appointments on `today`. */
  function TodayFilter(db: Db, today: Date): nat -> bool {
    k => k in db.appointments && db.appointments[k].date == today && db.appointments[k].status == Scheduled
  }

  /** Scheduled appointments between `week_start` and `week_end`, both included. */
  function WeekFilter(db: Db, today: Date): nat -> bool {
    k => k in db.appointments && WeekStart(today) <= db.appointments[k].date <= WeekEnd(today)
         && db.appointments[k].status == Scheduled
  }

  /** Scheduled bilans from today on. */
  function UpcomingBilanFilter(db: Db, today: Date): nat -> bool {
    k => k in db.appointments && db.appointments[k].date >= today && db.appointments[k].isBilan
         && db.appointments[k].status == Scheduled
  }

  /** `dashboard()` on the day `today` with the `max_days` argument. */
  function DashboardOf(db: Db, today: Date, maxDays: int): Dashboard {
    Dashboard(
      |db.patients|,
      |DuePatients(db, today, maxDays)|,
      |Select(db.appointments, db.nextAppointment, TodayFilter(db, today))|,
      |Select(db.appointments, db.nextAppointment, WeekFilter(db, today))|,
      |GetPending(db)|,
      |Select(db.appointments, db.nextAppointment, UpcomingBilanFilter(db, today))|)
  }

  /**
   * The patients due for a bilan are some of the patients, today's
   * appointments are some of the week's, and the pending notifications are
   * some of the notifications.
   */
  lemma DashboardBounds(db: Db, today: Date, maxDays: int)
    requires Wf(db)
    ensures var d := DashboardOf(db, today, maxDays);
            && d.patientsNeedingBilan <= d.totalPatients
            && d.todayAppointments <= d.weekAppointments
            && d.pendingNotifications <= |db.notifications|
  {
    SelectMonotone(db.patients, db.nextPatient, DueFilter(db, today, maxDays), Everything());
    SelectAllCount(db.patients, db.nextPatient);
    WeekBounds(today);
    SelectMonotone(db.appointments, db.nextAppointment, TodayFilter(db, today), WeekFilter(db, today));
    SelectMonotone(db.notifications, db.nextNotification, PendingFilter(db), Everything());
    SelectAllCount(db.notifications, db.nextNotification);
  }

  /** The counters of `bilan_status()`, without the rounded percentage. */
  datatype BilanStatus = BilanStatus(
    totalPatients: nat,
    withValidBilan: nat,
    withoutValidBilan: nat,
    withUpcomingBilan: nat,
    needingWithoutAppointment: int)

  /** `last_bilan_date != None AND today - last_bilan_date < max_days`. */
  function ValidFilter(db: Db, today: Date, maxDays: int): nat -> bool {
    k => k in db.patients && db.patients[k].lastBilanDate.Some?
         && today - db.patients[k].lastBilanDate.value < maxDays
  }

  /** The patient has a scheduled bilan on `today` or later. */
  predicate HasUpcomingBilan(db: Db, patient: nat, today: Date) {
    exists k :: k in db.appointments && db.appointments[k].patientId == patient && db.appointments[k].date >= today
                && db.appointments[k].isBilan && db.appointments[k].status == Scheduled
  }

  /** The join with the appointments, made `distinct()` on the patient id. */
  function DueWithBilanFilter(db: Db, today: Date, maxDays: int): nat -> bool {
    (k: nat) => DueFilter(db, today, maxDays)(k) && HasUpcomingBilan(db, k, today)
  }

  /** The due patients with no scheduled bilan ahead. */
  function DueWithoutBilanFilter(db: Db, today: Date, maxDays: int): nat -> bool {
    (k: nat) => DueFilter(db, today, maxDays)(k) && !HasUpcomingBilan(db, k, today)
  }

  /** `bilan_status()` on the day `today` with the `max_days` argument. */
  function BilanStatusOf(db: Db, today: Date, maxDays: int): BilanStatus {
    var without := |Select(db.patients, db.nextPatient, DueFilter(db, today, maxDays))|;
    var upcoming := |Select(db.patients, db.nextPatient, DueWithBilanFilter(db, today, maxDays))|;
    BilanStatus(|db.patients|, |Select(db.patients, db.nextPatient, ValidFilter(db, today, maxDays))|,
                without, upcoming, without - upcoming)
  }

  /**
   * Every patient has a valid bilan or not, never both; the patients with a
   * bilan scheduled are among those without a valid one, and the difference
   * the report computes counts exactly the due patients with no bilan
   * scheduled, so it is never negative.
   */
  lemma BilanStatusPartition(db: Db, today: Date, maxDays: int)
    requires Wf(db)
    ensures var r := BilanStatusOf(db, today, maxDays);
            && r.withValidBilan + r.withoutValidBilan == r.totalPatients
            && r.withUpcomingBilan <= r.withoutValidBilan
            && r.needingWithoutAppointment == |Select(db.patients, db.nextPatient, DueWithoutBilanFilter(db, today, maxDays))|
            && 0 <= r.needingWithoutAppointment <= r.withoutValidBilan
            && r.withoutValidBilan == |DuePatients(db, today, maxDays)|
  {
    var due := DueFilter(db, today, maxDays);
    SelectPartition(db.patients, db.nextPatient, ValidFilter(db, today, maxDays), due);
    SelectAllCount(db.patients, db.nextPatient);
    SelectSplit(db.patients, db.nextPatient, due, DueWithBilanFilter(db, today, maxDays),
                DueWithoutBilanFilter(db, today, maxDays), (k: nat) => HasUpcomingBilan(db, k, today));
  }

  /** One row of the `GROUP BY type, status` query: a type, a status and how many notifications have both. */
  datatype StatRow = StatRow(kind: string, status: string, count: nat)

  /** The `result` dictionary of `notification_stats()`. */
  datatype Stats = Stats(total: int, byType: map<string, map<string, int>>, byStatus: map<string, int>)

  /** The three statuses `by_status` starts with, at zero. */
  const StatusesAtZero: map<string, int> := map[Sent := 0, Pending := 0, Failed := 0]

  /** A type's entry when it is first met. */
  const TypeAtZero: map<string, int> := map["total" := 0, Sent := 0, Pending := 0, Failed := 0]

  const NoStats: Stats := Stats(0, map[], StatusesAtZero)

  /**
   * One iteration of the loop: `None` when `result['by_status'][status]`
   * raises `KeyError` for a status outside the three.
   */
  function StatStep(st: Stats, row: StatRow): Option<Stats> {
    if row.status !in st.byStatus then None
    else
      var entry := if row.kind in st.byType then st.byType[row.kind] else TypeAtZero;
      var total := if "total" in entry then entry["total"] else 0;
      var entry' := entry["total" := total + row.count][row.status := row.count];
      Some(Stats(st.total + row.count, st.byType[row.kind := entry'], st.byStatus[row.status := st.byStatus[row.status] + row.count]))
  }

  /** The loop over the rows, in order; `None` once a row has failed. */
  function Tally(rows: seq<StatRow>): Option<Stats>
    decreases |rows|
  {
    if rows == [] then Some(NoStats)
    else
      match Tally(rows[..|rows| - 1])
      case None => None
      case Some(st) => StatStep(st, rows[|rows| - 1])
  }

  /** The sum of the counts of the rows that satisfy `keep`. */
  function SumWhere(rows: seq<StatRow>, keep: StatRow -> bool): nat
    decreases |rows|
  {
    if rows == [] then 0
    else SumWhere(rows[..|rows| - 1], keep) + if keep(rows[|rows| - 1]) then rows[|rows| - 1].count else 0
  }

  /** One of the statuses `by_status` knows. */
  predicate KnownStatus(status: string) {
    status == Sent || status == Pending || status == Failed
  }

  /** Appending a row adds its count to the sum when it is kept. */
  lemma SumSnoc(rows: seq<StatRow>, row: StatRow, keep: StatRow -> bool)
    ensures SumWhere(rows + [row], keep) == SumWhere(rows, keep) + if keep(row) then row.count else 0
  {
    assert (rows + [row])[..|rows|] == rows;
  }

  /** Some row of `rows` has the type `t`. */
  predicate SeenKind(rows: seq<StatRow>, t: string) {
    exists i :: 0 <= i < |rows| && rows[i].kind == t
  }

  /** Rows of which none has the type `t` add nothing to its total. */
  lemma {:induction false} NoneOfKind(rows: seq<StatRow>, t: string)
    requires !SeenKind(rows, t)
    ensures SumWhere(rows, (r: StatRow) => r.kind == t) == 0
    decreases |rows|
  {
    if rows != [] {
      NoneOfKind(rows[..|rows| - 1], t);
    }
  }

  /** The grand total and the counters by status. */
  ghost predicate StatusAccounts(rows: seq<StatRow>, st: Stats) {
    && st.total == SumWhere(rows, (_: StatRow) => true)
    && st.byStatus.Keys == StatusesAtZero.Keys
    && forall s :: s in st.byStatus ==> st.byStatus[s] == SumWhere(rows, (r: StatRow) => r.status == s)
  }

  /** The entries by type: one per type seen, each holding that type's total. */
  ghost predicate KindAccounts(rows: seq<StatRow>, st: Stats) {
    && (forall t :: t in st.byType <==> SeenKind(rows, t))
    && forall t :: t in st.byType ==>
         (st.byType[t].Keys == TypeAtZero.Keys && st.byType[t]["total"] == SumWhere(rows, (r: StatRow) => r.kind == t))
  }

  /** What the result holds after the rows `rows`, all with a known status. */
  ghost predicate Accounts(rows: seq<StatRow>, st: Stats) {
    StatusAccounts(rows, st) && KindAccounts(rows, st)
  }

  lemma StepStatusAccounts(rows: seq<StatRow>, st: Stats, row: StatRow)
    requires StatusAccounts(rows, st) && KnownStatus(row.status)
    ensures StatStep(st, row).Some? && StatusAccounts(rows + [row], StatStep(st, row).value)
  {
    var st' := StatStep(st, row).value;
    SumSnoc(rows, row, (_: StatRow) => true);
    forall s | s in st'.byStatus
      ensures st'.byStatus[s] == SumWhere(rows + [row], (r: StatRow) => r.status == s)
    {
      SumSnoc(rows, row, (r: StatRow) => r.status == s);
    }
  }

  lemma SeenKindSnoc(rows: seq<StatRow>, row: StatRow, t: string)
    ensures SeenKind(rows + [row], t) <==> SeenKind(rows, t) || row.kind == t
  {
    var rs := rows + [row];
    if SeenKind(rows, t) {
      var i :| 0 <= i < |rows| && rows[i].kind == t;
      assert rs[i] == rows[i];
    }
    if row.kind == t {
      assert rs[|rows|] == row;
    }
    if SeenKind(rs, t) && row.kind != t {
      var i :| 0 <= i < |rs| && rs[i].kind == t;
      assert rows[i] == rs[i];
    }
  }

  lemma StepKindAccounts(rows: seq<StatRow>, st: Stats, row: StatRow)
    requires KindAccounts(rows, st) && row.status in st.byStatus && KnownStatus(row.status)
    ensures StatStep(st, row).Some? && KindAccounts(rows + [row], StatStep(st, row).value)
  {
    var rs := rows + [row];
    var st' := StatStep(st, row).value;
    forall t
      ensures t in st'.byType <==> SeenKind(rs, t)
    {
      SeenKindSnoc(rows, row, t);
    }
    forall t | t in st'.byType
      ensures st'.byType[t].Keys == TypeAtZero.Keys && st'.byType[t]["total"] == SumWhere(rs, (r: StatRow) => r.kind == t)
    {
      SumSnoc(rows, row, (r: StatRow) => r.kind == t);
      if t == row.kind && t !in st.byType {
        NoneOfKind(rows, t);
      }
    }
  }

  /**
   * The report fails exactly when some row has a status other than sent,
   * pending or failed; otherwise the total is the sum of all counts, each
   * status's counter the sum of its rows, and each type met has an entry
   * whose total is the sum of that type's rows.
   */
  lemma {:induction false} TallyAccounts(rows: seq<StatRow>)
    ensures Tally(rows).Some? <==> forall i :: 0 <= i < |rows| ==> KnownStatus(rows[i].status)
    ensures Tally(rows).Some? ==> Accounts(rows, Tally(rows).value)
    decreases |rows|
  {
    if rows == [] {
      assert Accounts(rows, NoStats);
    } else {
      var init := rows[..|rows| - 1];
      var last := rows[|rows| - 1];
      TallyAccounts(init);
      assert rows == init + [last];
      if Tally(init).Some? {
        if KnownStatus(last.status) {
          StepStatusAccounts(init, Tally(init).value, last);
          StepKindAccounts(init, Tally(init).value, last);
        } else {
          assert Tally(init).value.byStatus.Keys == StatusesAtZero.Keys;
        }
      }
      forall i | 0 <= i < |init|
        ensures init[i] == rows[i]
      {
      }
    }
  }

  /** `by_type[type][status]` is the count of the last row with that type and status. */
  lemma {:induction false} TallyLastRow(rows: seq<StatRow>, i: nat)
    requires Tally(rows).Some? && i < |rows|
    requires forall j :: i < j < |rows| ==> rows[j].kind != rows[i].kind || rows[j].status != rows[i].status
    ensures rows[i].kind in Tally(rows).value.byType
    ensures rows[i].status in Tally(rows).value.byType[rows[i].kind]
    ensures Tally(rows).value.byType[rows[i].kind][rows[i].status] == rows[i].count
    decreases |rows|
  {
    var init := rows[..|rows| - 1];
    var last := rows[|rows| - 1];
    var st := Tally(init).value;
    assert Tally(rows) == StatStep(st, last);
    if i < |init| {
      forall j | i < j < |init|
        ensures init[j].kind != init[i].kind || init[j].status != init[i].status
      {
        assert init[j] == rows[j] && init[i] == rows[i];
      }
      TallyLastRow(init, i);
      assert init[i] == rows[i];
      TallyAccounts(rows);
      assert KnownStatus(rows[i].status);
    }
  }

  /** Once a row has failed, the whole loop has failed. */
  lemma {:induction false} TallyStaysFailed(rows: seq<StatRow>, n: nat)
    requires n <= |rows| && Tally(rows[..n]).None?
    ensures Tally(rows).None?
    decreases |rows| - n
  {
    if n < |rows| {
      assert rows[..n + 1][..n] == rows[..n];
      TallyStaysFailed(rows, n + 1);
    } else {
      assert rows[..n] == rows;
    }
  }

  /**
   * `notification_stats()` over the rows of the grouped query; `None` is the
   * `KeyError` that makes the request fail.
   */
  method NotificationStats(rows: seq<StatRow>) returns (result: Option<Stats>)
    ensures result == Tally(rows)
  {
    var total := 0;
    var byType: map<string, map<string, int>> := map[];
    var byStatus := StatusesAtZero;
    var i := 0;
    while i < |rows|
      invariant 0 <= i <= |rows|
      invariant Tally(rows[..i]) == Some(Stats(total, byType, byStatus))
    {
      var row := rows[i];
      ghost var before := Stats(total, byType, byStatus);
      assert rows[..i + 1][..i] == rows[..i];
      assert Tally(rows[..i + 1]) == StatStep(before, row);
      total := total + row.count;
      var entry := if row.kind in byType then byType[row.kind] else TypeAtZero;
      var kindTotal := if "total" in entry then entry["total"] else 0;
      byType := byType[row.kind := entry["total" := kindTotal + row.count][row.status := row.count]];
      if row.status !in byStatus {
        TallyStaysFailed(rows, i + 1);
        return None;
      }
      byStatus := byStatus[row.status := byStatus[row.status] + row.count];
      i := i + 1;
    }
    assert rows[..i] == rows;
    result := Some(Stats(total, byType, byStatus));
  }
}
