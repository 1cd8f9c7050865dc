/**
 * The dashboard routes over the metrics store: the latest system sample,
 * the volunteer list, one volunteer's details, the list of tasks, the
 * performance history window, and the two analytics summaries.
 *
 * Several routes insert demonstration rows when their query comes back
 * empty. The random values of those rows are inputs here (a `draw` per
 * row); their deterministic shape (how many rows, their identifiers and
 * timestamps) is modelled, together with the commit that stores them.
 */
module MetricsRoutes {
  import opened Common
  import opened Query
  import opened MetricsModel

  // ---------------------------------------------------------------- decimal formatting

  function DigitChar(d: nat): char
    requires d < 10
  {
    ('0' as int + d) as char
  }

  /** `f"{n:0wd}"`: the decimal digits of n, left-padded with zeros to at least w characters. */
  function PadDigits(n: nat, w: nat): (s: string)
    ensures |s| >= 1 && |s| >= w
    ensures forall i | 0 <= i < |s| :: '0' <= s[i] <= '9'
    decreases n + w
  {
    if n < 10 && w <= 1 then [DigitChar(n)]
    else PadDigits(n / 10, if w > 0 then w - 1 else 0) + [DigitChar(n % 10)]
  }

  /** The number a string of decimal digits denotes, leading zeros included. */
  function DecimalValue(s: string): nat
    requires forall i | 0 <= i < |s| :: '0' <= s[i] <= '9'
  {
    if s == [] then 0 else DecimalValue(s[..|s| - 1]) * 10 + (s[|s| - 1] as int - '0' as int)
  }

  /** Padding keeps the value: the digits read back as n. */
  lemma {:induction false} PadDigitsValue(n: nat, w: nat)
    ensures DecimalValue(PadDigits(n, w)) == n
    decreases n + w
  {
    if !(n < 10 && w <= 1) {
      var s := PadDigits(n, w);
      PadDigitsValue(n / 10, if w > 0 then w - 1 else 0);
      assert s[..|s| - 1] == PadDigits(n / 10, if w > 0 then w - 1 else 0);
    }
  }

  /** Different numbers give different codes under one prefix and one width. */
  lemma CodesDistinct(prefix: string, m: nat, n: nat, w: nat)
    requires m != n
    ensures prefix + PadDigits(m, w) != prefix + PadDigits(n, w)
  {
    var a, b := PadDigits(m, w), PadDigits(n, w);
    PadDigitsValue(m, w);
    PadDigitsValue(n, w);
    assert a != b;
    assert (prefix + a)[|prefix|..] == a;
    assert (prefix + b)[|prefix|..] == b;
  }

  /** Codes numbered 1 to n under one prefix and width are pairwise distinct. */
  lemma NumberedCodesDistinct(prefix: string, w: nat, n: nat)
    ensures forall i: nat, j: nat | 1 <= i < j <= n :: prefix + PadDigits(i, w) != prefix + PadDigits(j, w)
  {
    forall i: nat, j: nat | 1 <= i < j <= n ensures prefix + PadDigits(i, w) != prefix + PadDigits(j, w) {
      CodesDistinct(prefix, i, j, w);
    }
  }

  // ---------------------------------------------------------------- /system-metrics

  /** The random values of one demonstration sample. */
  datatype MetricsDraw = MetricsDraw(
    totalVolunteers: int, activeVolunteers: int, totalTasks: int, completedTasks: int,
    pendingTasks: int, cpuUsage: real, memoryUsage: real, networkThroughput: real, costSavings: real)

  /** A demonstration sample with its row id and timestamp. */
  function Sample(d: MetricsDraw, id: int, t: Instant): (m: SystemMetrics)
    ensures m.id == id && m.timestamp == t
  {
    SystemMetrics(id, t, d.totalVolunteers, d.activeVolunteers, d.totalTasks, d.completedTasks,
      d.pendingTasks, d.cpuUsage, d.memoryUsage, d.networkThroughput, d.costSavings)
  }

  function SampleTime(): SystemMetrics -> real {
    (m: SystemMetrics) => m.timestamp as real
  }

  function SampleId(): SystemMetrics -> int {
    (m: SystemMetrics) => m.id
  }

  /** `order_by(timestamp.desc()).first()`: a newest sample, if there is one. */
  function LatestSample(rows: seq<SystemMetrics>): (r: Option<SystemMetrics>)
    ensures r.None? <==> rows == []
    ensures r.Some? ==> r.value in rows && forall m | m in rows :: m.timestamp <= r.value.timestamp
  {
    var top := First(rows, SampleTime());
    if top == [] then None else Some(top[0])
  }

  // ---------------------------------------------------------------- /volunteers

  /** The random values of one demonstration volunteer. */
  datatype VolunteerDraw = VolunteerDraw(
    status: string, tasksCompleted: int, totalComputationTime: real,
    cpuCores: int, memoryGb: real, performanceScore: real)

  /** `f"vol_{i:03d}"`. */
  function VolunteerCode(i: nat): string {
    "vol_" + PadDigits(i, 3)
  }

  /** Demonstration volunteer number i (from 1), stamped `now` by the column defaults. */
  function DemoVolunteer(i: nat, d: VolunteerDraw, id: int, now: Instant): (v: Volunteer)
    ensures v.volunteerId == VolunteerCode(i) && v.name == "Volontaire " + PadDigits(i, 0)
    ensures Serialisable(v)
  {
    Volunteer(id, VolunteerCode(i), "Volontaire " + PadDigits(i, 0), d.status, Some(now), Some(now),
      d.tasksCompleted, d.totalComputationTime, d.cpuCores, d.memoryGb, d.performanceScore)
  }

  /** The twenty demonstration volunteers, vol_001 to vol_020. */
  function DemoVolunteers(draw: nat -> VolunteerDraw, firstId: int, now: Instant): (vs: seq<Volunteer>)
    ensures |vs| == 20
    ensures UniqueVolunteerIds(vs)
    ensures forall k | 0 <= k < 20 :: vs[k] == DemoVolunteer(k + 1, draw(k + 1), firstId + k, now)
  {
    var vs := seq(20, k requires 0 <= k => DemoVolunteer(k + 1, draw(k + 1), firstId + k, now));
    NumberedCodesDistinct("vol_", 3, 20);
    forall k | 0 <= k < 20 ensures vs[k].volunteerId == "vol_" + PadDigits(k + 1, 3) {
      assert vs[k] == DemoVolunteer(k + 1, draw(k + 1), firstId + k, now);
    }
    forall i, j | 0 <= i < j < 20 ensures vs[i].volunteerId != vs[j].volunteerId {
      var a: nat, b: nat := i + 1, j + 1;
      assert "vol_" + PadDigits(a, 3) != "vol_" + PadDigits(b, 3);
    }
    vs
  }

  // ---------------------------------------------------------------- /volunteers/<id>

  datatype VolunteerDetails = VolunteerDetails(volunteer: Volunteer, performanceHistory: seq<PerformanceHistory>)

  const HistoryLimit: nat := 50

  function HistoryTime(): PerformanceHistory -> real {
    (h: PerformanceHistory) => h.timestamp as real
  }

  function OfVolunteer(volunteerId: string): PerformanceHistory -> bool {
    (h: PerformanceHistory) => h.volunteerId == volunteerId
  }

  /**
   * `filter_by(volunteer_id=id).order_by(timestamp.desc()).limit(50)`: at
   * most fifty of the volunteer's history rows, newest first, none left out
   * being newer than one kept.
   */
  function RecentHistory(history: seq<PerformanceHistory>, volunteerId: string): (rows: seq<PerformanceHistory>)
    ensures |rows| == if Count(history, OfVolunteer(volunteerId)) < HistoryLimit
                      then Count(history, OfVolunteer(volunteerId)) else HistoryLimit
    ensures forall h | h in rows :: h in history && OfVolunteer(volunteerId)(h)
    ensures multiset(rows) <= multiset(history)
    ensures SortedDesc(rows, HistoryTime())
    ensures forall h, i | h in history && OfVolunteer(volunteerId)(h) && h !in rows && 0 <= i < |rows| ::
      HistoryTime()(h) <= HistoryTime()(rows[i])
  {
    TopOfFilter(history, OfVolunteer(volunteerId), HistoryTime(), HistoryLimit);
    TopBy(Filter(history, OfVolunteer(volunteerId)), HistoryTime(), HistoryLimit)
  }

  /**
   * `get_volunteer_details`: 404 for an unknown id; otherwise the volunteer
   * and its recent history, or the 500 answer when the volunteer cannot be
   * serialised.
   */
  function GetVolunteerDetails(volunteers: seq<Volunteer>, history: seq<PerformanceHistory>, volunteerId: string)
    : (r: Response<VolunteerDetails>)
    ensures r.NotFound? <==> forall v | v in volunteers :: v.volunteerId != volunteerId
    ensures r.NotFound? ==> r.message == "Volontaire non trouvé"
    ensures r.ServerError? ==> exists v | v in volunteers :: v.volunteerId == volunteerId && !Serialisable(v)
    ensures (forall v | v in volunteers && v.volunteerId == volunteerId :: Serialisable(v)) ==> !r.ServerError?
    ensures r.Ok? ==> r.data.volunteer in volunteers && r.data.volunteer.volunteerId == volunteerId
    ensures r.Ok? ==> Serialisable(r.data.volunteer)
    ensures r.Ok? ==> r.data.performanceHistory == RecentHistory(history, volunteerId)
  {
    match FindVolunteer(volunteers, volunteerId)
    case None => NotFound("Volontaire non trouvé")
    case Some(v) =>
      if !Serialisable(v) then ServerError
      else Ok(VolunteerDetails(v, RecentHistory(history, volunteerId)))
  }

  // ---------------------------------------------------------------- /tasks

  /** The random values of one demonstration task. */
  datatype TaskDraw = TaskDraw(
    workflowNumber: nat, status: string, assignedNumber: Option<nat>,
    executionTime: real, cpuUsage: real, memoryUsage: real)

  /** `f"task_{i:04d}"`. */
  function TaskCode(i: nat): string {
    "task_" + PadDigits(i, 4)
  }

  /** Demonstration task number i (from 1), created `now`, never started. */
  function DemoTask(i: nat, d: TaskDraw, id: int, now: Instant): (t: Task)
    ensures t.taskId == TaskCode(i) && t.workflowId == "workflow_" + PadDigits(d.workflowNumber, 2)
    ensures t.assignedVolunteer.None? <==> d.assignedNumber.None?
    ensures t.createdDate == now && t.startedDate.None? && t.completedDate.None?
  {
    var assignee := if d.assignedNumber.Some? then Some(VolunteerCode(d.assignedNumber.value)) else None;
    Task(id, TaskCode(i), "workflow_" + PadDigits(d.workflowNumber, 2), d.status, assignee,
      now, None, None, d.executionTime, d.cpuUsage, d.memoryUsage)
  }

  const DemoTaskCount: nat := 100

  /** The hundred demonstration tasks, task_0001 to task_0100. */
  function DemoTasks(draw: nat -> TaskDraw, firstId: int, now: Instant): (ts: seq<Task>)
    ensures |ts| == DemoTaskCount
    ensures UniqueTaskIds(ts)
    ensures forall k | 0 <= k < DemoTaskCount :: ts[k] == DemoTask(k + 1, draw(k + 1), firstId + k, now)
  {
    var ts := seq(DemoTaskCount, k requires 0 <= k => DemoTask(k + 1, draw(k + 1), firstId + k, now));
    NumberedCodesDistinct("task_", 4, DemoTaskCount);
    forall k | 0 <= k < DemoTaskCount ensures ts[k].taskId == "task_" + PadDigits(k + 1, 4) {
      assert ts[k] == DemoTask(k + 1, draw(k + 1), firstId + k, now);
    }
    forall i, j | 0 <= i < j < DemoTaskCount ensures ts[i].taskId != ts[j].taskId {
      var a: nat, b: nat := i + 1, j + 1;
      assert "task_" + PadDigits(a, 4) != "task_" + PadDigits(b, 4);
    }
    ts
  }

  function TaskCreated(): Task -> real {
    (t: Task) => t.createdDate as real
  }

  function TaskId(): Task -> int {
    (t: Task) => t.id
  }

  /** The rows `filter_by(status=...)` keeps: all of them when the argument is absent or empty. */
  function WithStatus(status: Option<string>): Task -> bool {
    (t: Task) => !Truthy(status) || t.status == status.value
  }

  /**
   * `order_by(created_date.desc()).limit(limit)`. SQLite reads a negative
   * LIMIT as no limit at all.
   */
  function TaskQuery(tasks: seq<Task>, status: Option<string>, limit: int): (r: seq<Task>)
    ensures |r| == (if 0 <= limit < Count(tasks, WithStatus(status)) then limit else Count(tasks, WithStatus(status)))
    ensures forall t | t in r :: t in tasks && WithStatus(status)(t)
    ensures multiset(r) <= multiset(tasks)
    ensures SortedDesc(r, TaskCreated())
    ensures forall t, i | t in tasks && WithStatus(status)(t) && t !in r && 0 <= i < |r| ::
      TaskCreated()(t) <= TaskCreated()(r[i])
  {
    var n := SqlLimit(limit, Count(tasks, WithStatus(status)));
    TopOfFilter(tasks, WithStatus(status), TaskCreated(), n);
    TopBy(Filter(tasks, WithStatus(status)), TaskCreated(), n)
  }

  /** `demo_tasks[:limit]`: a negative bound counts from the end. */
  function SliceTo<T>(s: seq<T>, limit: int): (r: seq<T>)
    ensures |r| == if limit >= 0 then (if limit <= |s| then limit else |s|)
                   else (if |s| + limit > 0 then |s| + limit else 0)
    ensures r == s[..|r|]
  {
    if limit >= 0 then (if limit <= |s| then s[..limit] else s)
    else if |s| + limit > 0 then s[..|s| + limit] else []
  }

  /** Some stored task already carries one of the demonstration codes. */
  predicate DemoCodeTaken(tasks: seq<Task>) {
    exists t, i | t in tasks && 1 <= i <= DemoTaskCount :: t.taskId == TaskCode(i)
  }

  /**
   * The fallback fires whenever the query result is empty, not only when
   * the table is: once the demonstration tasks are stored after whatever
   * rows were there, any status that matches none of the stored tasks (or
   * a limit of 0) inserts task_0001 again, and the unique task_id column
   * makes that commit fail.
   */
  lemma FallbackNotRepeatable(before: seq<Task>, tasks: seq<Task>, draw: nat -> TaskDraw, firstId: int, now: Instant)
    requires tasks == before + DemoTasks(draw, firstId, now)
    ensures DemoCodeTaken(tasks)
  {
    assert tasks[|before|] == DemoTask(1, draw(1), firstId, now);
    assert tasks[|before|] in tasks;
  }

  // ---------------------------------------------------------------- /analytics/performance-history

  /** `filter(timestamp >= start).order_by(timestamp.asc())`. */
  function MetricsWindow(rows: seq<SystemMetrics>, start: Instant): (r: seq<SystemMetrics>)
    ensures forall m | m in r :: m in rows && m.timestamp >= start
    ensures forall m | m in rows && m.timestamp >= start :: m in r
    ensures forall i, j | 0 <= i < j < |r| :: r[i].timestamp <= r[j].timestamp
    ensures multiset(r) == multiset(Filter(rows, InWindow(start)))
  {
    var inside := Filter(rows, InWindow(start));
    var r := SortDesc(inside, Earliness());
    DrawnFrom(r, inside);
    DrawnFrom(inside, r);
    OldestFirst(r);
    r
  }

  /** Descending earliness is ascending time. */
  lemma OldestFirst(r: seq<SystemMetrics>)
    requires SortedDesc(r, Earliness())
    ensures forall i, j | 0 <= i < j < |r| :: r[i].timestamp <= r[j].timestamp
  {
    forall i, j | 0 <= i < j < |r| ensures r[i].timestamp <= r[j].timestamp {
      assert Earliness()(r[j]) <= Earliness()(r[i]);
    }
  }

  function InWindow(start: Instant): SystemMetrics -> bool {
    (m: SystemMetrics) => m.timestamp >= start
  }

  /** Sorting by this key in descending order puts the oldest sample first. */
  function Earliness(): SystemMetrics -> real {
    (m: SystemMetrics) => -(m.timestamp as real)
  }

  /** `range(days * 24)`: one sample per hour, none when days is not positive. */
  function HourCount(days: int): nat {
    if days * 24 > 0 then days * 24 else 0
  }

  /** The demonstration history: sample i stamped `start + i` hours. */
  ghost function DemoHistory(start: Instant, n: nat, draw: nat -> MetricsDraw, firstId: int): seq<SystemMetrics> {
    seq(n, i requires 0 <= i => Sample(draw(i), firstId + i, start + i * SecondsPerHour))
  }

  /** The demonstration samples are strictly increasing in time and stay inside `[start, now)`. */
  lemma DemoHistoryInWindow(now: Instant, days: int, draw: nat -> MetricsDraw, firstId: int)
    ensures var h := DemoHistory(DaysBefore(now, days), HourCount(days), draw, firstId);
      && |h| == HourCount(days)
      && (forall i, j | 0 <= i < j < |h| :: h[i].timestamp < h[j].timestamp)
      && (forall m | m in h :: DaysBefore(now, days) <= m.timestamp < now)
  {
    var start := DaysBefore(now, days);
    var h := DemoHistory(start, HourCount(days), draw, firstId);
    forall i, j | 0 <= i < j < |h| ensures h[i].timestamp < h[j].timestamp {
      assert h[i] == Sample(draw(i), firstId + i, start + i * SecondsPerHour);
      assert h[j] == Sample(draw(j), firstId + j, start + j * SecondsPerHour);
    }
    forall m | m in h ensures start <= m.timestamp < now {
      var i :| 0 <= i < |h| && h[i] == m;
      assert m == Sample(draw(i), firstId + i, start + i * SecondsPerHour);
      assert i <= days * 24 - 1;
      assert start == now - days * 24 * 3600;
      assert i * 3600 <= (days * 24 - 1) * 3600;
    }
  }

  /** The loop that builds the demonstration history. */
  method BuildHistory(start: Instant, n: nat, draw: nat -> MetricsDraw, firstId: int)
    returns (rows: seq<SystemMetrics>)
    ensures rows == DemoHistory(start, n, draw, firstId)
  {
    rows := [];
    for i := 0 to n
      invariant |rows| == i
      invariant forall k | 0 <= k < i :: rows[k] == Sample(draw(k), firstId + k, start + k * SecondsPerHour)
    {
      var timestamp := start + i * SecondsPerHour;
      rows := rows + [Sample(draw(i), firstId + i, timestamp)];
    }
  }

  // ---------------------------------------------------------------- /analytics/cost-savings

  datatype CostSavings = CostSavings(
    completedTasks: nat,
    traditionalCost: real,
    volunteerCost: real,
    totalSavings: real,
    savingsPercentage: real,
    costPerTaskSaved: real)

  const CostPerTaskTraditional: real := 0.50
  const CostPerTaskVolunteer: real := 0.05

  function IsCompleted(): Task -> bool {
    (t: Task) => t.status == "completed"
  }

  /** `get_cost_savings_analytics`, in exact arithmetic. */
  function GetCostSavings(tasks: seq<Task>): (r: CostSavings)
    ensures r.completedTasks == Count(tasks, IsCompleted())
    ensures r.traditionalCost == 0.5 * r.completedTasks as real
    ensures r.volunteerCost == 0.05 * r.completedTasks as real
    ensures r.totalSavings == r.traditionalCost - r.volunteerCost == 0.45 * r.completedTasks as real
    ensures r.savingsPercentage == if r.completedTasks == 0 then 0.0 else 90.0
    ensures r.costPerTaskSaved == 0.45
  {
    var n := Count(tasks, IsCompleted());
    var traditional := n as real * CostPerTaskTraditional;
    var volunteer := n as real * CostPerTaskVolunteer;
    var savings := traditional - volunteer;
    var percentage := if traditional > 0.0 then savings / traditional * 100.0 else 0.0;
    assert n > 0 ==> percentage == 90.0 by {
      if n > 0 {
        SavingsShare(n as real);
      }
    }
    CostSavings(n, traditional, volunteer, savings, percentage, CostPerTaskTraditional - CostPerTaskVolunteer)
  }

  /** Saving 0.45 of every 0.50 is saving 90 percent. */
  lemma SavingsShare(n: real)
    requires n > 0.0
    ensures (n * CostPerTaskTraditional - n * CostPerTaskVolunteer) / (n * CostPerTaskTraditional) * 100.0 == 90.0
  {
    var traditional := n * CostPerTaskTraditional;
    assert n * CostPerTaskTraditional - n * CostPerTaskVolunteer == 0.9 * traditional;
    assert 0.9 * traditional / traditional == 0.9;
  }

  // ---------------------------------------------------------------- /analytics/volunteer-performance

  /** The sum of f over the rows. */
  function SumOf<T>(s: seq<T>, f: T -> real): real {
    if s == [] then 0.0 else f(s[0]) + SumOf(s[1..], f)
  }

  /** c added n times. */
  function Repeat(n: nat, c: real): real {
    if n == 0 then 0.0 else c + Repeat(n - 1, c)
  }

  /** Adding c n times is multiplying it by n. */
  lemma {:induction false} RepeatIsProduct(n: nat, c: real)
    ensures Repeat(n, c) == n as real * c
  {
    if n > 0 {
      RepeatIsProduct(n - 1, c);
      OneMore((n - 1) as real, c);
    }
  }

  /** Each term at least lo puts the sum at least |s|·lo. */
  lemma {:induction false} SumAtLeast<T>(s: seq<T>, f: T -> real, lo: real)
    requires forall x | x in s :: lo <= f(x)
    ensures Repeat(|s|, lo) <= SumOf(s, f)
  {
    if s != [] {
      assert forall x | x in s[1..] :: x in s;
      SumAtLeast(s[1..], f, lo);
      assert s[0] in s;
    }
  }

  /** Each term at most hi puts the sum at most |s|·hi. */
  lemma {:induction false} SumAtMost<T>(s: seq<T>, f: T -> real, hi: real)
    requires forall x | x in s :: f(x) <= hi
    ensures SumOf(s, f) <= Repeat(|s|, hi)
  {
    if s != [] {
      assert forall x | x in s[1..] :: x in s;
      SumAtMost(s[1..], f, hi);
      assert s[0] in s;
    }
  }

  lemma OneMore(k: real, c: real)
    ensures (k + 1.0) * c == k * c + c
  {
  }

  function Score(): Volunteer -> real {
    (v: Volunteer) => v.performanceScore
  }

  function Hours(): Volunteer -> real {
    (v: Volunteer) => v.totalComputationTime
  }

  function TasksDone(): Volunteer -> real {
    (v: Volunteer) => v.tasksCompleted as real
  }

  function IsActive(): Volunteer -> bool {
    (v: Volunteer) => v.status == "active"
  }

  /** `avg(x) or 0`: SQL's AVG is NULL on an empty table. */
  function Average<T>(s: seq<T>, f: T -> real): real {
    if s == [] then 0.0 else SumOf(s, f) / |s| as real
  }

  /** The average lies between the smallest and the largest value. */
  lemma AverageBounds<T>(s: seq<T>, f: T -> real, lo: real, hi: real)
    requires s != []
    requires forall x | x in s :: lo <= f(x) <= hi
    ensures lo <= Average(s, f) <= hi
  {
    SumAtLeast(s, f, lo);
    SumAtMost(s, f, hi);
    RepeatIsProduct(|s|, lo);
    RepeatIsProduct(|s|, hi);
    QuotientBounds(SumOf(s, f), |s| as real, lo, hi);
  }

  /** A total between n·lo and n·hi, divided by n, lies between lo and hi. */
  lemma QuotientBounds(sum: real, n: real, lo: real, hi: real)
    requires n > 0.0 && n * lo <= sum <= n * hi
    ensures lo <= sum / n <= hi
  {
    var q := sum / n;
    assert q * n == sum;
    assert (q - lo) * n == sum - n * lo;
    assert (hi - q) * n == n * hi - sum;
  }

  /** `round(active / total * 100, 2) if total > 0 else 0`. */
  function ActivityRate(active: nat, total: nat): (r: real)
    requires active <= total
    ensures total == 0 ==> r == 0.0
    ensures total > 0 ==> var x := active as real / total as real * 100.0;
      x - 1.0 / 200.0 < r <= x + 1.0 / 200.0
    ensures 0.0 <= r <= 100.0
    ensures total > 0 && active == total ==> r == 100.0
    ensures active == 0 ==> r == 0.0
  {
    if total > 0 then
      var x := active as real / total as real * 100.0;
      FractionAtMostOne(active as real, total as real);
      Round2Monotone(0.0, x);
      Round2Monotone(x, 100.0);
      Round2OfCents(0);
      Round2OfCents(100);
      Round2(x)
    else 0.0
  }

  lemma FractionAtMostOne(a: real, t: real)
    requires 0.0 <= a <= t && t > 0.0
    ensures 0.0 <= a / t <= 1.0
    ensures a == t ==> a / t == 1.0
  {
    var q := a / t;
    assert q * t == a;
    assert (1.0 - q) * t == t - a;
  }

  datatype VolunteerStatistics = VolunteerStatistics(
    totalVolunteers: nat,
    activeVolunteers: nat,
    averagePerformanceScore: real,
    totalComputationHours: real,
    activityRate: real)

  datatype VolunteerPerformance = VolunteerPerformance(
    topVolunteers: seq<Volunteer>, statistics: VolunteerStatistics)

  const TopVolunteerCount: nat := 10

  /** `order_by(tasks_completed.desc()).limit(10)`: the ten volunteers with the most completed tasks. */
  function TopVolunteers(volunteers: seq<Volunteer>): (top: seq<Volunteer>)
    ensures |top| == if |volunteers| < TopVolunteerCount then |volunteers| else TopVolunteerCount
    ensures forall v | v in top :: v in volunteers
    ensures multiset(top) <= multiset(volunteers)
    ensures SortedDesc(top, TasksDone())
    ensures forall v, i | v in volunteers && v !in top && 0 <= i < |top| :: TasksDone()(v) <= TasksDone()(top[i])
  {
    TopByFacts(volunteers, TasksDone(), TopVolunteerCount);
    TopBy(volunteers, TasksDone(), TopVolunteerCount)
  }

  /** The `statistics` block: counts, mean score and total hours (0 on an empty table), activity rate. */
  function StatisticsOf(volunteers: seq<Volunteer>): (st: VolunteerStatistics)
    ensures st.totalVolunteers == |volunteers| && st.activeVolunteers == Count(volunteers, IsActive())
    ensures st.activeVolunteers <= st.totalVolunteers
    ensures 0.0 <= st.activityRate <= 100.0
    ensures volunteers != [] && st.activeVolunteers == st.totalVolunteers ==> st.activityRate == 100.0
    ensures st.activeVolunteers == 0 ==> st.activityRate == 0.0
    ensures volunteers == [] ==> st.averagePerformanceScore == 0.0 && st.totalComputationHours == 0.0
    ensures volunteers != [] ==> var mean := SumOf(volunteers, Score()) / |volunteers| as real;
      mean - 1.0 / 200.0 < st.averagePerformanceScore <= mean + 1.0 / 200.0
    ensures var hours := SumOf(volunteers, Hours());
      hours - 1.0 / 200.0 < st.totalComputationHours <= hours + 1.0 / 200.0
    ensures volunteers != [] ==> var x := st.activeVolunteers as real / |volunteers| as real * 100.0;
      x - 1.0 / 200.0 < st.activityRate <= x + 1.0 / 200.0
  {
    var active := Count(volunteers, IsActive());
    Round2OfCents(0);
    VolunteerStatistics(|volunteers|, active, Round2(Average(volunteers, Score())),
      Round2(SumOf(volunteers, Hours())), ActivityRate(active, |volunteers|))
  }

  /**
   * `get_volunteer_performance_analytics`: the ten volunteers with the most
   * completed tasks and the statistics block, or the 500 answer when one of
   * the ten cannot be serialised.
   */
  function GetVolunteerPerformance(volunteers: seq<Volunteer>): (r: Response<VolunteerPerformance>)
    ensures !r.NotFound?
    ensures r.ServerError? <==> !AllSerialisable(TopVolunteers(volunteers))
    ensures r.ServerError? ==> exists v | v in volunteers :: !Serialisable(v)
    ensures r.Ok? ==> r.data.topVolunteers == TopVolunteers(volunteers) && AllSerialisable(r.data.topVolunteers)
    ensures r.Ok? ==> forall v, i | v in volunteers && v !in r.data.topVolunteers && 0 <= i < |r.data.topVolunteers| ::
      v.tasksCompleted <= r.data.topVolunteers[i].tasksCompleted
    ensures r.Ok? ==> r.data.statistics == StatisticsOf(volunteers)
  {
    var top := TopVolunteers(volunteers);
    if AllSerialisable(top) then
      forall v, i | v in volunteers && v !in top && 0 <= i < |top| ensures v.tasksCompleted <= top[i].tasksCompleted {
        assert TasksDone()(v) <= TasksDone()(top[i]);
      }
      Ok(VolunteerPerformance(top, StatisticsOf(volunteers)))
    else
      var v :| v in top && !Serialisable(v);
      assert v in volunteers;
      ServerError
  }

  /** With every score in [lo, hi], the reported mean stays within rounding of that range. */
  lemma AverageScoreInRange(volunteers: seq<Volunteer>, lo: real, hi: real)
    requires volunteers != []
    requires forall v | v in volunteers :: lo <= v.performanceScore <= hi
    ensures Round2(lo) <= StatisticsOf(volunteers).averagePerformanceScore <= Round2(hi)
  {
    AverageBounds(volunteers, Score(), lo, hi);
    var a := Average(volunteers, Score());
    Round2Monotone(lo, a);
    Round2Monotone(a, hi);
  }

  // ---------------------------------------------------------------- the store

  /** The four tables the routes read, and where the demonstration rows go. */
  class MetricsStore {
    var systemMetrics: seq<SystemMetrics>
    var volunteers: seq<Volunteer>
    var tasks: seq<Task>
    var history: seq<PerformanceHistory>

    constructor (systemMetrics: seq<SystemMetrics>, volunteers: seq<Volunteer>, tasks: seq<Task>,
                 history: seq<PerformanceHistory>)
      ensures this.systemMetrics == systemMetrics && this.volunteers == volunteers
      ensures this.tasks == tasks && this.history == history
    {
      this.systemMetrics := systemMetrics;
      this.volunteers := volunteers;
      this.tasks := tasks;
      this.history := history;
    }

    /** `get_system_metrics`: the newest sample, or a stored demonstration sample on an empty table. */
    method GetSystemMetrics(draw: MetricsDraw, now: Instant) returns (r: SystemMetrics)
      modifies this
      ensures old(systemMetrics) != [] ==> Some(r) == LatestSample(old(systemMetrics)) && systemMetrics == old(systemMetrics)
      ensures old(systemMetrics) == [] ==> r == Sample(draw, 1, now) && systemMetrics == [r]
      ensures volunteers == old(volunteers) && tasks == old(tasks) && history == old(history)
    {
      var latest := LatestSample(systemMetrics);
      if latest.None? {
        r := Sample(draw, NextId(systemMetrics, SampleId()), now);
        systemMetrics := systemMetrics + [r];
      } else {
        r := latest.value;
      }
    }

    /**
     * `get_volunteers`: every volunteer, or twenty stored demonstration
     * volunteers on an empty table; the 500 answer when a stored volunteer
     * cannot be serialised.
     */
    method GetVolunteers(draw: nat -> VolunteerDraw, now: Instant) returns (r: Response<seq<Volunteer>>)
      modifies this
      ensures !r.NotFound?
      ensures r.ServerError? <==> !AllSerialisable(old(volunteers))
      ensures old(volunteers) != [] ==> volunteers == old(volunteers) && (r.Ok? ==> r.data == old(volunteers))
      ensures old(volunteers) == [] ==> r == Ok(DemoVolunteers(draw, 1, now)) && volunteers == r.data
      ensures UniqueVolunteerIds(old(volunteers)) ==> UniqueVolunteerIds(volunteers)
      ensures systemMetrics == old(systemMetrics) && tasks == old(tasks) && history == old(history)
    {
      var rows := volunteers;
      if rows == [] {
        rows := DemoVolunteers(draw, NextId(volunteers, (v: Volunteer) => v.id), now);
        volunteers := volunteers + rows;
        assert AllSerialisable(rows);
      }
      if !AllSerialisable(rows) {
        return ServerError;
      }
      r := Ok(rows);
    }

    /**
     * `get_tasks`. When the query finds nothing, the hundred demonstration
     * tasks are added and committed and the first `limit` of them returned;
     * the commit fails (the route's error response, None here) when a
     * stored task already holds one of their codes, and then nothing is
     * stored.
     */
    method GetTasks(status: Option<string>, limit: int, draw: nat -> TaskDraw, now: Instant)
      returns (r: Option<seq<Task>>)
      modifies this
      ensures TaskQuery(old(tasks), status, limit) != [] ==> r == Some(TaskQuery(old(tasks), status, limit)) && tasks == old(tasks)
      ensures TaskQuery(old(tasks), status, limit) == [] ==> (
        var demo := DemoTasks(draw, NextId(old(tasks), TaskId()), now);
        && (r.None? <==> DemoCodeTaken(old(tasks)))
        && (r.None? ==> tasks == old(tasks))
        && (r.Some? ==> r.value == SliceTo(demo, limit) && tasks == old(tasks) + demo))
      ensures TaskQuery(old(tasks), status, limit) == [] && r.Some? ==> DemoCodeTaken(tasks)
      ensures UniqueTaskIds(old(tasks)) ==> UniqueTaskIds(tasks)
      ensures systemMetrics == old(systemMetrics) && volunteers == old(volunteers) && history == old(history)
    {
      var found := TaskQuery(tasks, status, limit);
      if found != [] {
        return Some(found);
      }
      r := AddDemoTasks(limit, draw, now);
      if r.Some? {
        FallbackNotRepeatable(old(tasks), tasks, draw, NextId(old(tasks), TaskId()), now);
      }
    }

    /**
     * The fallback of `get_tasks`: the hundred demonstration tasks are
     * committed and the first `limit` of them returned, unless a stored task
     * already holds one of their codes, in which case the commit fails and
     * nothing is stored.
     */
    method AddDemoTasks(limit: int, draw: nat -> TaskDraw, now: Instant) returns (r: Option<seq<Task>>)
      modifies this
      ensures var demo := DemoTasks(draw, NextId(old(tasks), TaskId()), now);
        && (r.None? <==> DemoCodeTaken(old(tasks)))
        && (r.None? ==> tasks == old(tasks))
        && (r.Some? ==> r.value == SliceTo(demo, limit) && tasks == old(tasks) + demo)
      ensures UniqueTaskIds(old(tasks)) ==> UniqueTaskIds(tasks)
      ensures systemMetrics == old(systemMetrics) && volunteers == old(volunteers) && history == old(history)
    {
      var demo := DemoTasks(draw, NextId(tasks, TaskId()), now);
      if DemoCodeTaken(tasks) {
        return None;
      }
      DemoCodesFresh(tasks, demo);
      UniqueAppend(tasks, demo);
      tasks := tasks + demo;
      r := Some(SliceTo(demo, limit));
    }

    /**
     * `get_performance_analytics`: the samples of the last `days` days,
     * oldest first, or a stored demonstration history of one sample per
     * hour when there are none.
     */
    method GetPerformanceAnalytics(days: int, now: Instant, draw: nat -> MetricsDraw)
      returns (r: seq<SystemMetrics>)
      modifies this
      ensures MetricsWindow(old(systemMetrics), DaysBefore(now, days)) != [] ==>
        r == MetricsWindow(old(systemMetrics), DaysBefore(now, days)) && systemMetrics == old(systemMetrics)
      ensures MetricsWindow(old(systemMetrics), DaysBefore(now, days)) == [] ==>
        r == DemoHistory(DaysBefore(now, days), HourCount(days), draw, NextId(old(systemMetrics), SampleId()))
        && systemMetrics == old(systemMetrics) + r
      ensures volunteers == old(volunteers) && tasks == old(tasks) && history == old(history)
    {
      var start := DaysBefore(now, days);
      r := MetricsWindow(systemMetrics, start);
      if r == [] {
        r := BuildHistory(start, HourCount(days), draw, NextId(systemMetrics, SampleId()));
        systemMetrics := systemMetrics + r;
      }
    }
  }

  /** When no stored task holds a demonstration code, no stored task shares a code with a demonstration task. */
  lemma DemoCodesFresh(tasks: seq<Task>, demo: seq<Task>)
    requires !DemoCodeTaken(tasks)
    requires |demo| == DemoTaskCount
    requires forall k | 0 <= k < DemoTaskCount :: demo[k].taskId == TaskCode(k + 1)
    ensures forall t, u | t in tasks && u in demo :: t.taskId != u.taskId
  {
    forall t, u | t in tasks && u in demo ensures t.taskId != u.taskId {
      var k :| 0 <= k < |demo| && demo[k] == u;
      assert u.taskId == TaskCode(k + 1);
    }
  }

  /** Appending fresh tasks whose codes are unique and not yet stored keeps the codes unique. */
  lemma UniqueAppend(tasks: seq<Task>, demo: seq<Task>)
    requires UniqueTaskIds(demo)
    requires forall t, u | t in tasks && u in demo :: t.taskId != u.taskId
    ensures UniqueTaskIds(tasks) ==> UniqueTaskIds(tasks + demo)
  {
    var all := tasks + demo;
    if UniqueTaskIds(tasks) {
      forall i, j | 0 <= i < j < |all| ensures all[i].taskId != all[j].taskId {
        if j < |tasks| {
          assert all[i] == tasks[i] && all[j] == tasks[j];
        } else if i >= |tasks| {
          assert all[i] == demo[i - |tasks|] && all[j] == demo[j - |tasks|];
        } else {
          assert all[i] in tasks && all[j] in demo;
        }
      }
    }
  }
}
