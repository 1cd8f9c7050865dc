/**
 * The four tables of the metrics store (system_metrics, volunteers, tasks,
 * performance_history) as record values, their column defaults, and their
 * `to_dict` serialisers.
 *
 * Columns declared with a default are taken as always set, except the two
 * volunteer dates: the badge routes test `joined_date` for None and the
 * recency filters compare `last_seen`, so both are optional here.
 */
module MetricsModel {
  import opened Common

  // ---------------------------------------------------------------- system_metrics

  datatype SystemMetrics = SystemMetrics(
    id: int,
    timestamp: Instant,
    totalVolunteers: int,
    activeVolunteers: int,
    totalTasks: int,
    completedTasks: int,
    pendingTasks: int,
    cpuUsage: real,
    memoryUsage: real,
    networkThroughput: real,
    costSavings: real)

  /** A row inserted with only its key given: stamped `now`, every count and gauge 0. */
  function NewSystemMetrics(id: int, now: Instant): (m: SystemMetrics)
    ensures m.id == id && m.timestamp == now
    ensures m.totalVolunteers == m.activeVolunteers == m.totalTasks == m.completedTasks == m.pendingTasks == 0
    ensures m.cpuUsage == m.memoryUsage == m.networkThroughput == m.costSavings == 0.0
  {
    SystemMetrics(id, now, 0, 0, 0, 0, 0, 0.0, 0.0, 0.0, 0.0)
  }

  const SystemMetricsKeys: set<string> := {"id", "timestamp", "total_volunteers", "active_volunteers",
    "total_tasks", "completed_tasks", "pending_tasks", "cpu_usage", "memory_usage",
    "network_throughput", "cost_savings"}

  /** `SystemMetrics.to_dict`: exactly the key, the ISO timestamp and the nine measures. */
  function SystemMetricsToDict(m: SystemMetrics): (d: map<string, Json>)
    ensures d.Keys == SystemMetricsKeys
    ensures SystemMetricsOfDict(d) == Some(m)
  {
    map[
      "id" := JInt(m.id),
      "timestamp" := JTime(m.timestamp),
      "total_volunteers" := JInt(m.totalVolunteers),
      "active_volunteers" := JInt(m.activeVolunteers),
      "total_tasks" := JInt(m.totalTasks),
      "completed_tasks" := JInt(m.completedTasks),
      "pending_tasks" := JInt(m.pendingTasks),
      "cpu_usage" := JReal(m.cpuUsage),
      "memory_usage" := JReal(m.memoryUsage),
      "network_throughput" := JReal(m.networkThroughput),
      "cost_savings" := JReal(m.costSavings)]
  }

  /** Reads a system_metrics dict back; the partner of SystemMetricsToDict. */
  function SystemMetricsOfDict(d: map<string, Json>): Option<SystemMetrics> {
    if SystemMetricsKeys <= d.Keys
       && d["id"].JInt? && d["timestamp"].JTime?
       && d["total_volunteers"].JInt? && d["active_volunteers"].JInt? && d["total_tasks"].JInt?
       && d["completed_tasks"].JInt? && d["pending_tasks"].JInt?
       && d["cpu_usage"].JReal? && d["memory_usage"].JReal?
       && d["network_throughput"].JReal? && d["cost_savings"].JReal?
    then Some(SystemMetrics(d["id"].i, d["timestamp"].t,
      d["total_volunteers"].i, d["active_volunteers"].i, d["total_tasks"].i,
      d["completed_tasks"].i, d["pending_tasks"].i,
      d["cpu_usage"].r, d["memory_usage"].r, d["network_throughput"].r, d["cost_savings"].r))
    else None
  }

  // ---------------------------------------------------------------- volunteers

  datatype Volunteer = Volunteer(
    id: int,
    volunteerId: string,
    name: string,
    status: string,
    joinedDate: Option<Instant>,
    lastSeen: Option<Instant>,
    tasksCompleted: int,
    totalComputationTime: real,
    cpuCores: int,
    memoryGb: real,
    performanceScore: real)

  /** A volunteer inserted with only its identity given. */
  function NewVolunteer(id: int, volunteerId: string, name: string, now: Instant): (v: Volunteer)
    ensures v.id == id && v.volunteerId == volunteerId && v.name == name
    ensures v.status == "inactive"
    ensures v.joinedDate == Some(now) && v.lastSeen == Some(now)
    ensures v.tasksCompleted == 0 && v.totalComputationTime == 0.0
    ensures v.cpuCores == 1 && v.memoryGb == 1.0 && v.performanceScore == 0.0
  {
    Volunteer(id, volunteerId, name, "inactive", Some(now), Some(now), 0, 0.0, 1, 1.0, 0.0)
  }

  /** The volunteers table keeps volunteer_id unique. */
  predicate UniqueVolunteerIds(vs: seq<Volunteer>) {
    forall i, j | 0 <= i < j < |vs| :: vs[i].volunteerId != vs[j].volunteerId
  }

  /** `Volunteer.query.filter_by(volunteer_id=id).first()`. */
  function FindVolunteer(vs: seq<Volunteer>, volunteerId: string): (r: Option<Volunteer>)
    ensures r.None? <==> forall v | v in vs :: v.volunteerId != volunteerId
    ensures r.Some? ==> r.value in vs && r.value.volunteerId == volunteerId
  {
    if vs == [] then None
    else if vs[0].volunteerId == volunteerId then Some(vs[0])
    else FindVolunteer(vs[1..], volunteerId)
  }

  /** With unique ids, the row found is the one row carrying the id. */
  lemma {:induction false} FindVolunteerUnique(vs: seq<Volunteer>, v: Volunteer)
    requires UniqueVolunteerIds(vs)
    requires v in vs
    ensures FindVolunteer(vs, v.volunteerId) == Some(v)
  {
    if vs[0] != v {
      assert vs[0].volunteerId != v.volunteerId by {
        var k :| 0 <= k < |vs| && vs[k] == v;
      }
      assert UniqueVolunteerIds(vs[1..]) by {
        forall i, j | 0 <= i < j < |vs[1..]| ensures vs[1..][i].volunteerId != vs[1..][j].volunteerId {
          assert vs[1..][i] == vs[i + 1] && vs[1..][j] == vs[j + 1];
        }
      }
      assert v in vs[1..] by {
        var k :| 0 <= k < |vs| && vs[k] == v;
        assert k > 0 && vs[1..][k - 1] == v;
      }
      FindVolunteerUnique(vs[1..], v);
    }
  }

  const VolunteerKeys: set<string> := {"id", "volunteer_id", "name", "status", "joined_date",
    "last_seen", "tasks_completed", "total_computation_time", "cpu_cores", "memory_gb",
    "performance_score"}

  /** Both dates are written with isoformat() unguarded, so both must be set. */
  predicate Serialisable(v: Volunteer) {
    v.joinedDate.Some? && v.lastSeen.Some?
  }

  /** Every volunteer of a list can be serialised: a route that returns them all answers. */
  predicate AllSerialisable(vs: seq<Volunteer>) {
    forall v | v in vs :: Serialisable(v)
  }

  /** `Volunteer.to_dict`. */
  function VolunteerToDict(v: Volunteer): (d: map<string, Json>)
    requires Serialisable(v)
    ensures d.Keys == VolunteerKeys
    ensures VolunteerOfDict(d) == Some(v)
  {
    map[
      "id" := JInt(v.id),
      "volunteer_id" := JStr(v.volunteerId),
      "name" := JStr(v.name),
      "status" := JStr(v.status),
      "joined_date" := JTime(v.joinedDate.value),
      "last_seen" := JTime(v.lastSeen.value),
      "tasks_completed" := JInt(v.tasksCompleted),
      "total_computation_time" := JReal(v.totalComputationTime),
      "cpu_cores" := JInt(v.cpuCores),
      "memory_gb" := JReal(v.memoryGb),
      "performance_score" := JReal(v.performanceScore)]
  }

  /** Reads a volunteer dict back; the partner of VolunteerToDict. */
  function VolunteerOfDict(d: map<string, Json>): Option<Volunteer> {
    if VolunteerKeys <= d.Keys
       && d["id"].JInt? && d["volunteer_id"].JStr? && d["name"].JStr? && d["status"].JStr?
       && d["joined_date"].JTime? && d["last_seen"].JTime?
       && d["tasks_completed"].JInt? && d["total_computation_time"].JReal?
       && d["cpu_cores"].JInt? && d["memory_gb"].JReal? && d["performance_score"].JReal?
    then Some(Volunteer(d["id"].i, d["volunteer_id"].s, d["name"].s, d["status"].s,
      Some(d["joined_date"].t), Some(d["last_seen"].t),
      d["tasks_completed"].i, d["total_computation_time"].r,
      d["cpu_cores"].i, d["memory_gb"].r, d["performance_score"].r))
    else None
  }

  // ---------------------------------------------------------------- tasks

  datatype Task = Task(
    id: int,
    taskId: string,
    workflowId: string,
    status: string,
    assignedVolunteer: Option<string>,
    createdDate: Instant,
    startedDate: Option<Instant>,
    completedDate: Option<Instant>,
    executionTime: real,
    cpuUsage: real,
    memoryUsage: real)

  /** A task inserted with only its identity given: pending, unassigned, not started. */
  function NewTask(id: int, taskId: string, workflowId: string, now: Instant): (t: Task)
    ensures t.id == id && t.taskId == taskId && t.workflowId == workflowId
    ensures t.status == "pending" && t.assignedVolunteer.None?
    ensures t.createdDate == now && t.startedDate.None? && t.completedDate.None?
    ensures t.executionTime == 0.0 && t.cpuUsage == 0.0 && t.memoryUsage == 0.0
  {
    Task(id, taskId, workflowId, "pending", None, now, None, None, 0.0, 0.0, 0.0)
  }

  /** No two stored tasks share a task_id. */
  predicate UniqueTaskIds(ts: seq<Task>) {
    forall i, j | 0 <= i < j < |ts| :: ts[i].taskId != ts[j].taskId
  }

  const TaskKeys: set<string> := {"id", "task_id", "workflow_id", "status", "assigned_volunteer",
    "created_date", "started_date", "completed_date", "execution_time", "cpu_usage", "memory_usage"}

  /** `Task.to_dict`: the two optional dates become None when unset. */
  function TaskToDict(t: Task): map<string, Json> {
    map[
      "id" := JInt(t.id),
      "task_id" := JStr(t.taskId),
      "workflow_id" := JStr(t.workflowId),
      "status" := JStr(t.status),
      "assigned_volunteer" := OptStr(t.assignedVolunteer),
      "created_date" := JTime(t.createdDate),
      "started_date" := OptTime(t.startedDate),
      "completed_date" := OptTime(t.completedDate),
      "execution_time" := JReal(t.executionTime),
      "cpu_usage" := JReal(t.cpuUsage),
      "memory_usage" := JReal(t.memoryUsage)]
  }

  /** Reads a task dict back; the partner of TaskToDict. */
  function TaskOfDict(d: map<string, Json>): Option<Task> {
    if TaskKeys <= d.Keys
       && d["id"].JInt? && d["task_id"].JStr? && d["workflow_id"].JStr? && d["status"].JStr?
       && StrOf(d["assigned_volunteer"]).Some? && d["created_date"].JTime?
       && TimeOf(d["started_date"]).Some? && TimeOf(d["completed_date"]).Some?
       && d["execution_time"].JReal? && d["cpu_usage"].JReal? && d["memory_usage"].JReal?
    then Some(Task(d["id"].i, d["task_id"].s, d["workflow_id"].s, d["status"].s,
      StrOf(d["assigned_volunteer"]).value, d["created_date"].t,
      TimeOf(d["started_date"]).value, TimeOf(d["completed_date"]).value,
      d["execution_time"].r, d["cpu_usage"].r, d["memory_usage"].r))
    else None
  }

  lemma TaskDictKeys(t: Task)
    ensures TaskToDict(t).Keys == TaskKeys
  {
  }

  lemma TaskNameLookups(t: Task)
    ensures TaskToDict(t)["id"] == JInt(t.id)
    ensures TaskToDict(t)["task_id"] == JStr(t.taskId)
    ensures TaskToDict(t)["workflow_id"] == JStr(t.workflowId)
    ensures TaskToDict(t)["status"] == JStr(t.status)
  {
  }

  lemma TaskDateLookups(t: Task)
    ensures TaskToDict(t)["assigned_volunteer"] == OptStr(t.assignedVolunteer)
    ensures TaskToDict(t)["created_date"] == JTime(t.createdDate)
    ensures TaskToDict(t)["started_date"] == OptTime(t.startedDate)
    ensures TaskToDict(t)["completed_date"] == OptTime(t.completedDate)
  {
  }

  lemma TaskUsageLookups(t: Task)
    ensures TaskToDict(t)["execution_time"] == JReal(t.executionTime)
    ensures TaskToDict(t)["cpu_usage"] == JReal(t.cpuUsage)
    ensures TaskToDict(t)["memory_usage"] == JReal(t.memoryUsage)
  {
  }

  /** The unassigned volunteer and the unset dates, and only those, become None. */
  lemma TaskDictNulls(t: Task)
    ensures TaskToDict(t)["started_date"] == JNull <==> t.startedDate.None?
    ensures TaskToDict(t)["completed_date"] == JNull <==> t.completedDate.None?
    ensures TaskToDict(t)["assigned_volunteer"] == JNull <==> t.assignedVolunteer.None?
  {
    TaskDateLookups(t);
  }

  /** Reading the dict back gives the original Task. */
  lemma TaskRoundTrip(t: Task)
    ensures TaskOfDict(TaskToDict(t)) == Some(t)
  {
    TaskDictKeys(t);
    TaskNameLookups(t);
    TaskDateLookups(t);
    TaskUsageLookups(t);
  }

  // ---------------------------------------------------------------- performance_history

  datatype PerformanceHistory = PerformanceHistory(
    id: int,
    timestamp: Instant,
    volunteerId: string,
    taskId: string,
    executionTime: real,
    cpuUsage: real,
    memoryUsage: real,
    success: bool)

  /** A sample recorded with its required columns only: stamped `now`, zero load, successful. */
  function NewPerformanceHistory(id: int, volunteerId: string, taskId: string, executionTime: real, now: Instant): (h: PerformanceHistory)
    ensures h.id == id && h.volunteerId == volunteerId && h.taskId == taskId && h.executionTime == executionTime
    ensures h.timestamp == now && h.cpuUsage == 0.0 && h.memoryUsage == 0.0 && h.success
  {
    PerformanceHistory(id, now, volunteerId, taskId, executionTime, 0.0, 0.0, true)
  }

  const PerformanceHistoryKeys: set<string> := {"id", "timestamp", "volunteer_id", "task_id",
    "execution_time", "cpu_usage", "memory_usage", "success"}

  /** `PerformanceHistory.to_dict`. */
  function PerformanceHistoryToDict(h: PerformanceHistory): (d: map<string, Json>)
    ensures d.Keys == PerformanceHistoryKeys
    ensures PerformanceHistoryOfDict(d) == Some(h)
  {
    map[
      "id" := JInt(h.id),
      "timestamp" := JTime(h.timestamp),
      "volunteer_id" := JStr(h.volunteerId),
      "task_id" := JStr(h.taskId),
      "execution_time" := JReal(h.executionTime),
      "cpu_usage" := JReal(h.cpuUsage),
      "memory_usage" := JReal(h.memoryUsage),
      "success" := JBool(h.success)]
  }

  /** Reads a performance_history dict back; the partner of PerformanceHistoryToDict. */
  function PerformanceHistoryOfDict(d: map<string, Json>): Option<PerformanceHistory> {
    if PerformanceHistoryKeys <= d.Keys
       && d["id"].JInt? && d["timestamp"].JTime? && d["volunteer_id"].JStr? && d["task_id"].JStr?
       && d["execution_time"].JReal? && d["cpu_usage"].JReal? && d["memory_usage"].JReal?
       && d["success"].JBool?
    then Some(PerformanceHistory(d["id"].i, d["timestamp"].t, d["volunteer_id"].s, d["task_id"].s,
      d["execution_time"].r, d["cpu_usage"].r, d["memory_usage"].r, d["success"].b))
    else None
  }
}
