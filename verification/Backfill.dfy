/**
 * The drain of legacy running state (backend/scripts/backfill_schedule_execution_running_truth.py)
 * as functions of the two tables. Times are seconds, identifiers integers.
 */
module Backfill {
  import opened Prelude
  import opened StableSort

  const RUNNING := "running"
  const SUCCESS := "success"
  const FAILED := "failed"
  const SEQUENTIAL := "sequential"
  const BACKFILL_ERROR := "Execution backfilled as failed during schedule running-truth migration drain"

  /** A value found in the JSON of a time point; Python counts booleans among the integers. */
  datatype Json = Int(i: int) | Bool(b: bool) | Other

  /** A time point that is not an object, or one whose two keys are absent or hold a value. */
  datatype TimePoint = NotObject | Object(minutes: Option<Json>, intervalMinutes: Option<Json>)

  datatype Task = Task(
    id: int,
    userId: int,
    conversationId: Option<int>,
    cycleType: string,
    timePoint: TimePoint,
    enabled: bool,
    nextRunAt: Option<int>,
    consecutiveFailures: int,
    lastRunStatus: string,
    lastRunAt: Option<int>,
    currentRunId: Option<int>,
    runningStartedAt: Option<int>,
    lastHeartbeatAt: Option<int>,
    deleteRequestedAt: Option<int>,
    deletedAt: Option<int>,
    updatedAt: int)

  /** The unique key of an execution row. */
  datatype RunKey = RunKey(taskId: int, runId: int)

  datatype Execution = Execution(
    userId: int,
    scheduledFor: int,
    startedAt: Option<int>,
    finishedAt: Option<int>,
    status: string,
    errorMessage: Option<string>,
    conversationId: Option<int>)

  datatype Db = Db(tasks: seq<Task>, executions: map<RunKey, Execution>)

  datatype Stats = Stats(scanned: nat, inserted: nat, failed: nat, reused: nat, updated: nat)

  const NO_STATS := Stats(0, 0, 0, 0, 0)

  function Merge(a: Stats, b: Stats): Stats {
    Stats(a.scanned + b.scanned, a.inserted + b.inserted, a.failed + b.failed, a.reused + b.reused, a.updated + b.updated)
  }

  /** What one loop turn reads from outside: the clock and a new run id. */
  datatype Tick = Tick(now: int, newRunId: int)

  // ---------------------------------------------------------------- selection

  /** The rows that the script drains. */
  predicate Legacy(t: Task) {
    t.currentRunId.Some? || t.runningStartedAt.Some? || t.lastHeartbeatAt.Some? || t.lastRunStatus == RUNNING
  }

  /** The condition under which the next migration refuses to run, row by row. */
  predicate BlocksMigration(t: Task) {
    t.currentRunId.Some? || t.runningStartedAt.Some? || t.lastHeartbeatAt.Some? || t.lastRunStatus == "running"
  }

  function Blocking(tasks: seq<Task>): nat {
    if tasks == [] then 0 else (if BlocksMigration(tasks[0]) then 1 else 0) + Blocking(tasks[1..])
  }

  function LegacyTasks(tasks: seq<Task>): seq<Task> {
    if tasks == [] then [] else (if Legacy(tasks[0]) then [tasks[0]] else []) + LegacyTasks(tasks[1..])
  }

  function Id(t: Task): int {
    t.id
  }

  function UpdatedAt(t: Task): int {
    t.updatedAt
  }

  /** `ORDER BY updated_at, id`. */
  function Ordered(tasks: seq<Task>): seq<Task> {
    Sort(Sort(LegacyTasks(tasks), Id), UpdatedAt)
  }

  function LegacyRows(tasks: seq<Task>, limit: Option<nat>): seq<Task> {
    var ordered := Ordered(tasks);
    if limit.Some? && limit.value < |ordered| then ordered[..limit.value] else ordered
  }

  // ---------------------------------------------------------------- one task

  function NormalizeMinutes(p: TimePoint): int {
    if p.NotObject? then 5
    else
      var raw := if p.minutes.Some? then p.minutes else p.intervalMinutes;
      match raw
      case Some(Int(i)) => if i > 1440 then 1440 else if i < 5 then 5 else i
      case Some(Bool(_)) => 5
      case _ => 5
  }

  function NextSequentialRun(p: TimePoint, after: int): int {
    after + 60 * NormalizeMinutes(p)
  }

  predicate Terminal(e: Execution) {
    e.status == SUCCESS || e.status == FAILED
  }

  /** How the run of one task is settled. */
  datatype Verdict = Reused | FailedExisting | Inserted

  datatype Plan = Plan(verdict: Verdict, finalStatus: string, finishedAt: int, conversationId: Option<int>)

  function PlanFor(row: Task, execution: Option<Execution>, now: int): Plan {
    if execution.None? then Plan(Inserted, FAILED, now, row.conversationId)
    else
      var e := execution.value;
      var conversation := OrElse(e.conversationId, row.conversationId);
      if Terminal(e) then Plan(Reused, e.status, e.finishedAt.GetOr(now), conversation)
      else Plan(FailedExisting, FAILED, now, conversation)
  }

  function StartedAt(row: Task, now: int): int {
    OrElse(OrElse(row.runningStartedAt, row.lastHeartbeatAt), row.nextRunAt).GetOr(now)
  }

  function FailExisting(e: Execution, startedAt: int, finishedAt: int, conversationId: Option<int>): Execution {
    e.(startedAt := OrElse(e.startedAt, Some(startedAt)), finishedAt := Some(finishedAt), status := FAILED,
       errorMessage := Some(BACKFILL_ERROR), conversationId := OrElse(e.conversationId, conversationId))
  }

  function FailedExecution(row: Task, startedAt: int, finishedAt: int): Execution {
    Execution(row.userId, row.nextRunAt.GetOr(startedAt), Some(startedAt), Some(finishedAt), FAILED,
              Some(BACKFILL_ERROR), row.conversationId)
  }

  function RunOf(row: Task, tick: Tick): RunKey {
    RunKey(row.id, row.currentRunId.GetOr(tick.newRunId))
  }

  function MatchingExecution(executions: map<RunKey, Execution>, row: Task): Option<Execution> {
    if row.currentRunId.Some? && RunKey(row.id, row.currentRunId.value) in executions then
      Some(executions[RunKey(row.id, row.currentRunId.value)])
    else None
  }

  /** The executions after one task was drained; an insert leaves a row with the same key alone. */
  function DrainedExecutions(executions: map<RunKey, Execution>, row: Task, tick: Tick): map<RunKey, Execution> {
    var found := MatchingExecution(executions, row);
    var plan := PlanFor(row, found, tick.now);
    var key := RunOf(row, tick);
    match plan.verdict
    case Reused => executions
    case FailedExisting =>
      executions[key := FailExisting(found.value, StartedAt(row, tick.now), plan.finishedAt, plan.conversationId)]
    case Inserted =>
      if key in executions then executions
      else executions[key := FailedExecution(row, StartedAt(row, tick.now), plan.finishedAt)]
  }

  /** The task row after its run ended. */
  function Projected(row: Task, plan: Plan, threshold: int, transactionTime: int): Task {
    var failures :=
      if row.deletedAt.Some? then row.consecutiveFailures
      else if plan.finalStatus == SUCCESS then 0
      else row.consecutiveFailures + 1;
    var stays := row.enabled && row.deletedAt.None? && !(plan.finalStatus == FAILED && failures >= threshold);
    var deleting := row.deletedAt.None? && row.deleteRequestedAt.Some?;
    var enabled := stays && !deleting;
    row.(lastRunStatus := plan.finalStatus,
         lastRunAt := Some(plan.finishedAt),
         consecutiveFailures := failures,
         enabled := enabled,
         nextRunAt :=
           if deleting then None
           else if row.cycleType == SEQUENTIAL then
             (if enabled then Some(NextSequentialRun(row.timePoint, plan.finishedAt)) else None)
           else if row.deletedAt.Some? then None
           else row.nextRunAt,
         deleteRequestedAt := None,
         deletedAt := if deleting then Some(plan.finishedAt) else row.deletedAt,
         conversationId := OrElse(plan.conversationId, row.conversationId),
         currentRunId := None, runningStartedAt := None, lastHeartbeatAt := None,
         updatedAt := transactionTime)
  }

  /** `UPDATE ... WHERE id = t.id`. */
  function Replace(tasks: seq<Task>, t: Task): (r: seq<Task>)
    ensures |r| == |tasks|
    ensures forall i :: 0 <= i < |tasks| ==> r[i] == if tasks[i].id == t.id then t else tasks[i]
  {
    seq(|tasks|, i requires 0 <= i < |tasks| => if tasks[i].id == t.id then t else tasks[i])
  }

  function Process(db: Db, row: Task, tick: Tick, threshold: int, transactionTime: int): Db {
    var plan := PlanFor(row, MatchingExecution(db.executions, row), tick.now);
    Db(Replace(db.tasks, Projected(row, plan, threshold, transactionTime)), DrainedExecutions(db.executions, row, tick))
  }

  function StatsOf(verdict: Verdict): Stats {
    match verdict
    case Reused => Stats(1, 0, 0, 1, 1)
    case FailedExisting => Stats(1, 0, 1, 0, 1)
    case Inserted => Stats(1, 1, 0, 0, 1)
  }

  function VerdictFor(db: Db, row: Task): Verdict {
    PlanFor(row, MatchingExecution(db.executions, row), 0).verdict
  }

  // ---------------------------------------------------------------- a whole run

  /** Everything that one run of the script is given. */
  datatype Context = Context(ticks: nat -> Tick, threshold: int, transactionTime: int)

  /** Processes the rows in order, the `i`-th with the `i`-th tick; a dry run leaves the tables alone. */
  function ProcessFrom(db: Db, rows: seq<Task>, c: Context, i: nat, apply: bool): (Db, Stats)
    decreases |rows| - i
  {
    if i >= |rows| then (db, NO_STATS)
    else
      var next := if apply then Process(db, rows[i], c.ticks(i), c.threshold, c.transactionTime) else db;
      var (last, stats) := ProcessFrom(next, rows, c, i + 1, apply);
      (last, Merge(StatsOf(VerdictFor(db, rows[i])), stats))
  }

  function RunScript(db: Db, limit: Option<nat>, c: Context, apply: bool): (Db, Stats) {
    ProcessFrom(db, LegacyRows(db.tasks, limit), c, 0, apply)
  }

  // ---------------------------------------------------------------- selection facts

  predicate UniqueTasks(tasks: seq<Task>) {
    forall i, j :: 0 <= i < j < |tasks| ==> tasks[i].id != tasks[j].id
  }

  lemma {:induction false} LegacyTasksMembers(tasks: seq<Task>)
    ensures forall t :: t in LegacyTasks(tasks) <==> t in tasks && Legacy(t)
  {
    if tasks != [] {
      LegacyTasksMembers(tasks[1..]);
      assert tasks == [tasks[0]] + tasks[1..];
    }
  }

  lemma {:induction false} LegacyTasksUnique(tasks: seq<Task>)
    requires UniqueTasks(tasks)
    ensures UniqueTasks(LegacyTasks(tasks))
  {
    if tasks != [] {
      LegacyTasksUnique(tasks[1..]);
      LegacyTasksMembers(tasks[1..]);
      var rest := LegacyTasks(tasks[1..]);
      forall j | 0 <= j < |rest| ensures rest[j].id != tasks[0].id {
        assert rest[j] in tasks[1..];
        var k :| 0 <= k < |tasks[1..]| && tasks[1..][k] == rest[j];
        assert tasks[k + 1] == rest[j];
      }
    }
  }

  lemma {:induction false} BlockingIsLegacy(tasks: seq<Task>)
    ensures Blocking(tasks) == |LegacyTasks(tasks)|
  {
    if tasks != [] {
      BlockingIsLegacy(tasks[1..]);
    }
  }

  lemma SortUnique(s: seq<Task>, key: Task -> int)
    requires UniqueTasks(s)
    ensures UniqueTasks(Sort(s, key))
  {
    assert Distinct(s, Id);
    SortKeepsDistinct(s, key, Id);
    var t := Sort(s, key);
    forall i, j | 0 <= i < j < |t| ensures t[i].id != t[j].id {
      assert Id(t[i]) != Id(t[j]);
    }
  }

  /** The rows that a run scans. */
  predicate RowsOf(rows: seq<Task>, tasks: seq<Task>) {
    UniqueTasks(rows) && forall i :: 0 <= i < |rows| ==> rows[i] in tasks && Legacy(rows[i])
  }

  function Min(a: nat, b: nat): nat {
    if a < b then a else b
  }

  lemma OrderedMembers(tasks: seq<Task>, t: Task)
    ensures t in Ordered(tasks) <==> t in tasks && Legacy(t)
  {
    LegacyTasksMembers(tasks);
    SameElements(Sort(LegacyTasks(tasks), Id), UpdatedAt, t);
    SameElements(LegacyTasks(tasks), Id, t);
  }

  lemma OrderedUnique(tasks: seq<Task>)
    requires UniqueTasks(tasks)
    ensures UniqueTasks(Ordered(tasks)) && |Ordered(tasks)| == Blocking(tasks)
  {
    LegacyTasksUnique(tasks);
    BlockingIsLegacy(tasks);
    SortUnique(LegacyTasks(tasks), Id);
    SortUnique(Sort(LegacyTasks(tasks), Id), UpdatedAt);
  }

  /** The scan selects distinct legacy rows: all of them, or as many as the limit allows. */
  lemma LegacyRowsFacts(tasks: seq<Task>, limit: Option<nat>)
    requires UniqueTasks(tasks)
    ensures RowsOf(LegacyRows(tasks, limit), tasks)
    ensures |LegacyRows(tasks, limit)| == if limit.Some? then Min(limit.value, Blocking(tasks)) else Blocking(tasks)
    ensures limit.None? ==> LegacyRows(tasks, limit) == Ordered(tasks)
  {
    OrderedUnique(tasks);
    var rows := LegacyRows(tasks, limit);
    forall i | 0 <= i < |rows| ensures rows[i] in tasks && Legacy(rows[i]) {
      assert rows[i] == Ordered(tasks)[i];
      OrderedMembers(tasks, rows[i]);
    }
  }

  /** Oldest first, ties by id. */
  predicate ScanOrder(rows: seq<Task>) {
    forall i, j :: 0 <= i < j < |rows| ==>
      rows[i].updatedAt < rows[j].updatedAt || (rows[i].updatedAt == rows[j].updatedAt && rows[i].id <= rows[j].id)
  }

  lemma {:induction false} InsertKeepsScanOrder(x: Task, s: seq<Task>)
    requires ScanOrder(s)
    requires forall t :: t in s ==> x.id <= t.id
    ensures ScanOrder(Insert(x, s, UpdatedAt))
  {
    if s == [] || UpdatedAt(x) <= UpdatedAt(s[0]) {
      assert forall i :: 0 <= i < |s| ==> s[i] in s;
    } else {
      InsertKeepsScanOrder(x, s[1..]);
      var u := Insert(x, s[1..], UpdatedAt);
      forall i | 0 <= i < |u|
        ensures s[0].updatedAt < u[i].updatedAt || (s[0].updatedAt == u[i].updatedAt && s[0].id <= u[i].id)
      {
        InsertMember(x, s[1..], UpdatedAt, u[i]);
      }
    }
  }

  lemma {:induction false} SortByUpdatedAt(s: seq<Task>)
    requires Sorted(s, Id)
    ensures ScanOrder(Sort(s, UpdatedAt))
  {
    if s != [] {
      SortByUpdatedAt(s[1..]);
      forall t | t in Sort(s[1..], UpdatedAt) ensures s[0].id <= t.id {
        SameElements(s[1..], UpdatedAt, t);
        var k :| 0 <= k < |s[1..]| && s[1..][k] == t;
        assert Id(s[0]) <= Id(s[k + 1]);
      }
      InsertKeepsScanOrder(s[0], Sort(s[1..], UpdatedAt));
    }
  }

  lemma LegacyRowsOrdered(tasks: seq<Task>, limit: Option<nat>)
    ensures ScanOrder(LegacyRows(tasks, limit))
  {
    SortFacts(LegacyTasks(tasks), Id);
    SortByUpdatedAt(Sort(LegacyTasks(tasks), Id));
  }
}
