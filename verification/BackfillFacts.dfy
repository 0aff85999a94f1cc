/** What the drain of legacy running state guarantees. */
module BackfillFacts {
  import opened Prelude
  import opened Backfill

  // ---------------------------------------------------------------- one row

  /** The check constraints on the running columns of a task row. */
  predicate RunningConstraints(t: Task) {
    (t.lastRunStatus != RUNNING || (t.currentRunId.Some? && t.runningStartedAt.Some?))
    && (t.currentRunId.None? || t.lastRunStatus == RUNNING)
  }

  /** The script selects exactly the rows over which the migration stops. */
  lemma GuardIsTheSelection(t: Task)
    ensures Legacy(t) <==> BlocksMigration(t)
  {
  }

  lemma IntervalBounds(p: TimePoint)
    ensures 5 <= NormalizeMinutes(p) <= 1440
  {
  }

  function Distance(a: int, b: int): nat {
    if a < b then b - a else a - b
  }

  /** The interval is the admissible number of minutes nearest to the configured one; `minutes` comes first. */
  lemma IntervalIsNearest(p: TimePoint, i: int, m: int)
    requires p.Object? && (if p.minutes.Some? then p.minutes else p.intervalMinutes) == Some(Int(i))
    requires 5 <= m <= 1440
    ensures Distance(NormalizeMinutes(p), i) <= Distance(m, i)
  {
  }

  /** A time point that configures no whole number of minutes means five. */
  lemma IntervalDefault(p: TimePoint)
    requires p.Object? ==>
      var raw := if p.minutes.Some? then p.minutes else p.intervalMinutes;
      raw.None? || !raw.value.Int?
    ensures NormalizeMinutes(p) == 5
  {
  }

  /** What holds of every row that the script writes. */
  predicate Drained(row: Task, r: Task, finishedAt: int, threshold: int) {
    && r.id == row.id && r.userId == row.userId && r.cycleType == row.cycleType && r.timePoint == row.timePoint
    && !BlocksMigration(r) && RunningConstraints(r)
    && (r.lastRunStatus == SUCCESS || r.lastRunStatus == FAILED)
    && r.lastRunAt == Some(finishedAt)
    && r.deleteRequestedAt.None?
    && (r.deletedAt.Some? <==> row.deletedAt.Some? || row.deleteRequestedAt.Some?)
    && (row.deletedAt.None? && row.deleteRequestedAt.Some? ==> r.deletedAt == Some(finishedAt))
    && (row.deletedAt.Some? ==> r.deletedAt == row.deletedAt && r.consecutiveFailures == row.consecutiveFailures)
    && (r.deletedAt.Some? ==> !r.enabled && r.nextRunAt.None?)
    && (r.enabled <==>
          row.enabled && r.deletedAt.None? && (r.lastRunStatus == FAILED ==> r.consecutiveFailures < threshold))
    && (row.deletedAt.None? && r.lastRunStatus == SUCCESS ==> r.consecutiveFailures == 0)
    && (row.deletedAt.None? && r.lastRunStatus == FAILED ==> r.consecutiveFailures == row.consecutiveFailures + 1)
    && (r.cycleType == SEQUENTIAL ==> (r.enabled <==> r.nextRunAt.Some?))
    && (r.cycleType == SEQUENTIAL && r.enabled ==>
          r.nextRunAt.value - finishedAt == 60 * NormalizeMinutes(r.timePoint)
          && 300 <= r.nextRunAt.value - finishedAt <= 86400)
    && (r.cycleType != SEQUENTIAL && r.deletedAt.None? ==> r.nextRunAt == row.nextRunAt)
  }

  lemma ProjectionIsDrained(row: Task, execution: Option<Execution>, now: int, threshold: int, transactionTime: int)
    ensures
      var plan := PlanFor(row, execution, now);
      Drained(row, Projected(row, plan, threshold, transactionTime), plan.finishedAt, threshold)
  {
    IntervalBounds(row.timePoint);
  }

  // ---------------------------------------------------------------- the executions of one step

  function Lookup(executions: map<RunKey, Execution>, key: RunKey): Option<Execution> {
    if key in executions then Some(executions[key]) else None
  }

  /** A new run id names no execution yet. */
  predicate Fresh(executions: map<RunKey, Execution>, row: Task, tick: Tick) {
    row.currentRunId.None? ==> RunOf(row, tick) !in executions
  }

  lemma OtherExecutionsKept(executions: map<RunKey, Execution>, row: Task, tick: Tick, key: RunKey)
    requires key != RunOf(row, tick)
    ensures Lookup(DrainedExecutions(executions, row, tick), key) == Lookup(executions, key)
  {
  }

  lemma OtherTasksSeeNoChange(db: Db, row: Task, other: Task, c: Context, i: nat)
    requires row.id != other.id
    ensures
      MatchingExecution(Process(db, row, c.ticks(i), c.threshold, c.transactionTime).executions, other)
      == MatchingExecution(db.executions, other)
  {
  }

  /** An execution that has ended. */
  predicate Ended(e: Execution) {
    e.status == "success" || e.status == "failed"
  }

  /** When the run of a row started, as far as the row tells: the first of three columns that is set, else now. */
  predicate StartOf(row: Task, now: int, started: int) {
    && (row.runningStartedAt.Some? ==> row.runningStartedAt == Some(started))
    && (row.runningStartedAt.None? && row.lastHeartbeatAt.Some? ==> row.lastHeartbeatAt == Some(started))
    && (row.runningStartedAt.None? && row.lastHeartbeatAt.None? && row.nextRunAt.Some? ==> row.nextRunAt == Some(started))
    && (row.runningStartedAt.None? && row.lastHeartbeatAt.None? && row.nextRunAt.None? ==> started == now)
  }

  /** An execution that the script failed at `now`: what it had is kept, the row gives the rest. */
  predicate FailedFrom(row: Task, e: Execution, last: Execution, now: int) {
    && last.status == "failed" && last.finishedAt == Some(now) && last.errorMessage == Some(BACKFILL_ERROR)
    && last.userId == e.userId && last.scheduledFor == e.scheduledFor
    && last.startedAt.Some?
    && (if e.startedAt.Some? then last.startedAt == e.startedAt else StartOf(row, now, last.startedAt.value))
    && last.conversationId == (if e.conversationId.Some? then e.conversationId else row.conversationId)
  }

  /** An execution that the script inserted for a run that had none. */
  predicate InsertedFor(row: Task, last: Execution, now: int) {
    && last.status == "failed" && last.finishedAt == Some(now) && last.errorMessage == Some(BACKFILL_ERROR)
    && last.userId == row.userId && last.conversationId == row.conversationId
    && last.startedAt.Some? && StartOf(row, now, last.startedAt.value)
    && last.scheduledFor == (if row.nextRunAt.Some? then row.nextRunAt.value else last.startedAt.value)
  }

  /** How the execution of a drained run compares with what was found: an ended one is untouched. */
  predicate Settles(row: Task, found: Option<Execution>, last: Option<Execution>, tick: Tick) {
    && last.Some? && Ended(last.value)
    && (found.Some? && Ended(found.value) ==> last == found)
    && (found.Some? && !Ended(found.value) ==> FailedFrom(row, found.value, last.value, tick.now))
    && (found.None? ==> InsertedFor(row, last.value, tick.now))
  }

  lemma StepSettles(executions: map<RunKey, Execution>, row: Task, tick: Tick)
    requires Fresh(executions, row, tick)
    ensures
      Settles(row, Lookup(executions, RunOf(row, tick)), Lookup(DrainedExecutions(executions, row, tick), RunOf(row, tick)), tick)
    ensures |DrainedExecutions(executions, row, tick)| == |executions| + StatsOf(PlanFor(row, MatchingExecution(executions, row), 0).verdict).inserted
  {
  }

  /** One step looks at no execution but that of its own run. */
  lemma StepIsLocal(one: map<RunKey, Execution>, two: map<RunKey, Execution>, row: Task, tick: Tick)
    requires Lookup(one, RunOf(row, tick)) == Lookup(two, RunOf(row, tick))
    ensures MatchingExecution(one, row) == MatchingExecution(two, row)
    ensures
      Lookup(DrainedExecutions(one, row, tick), RunOf(row, tick)) == Lookup(DrainedExecutions(two, row, tick), RunOf(row, tick))
  {
  }

  // ---------------------------------------------------------------- all steps

  /** The rows that are still to be processed stand in the task table as they were read. */
  predicate Ready(db: Db, rows: seq<Task>, i: nat) {
    && i <= |rows|
    && UniqueTasks(db.tasks) && UniqueTasks(rows)
    && forall j :: i <= j < |rows| ==> rows[j] in db.tasks
  }

  function Next(db: Db, rows: seq<Task>, c: Context, i: nat): Db
    requires i < |rows|
  {
    Process(db, rows[i], c.ticks(i), c.threshold, c.transactionTime)
  }

  lemma StepKeepsReady(db: Db, rows: seq<Task>, c: Context, i: nat)
    requires Ready(db, rows, i) && i < |rows|
    ensures Ready(Next(db, rows, c, i), rows, i + 1)
  {
    var next := Next(db, rows, c, i);
    forall j | i + 1 <= j < |rows| ensures rows[j] in next.tasks {
      var k :| 0 <= k < |db.tasks| && db.tasks[k] == rows[j];
      assert next.tasks[k] == rows[j];
    }
  }

  function Final(db: Db, rows: seq<Task>, c: Context, i: nat): Db {
    ProcessFrom(db, rows, c, i, true).0
  }

  function TotalsFrom(db: Db, rows: seq<Task>, c: Context, i: nat, apply: bool): Stats {
    ProcessFrom(db, rows, c, i, apply).1
  }

  lemma {:induction false} TaskKept(db: Db, rows: seq<Task>, c: Context, i: nat, k: nat)
    requires k < |db.tasks|
    requires forall j :: i <= j < |rows| ==> rows[j].id != db.tasks[k].id
    ensures |Final(db, rows, c, i).tasks| == |db.tasks| && Final(db, rows, c, i).tasks[k] == db.tasks[k]
    decreases |rows| - i
  {
    if i < |rows| {
      TaskKept(Next(db, rows, c, i), rows, c, i + 1, k);
    }
  }

  function PlanOf(db: Db, row: Task, tick: Tick): Plan {
    PlanFor(row, MatchingExecution(db.executions, row), tick.now)
  }

  lemma {:induction false} TaskDrained(db: Db, rows: seq<Task>, c: Context, i: nat, j: nat, k: nat)
    requires Ready(db, rows, i) && i <= j < |rows|
    requires k < |db.tasks| && db.tasks[k] == rows[j]
    ensures |Final(db, rows, c, i).tasks| == |db.tasks|
    ensures
      Final(db, rows, c, i).tasks[k]
      == Projected(rows[j], PlanOf(db, rows[j], c.ticks(j)), c.threshold, c.transactionTime)
    decreases |rows| - i
  {
    var next := Next(db, rows, c, i);
    StepKeepsReady(db, rows, c, i);
    if i == j {
      assert next.tasks[k].id == rows[j].id;
      TaskKept(next, rows, c, i + 1, k);
    } else {
      OtherTasksSeeNoChange(db, rows[i], rows[j], c, i);
      TaskDrained(next, rows, c, i + 1, j, k);
    }
  }

  lemma {:induction false} ExecutionKept(db: Db, rows: seq<Task>, c: Context, i: nat, key: RunKey)
    requires forall j :: i <= j < |rows| ==> RunOf(rows[j], c.ticks(j)) != key
    ensures Lookup(Final(db, rows, c, i).executions, key) == Lookup(db.executions, key)
    decreases |rows| - i
  {
    if i < |rows| {
      OtherExecutionsKept(db.executions, rows[i], c.ticks(i), key);
      ExecutionKept(Next(db, rows, c, i), rows, c, i + 1, key);
    }
  }

  lemma {:induction false} ExecutionDrained(db: Db, rows: seq<Task>, c: Context, i: nat, j: nat)
    requires Ready(db, rows, i) && i <= j < |rows|
    ensures
      var key := RunOf(rows[j], c.ticks(j));
      Lookup(Final(db, rows, c, i).executions, key) == Lookup(DrainedExecutions(db.executions, rows[j], c.ticks(j)), key)
    decreases |rows| - i
  {
    var next := Next(db, rows, c, i);
    var key := RunOf(rows[j], c.ticks(j));
    StepKeepsReady(db, rows, c, i);
    if i == j {
      ExecutionKept(next, rows, c, i + 1, key);
    } else {
      OtherExecutionsKept(db.executions, rows[i], c.ticks(i), key);
      StepIsLocal(db.executions, next.executions, rows[j], c.ticks(j));
      ExecutionDrained(next, rows, c, i + 1, j);
    }
  }

  // ---------------------------------------------------------------- the guard

  lemma {:induction false} NothingReplaced(tasks: seq<Task>, t: Task)
    requires forall k :: 0 <= k < |tasks| ==> tasks[k].id != t.id
    ensures Replace(tasks, t) == tasks
  {
  }

  /** Draining one row takes one row from those that stop the migration. */
  lemma {:induction false} OneLess(tasks: seq<Task>, row: Task, t: Task)
    requires UniqueTasks(tasks) && row in tasks && BlocksMigration(row)
    requires t.id == row.id && !BlocksMigration(t)
    ensures Blocking(Replace(tasks, t)) == Blocking(tasks) - 1
  {
    var next := Replace(tasks, t);
    if tasks[0] == row {
      NothingReplaced(tasks[1..], t);
      assert next[1..] == tasks[1..];
    } else {
      assert next[1..] == Replace(tasks[1..], t);
      var k :| 0 <= k < |tasks| && tasks[k] == row;
      assert tasks[1..][k - 1] == row;
      OneLess(tasks[1..], row, t);
    }
  }

  lemma {:induction false} BlockingAfter(db: Db, rows: seq<Task>, c: Context, i: nat)
    requires Ready(db, rows, i)
    requires forall j :: i <= j < |rows| ==> BlocksMigration(rows[j])
    ensures Blocking(Final(db, rows, c, i).tasks) == Blocking(db.tasks) - (|rows| - i)
    ensures UniqueTasks(Final(db, rows, c, i).tasks)
    decreases |rows| - i
  {
    if i < |rows| {
      var plan := PlanOf(db, rows[i], c.ticks(i));
      OneLess(db.tasks, rows[i], Projected(rows[i], plan, c.threshold, c.transactionTime));
      StepKeepsReady(db, rows, c, i);
      BlockingAfter(Next(db, rows, c, i), rows, c, i + 1);
    }
  }
}
