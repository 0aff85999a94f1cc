/** The drain as the script performs it: table rows updated one statement at a time. */
module ScheduleDatabase {
  import opened Prelude
  import opened Backfill
  import opened BackfillFacts
  import opened BackfillTheorems

  /** The columns that `_task_projection_after_terminal` computes. */
  datatype Projection = Projection(
    lastRunStatus: string,
    lastRunAt: int,
    consecutiveFailures: int,
    enabled: bool,
    nextRunAt: Option<int>,
    deleteRequestedAt: Option<int>,
    deletedAt: Option<int>,
    conversationId: Option<int>)

  /** A row with these columns written and its running columns cleared. */
  function Written(t: Task, p: Projection, transactionTime: int): Task {
    t.(lastRunStatus := p.lastRunStatus, lastRunAt := Some(p.lastRunAt),
       consecutiveFailures := p.consecutiveFailures, enabled := p.enabled,
       nextRunAt := p.nextRunAt, deleteRequestedAt := p.deleteRequestedAt, deletedAt := p.deletedAt,
       conversationId := p.conversationId,
       currentRunId := None, runningStartedAt := None, lastHeartbeatAt := None, updatedAt := transactionTime)
  }

  /** None stands for the `ValueError` on a status that is not terminal. */
  method TaskProjectionAfterTerminal(
      row: Task, finalStatus: string, finishedAt: int, failureThreshold: int, conversationId: Option<int>)
    returns (p: Option<Projection>)
    ensures p.None? <==> row.deletedAt.None? && finalStatus != SUCCESS && finalStatus != FAILED
    ensures forall verdict, now :: p.Some? ==>
      Written(row, p.value, now)
      == Projected(row, Plan(verdict, finalStatus, finishedAt, conversationId), failureThreshold, now)
  {
    var enabled := row.enabled;
    var nextRunAt := row.nextRunAt;
    var deleteRequestedAt := row.deleteRequestedAt;
    var deletedAt := row.deletedAt;
    var consecutiveFailures := row.consecutiveFailures;

    if deletedAt.Some? {
      enabled := false;
      nextRunAt := None;
      deleteRequestedAt := None;
    } else if finalStatus == SUCCESS {
      consecutiveFailures := 0;
    } else if finalStatus == FAILED {
      consecutiveFailures := consecutiveFailures + 1;
      if consecutiveFailures >= failureThreshold {
        enabled := false;
      }
    } else {
      return None;
    }

    if deleteRequestedAt.Some? {
      deletedAt := Some(finishedAt);
      enabled := false;
      nextRunAt := None;
      deleteRequestedAt := None;
    } else if row.cycleType == SEQUENTIAL {
      nextRunAt := if enabled then Some(NextSequentialRun(row.timePoint, finishedAt)) else None;
    }
    p := Some(Projection(finalStatus, finishedAt, consecutiveFailures, enabled, nextRunAt, deleteRequestedAt, deletedAt,
                         OrElse(conversationId, row.conversationId)));
  }

  /** The result of the rows that are left, on top of the totals so far. */
  function WithTotals(stats: Stats, rest: (Db, Stats)): (Db, Stats) {
    (rest.0, Merge(stats, rest.1))
  }

  lemma MergeAssociates(x: Stats, y: Stats, z: Stats)
    ensures Merge(x, Merge(y, z)) == Merge(Merge(x, y), z)
  {
  }

  lemma LoopStep(stats: Stats, db: Db, rows: seq<Task>, c: Context, i: nat, apply: bool)
    requires i < |rows|
    ensures
      WithTotals(stats, ProcessFrom(db, rows, c, i, apply))
      == WithTotals(Merge(stats, StatsOf(VerdictFor(db, rows[i]))),
                    ProcessFrom(if apply then Next(db, rows, c, i) else db, rows, c, i + 1, apply))
  {
    var next := if apply then Next(db, rows, c, i) else db;
    MergeAssociates(stats, StatsOf(VerdictFor(db, rows[i])), ProcessFrom(next, rows, c, i + 1, apply).1);
  }

  lemma LoopEnd(stats: Stats, db: Db, rows: seq<Task>, c: Context, apply: bool)
    ensures WithTotals(stats, ProcessFrom(db, rows, c, |rows|, apply)) == (db, stats)
  {
  }

  class Connection {
    var tasks: seq<Task>
    var executions: map<RunKey, Execution>
    /** The time that `now()` gives within the transaction. */
    const transactionTime: int

    constructor (db: Db, transactionTime: int)
      ensures Value() == db && this.transactionTime == transactionTime
    {
      this.tasks := db.tasks;
      this.executions := db.executions;
      this.transactionTime := transactionTime;
    }

    function Value(): Db
      reads this
    {
      Db(tasks, executions)
    }

    /** The row as it was read is the row that stands in the table: the scan locks it. */
    predicate Current(row: Task)
      reads this
    {
      forall i :: 0 <= i < |tasks| && tasks[i].id == row.id ==> tasks[i] == row
    }

    method ApplyTaskProjection(taskId: int, projection: Projection)
      modifies this`tasks
      ensures |tasks| == |old(tasks)|
      ensures forall i :: 0 <= i < |tasks| ==>
        tasks[i] == if old(tasks)[i].id == taskId then Written(old(tasks)[i], projection, transactionTime) else old(tasks)[i]
    {
      var i := 0;
      while i < |tasks|
        invariant 0 <= i <= |tasks| == |old(tasks)|
        invariant forall k :: 0 <= k < i ==>
          tasks[k] == if old(tasks)[k].id == taskId then Written(old(tasks)[k], projection, transactionTime) else old(tasks)[k]
        invariant forall k :: i <= k < |tasks| ==> tasks[k] == old(tasks)[k]
      {
        if tasks[i].id == taskId {
          tasks := tasks[i := Written(tasks[i], projection, transactionTime)];
        }
        i := i + 1;
      }
    }

    /** `COALESCE` keeps a start and a conversation that the execution already has. */
    method FailExistingExecution(key: RunKey, startedAt: int, finishedAt: int, conversationId: Option<int>)
      requires key in executions
      modifies this`executions
      ensures executions == old(executions)[key := FailExisting(old(executions)[key], startedAt, finishedAt, conversationId)]
    {
      var e := executions[key];
      if e.startedAt.None? {
        e := e.(startedAt := Some(startedAt));
      }
      if e.conversationId.None? {
        e := e.(conversationId := conversationId);
      }
      executions := executions[key := e.(finishedAt := Some(finishedAt), status := FAILED, errorMessage := Some(BACKFILL_ERROR))];
    }

    /** `ON CONFLICT DO NOTHING`. */
    method InsertFailedExecution(row: Task, key: RunKey, scheduledFor: int, startedAt: int, finishedAt: int)
      modifies this`executions
      ensures key in old(executions) ==> executions == old(executions)
      ensures key !in old(executions) ==>
        executions == old(executions)[key :=
          Execution(row.userId, scheduledFor, Some(startedAt), Some(finishedAt), FAILED, Some(BACKFILL_ERROR), row.conversationId)]
    {
      if key !in executions {
        executions := executions[key :=
          Execution(row.userId, scheduledFor, Some(startedAt), Some(finishedAt), FAILED, Some(BACKFILL_ERROR), row.conversationId)];
      }
    }

    method ProcessOneTask(row: Task, applyChanges: bool, tick: Tick, failureThreshold: int) returns (stats: Stats)
      requires applyChanges ==> Current(row)
      modifies this
      ensures
        Value() == if applyChanges then Process(old(Value()), row, tick, failureThreshold, transactionTime) else old(Value())
      ensures stats == StatsOf(VerdictFor(old(Value()), row))
    {
      ghost var before := Value();
      ghost var plan := PlanFor(row, MatchingExecution(executions, row), tick.now);
      stats := NO_STATS.(scanned := 1);
      var key := RunOf(row, tick);
      var startedAt := OrElse(OrElse(row.runningStartedAt, row.lastHeartbeatAt), row.nextRunAt).GetOr(tick.now);
      var scheduledFor := row.nextRunAt.GetOr(startedAt);
      var found := if row.currentRunId.Some? && key in executions then Some(executions[key]) else None;
      var finalStatus := FAILED;
      var finishedAt := tick.now;
      var conversationId := row.conversationId;

      if found.Some? && (found.value.status == SUCCESS || found.value.status == FAILED) {
        finalStatus := found.value.status;
        finishedAt := found.value.finishedAt.GetOr(tick.now);
        conversationId := OrElse(found.value.conversationId, conversationId);
        stats := stats.(reused := stats.reused + 1);
      } else if found.Some? {
        conversationId := OrElse(found.value.conversationId, conversationId);
        if applyChanges {
          FailExistingExecution(key, startedAt, finishedAt, conversationId);
        }
        stats := stats.(failed := stats.failed + 1);
      } else {
        if applyChanges {
          InsertFailedExecution(row, key, scheduledFor, startedAt, finishedAt);
        }
        stats := stats.(inserted := stats.inserted + 1);
      }
      assert plan == Plan(plan.verdict, finalStatus, finishedAt, conversationId);
      assert applyChanges ==> executions == DrainedExecutions(before.executions, row, tick);

      var projection := TaskProjectionAfterTerminal(row, finalStatus, finishedAt, failureThreshold, conversationId);
      if applyChanges {
        ApplyTaskProjection(row.id, projection.value);
        assert tasks == Replace(before.tasks, Projected(row, plan, failureThreshold, transactionTime));
      }
      stats := stats.(updated := stats.updated + 1);
    }

    /** One turn of the loop: the rest of the loop, on top of the new totals, gives what it gave before. */
    method DrainRow(rows: seq<Task>, i: nat, c: Context, apply: bool, stats: Stats) returns (total: Stats)
      requires i < |rows| && c.transactionTime == transactionTime
      requires Ready(Value(), rows, i)
      modifies this
      ensures
        WithTotals(total, ProcessFrom(Value(), rows, c, i + 1, apply))
        == WithTotals(stats, ProcessFrom(old(Value()), rows, c, i, apply))
      ensures Ready(Value(), rows, i + 1)
    {
      LoopStep(stats, Value(), rows, c, i, apply);
      if apply {
        StepKeepsReady(Value(), rows, c, i);
        ReadRowIsCurrent(rows, i);
      }
      var one := ProcessOneTask(rows[i], apply, c.ticks(i), c.threshold);
      total := Merge(stats, one);
    }

    method ProcessRows(rows: seq<Task>, c: Context, apply: bool) returns (stats: Stats)
      requires c.transactionTime == transactionTime
      requires Ready(Value(), rows, 0)
      modifies this
      ensures (Value(), stats) == ProcessFrom(old(Value()), rows, c, 0, apply)
    {
      ghost var goal := ProcessFrom(Value(), rows, c, 0, apply);
      stats := NO_STATS;
      var i := 0;
      while i < |rows|
        invariant Ready(Value(), rows, i)
        invariant WithTotals(stats, ProcessFrom(Value(), rows, c, i, apply)) == goal
      {
        stats := DrainRow(rows, i, c, apply, stats);
        i := i + 1;
      }
      LoopEnd(stats, Value(), rows, c, apply);
    }

    /** The script, with one clock reading and one new run id for each row. */
    method Drain(limit: Option<nat>, ticks: nat -> Tick, thresholdSetting: int, apply: bool) returns (stats: Stats)
      requires UniqueTasks(tasks)
      modifies this
      ensures
        var c := Context(ticks, if thresholdSetting > 1 then thresholdSetting else 1, transactionTime);
        (Value(), stats) == RunScript(old(Value()), limit, c, apply)
    {
      var failureThreshold := if thresholdSetting > 1 then thresholdSetting else 1;
      ScanIsReady(Value(), limit);
      stats := ProcessRows(LegacyRows(tasks, limit), Context(ticks, failureThreshold, transactionTime), apply);
    }

    lemma ReadRowIsCurrent(rows: seq<Task>, i: nat)
      requires i < |rows| && Ready(Value(), rows, i)
      ensures Current(rows[i])
    {
      var k :| 0 <= k < |tasks| && tasks[k] == rows[i];
      forall n | 0 <= n < |tasks| && tasks[n].id == rows[i].id ensures tasks[n] == rows[i] {
        assert n == k;
      }
    }
  }
}
