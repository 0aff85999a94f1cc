/** The guarantees of whole runs of the drain. */
module BackfillTheorems {
  import opened Prelude
  import opened Backfill
  import opened BackfillFacts

  lemma ScanIsReady(db: Db, limit: Option<nat>)
    requires UniqueTasks(db.tasks)
    ensures Ready(db, LegacyRows(db.tasks, limit), 0)
    ensures
      var rows := LegacyRows(db.tasks, limit);
      forall j :: 0 <= j < |rows| ==> Legacy(rows[j]) && BlocksMigration(rows[j])
  {
    LegacyRowsFacts(db.tasks, limit);
  }

  // ---------------------------------------------------------------- the guard of the migration

  /** An applied run takes as many rows from the guard's count as it scans: without a limit, all of them. */
  lemma GuardDischarged(db: Db, limit: Option<nat>, c: Context)
    requires UniqueTasks(db.tasks)
    ensures
      var after := RunScript(db, limit, c, true).0;
      && UniqueTasks(after.tasks)
      && Blocking(after.tasks) == if limit.Some? then Blocking(db.tasks) - Min(limit.value, Blocking(db.tasks)) else 0
  {
    ScanIsReady(db, limit);
    LegacyRowsFacts(db.tasks, limit);
    BlockingAfter(db, LegacyRows(db.tasks, limit), c, 0);
  }

  /** After a run without a limit a second run scans nothing and writes nothing. */
  lemma RerunScansNothing(db: Db, c: Context, again: Context, limit: Option<nat>)
    requires UniqueTasks(db.tasks)
    ensures
      var after := RunScript(db, None, c, true).0;
      RunScript(after, limit, again, true) == (after, NO_STATS)
  {
    GuardDischarged(db, None, c);
    LegacyRowsFacts(RunScript(db, None, c, true).0.tasks, limit);
  }

  /** The script applied again and again with one limit. */
  function Rounds(db: Db, limit: nat, contexts: seq<Context>): Db
    decreases |contexts|
  {
    if contexts == [] then db else Rounds(RunScript(db, Some(limit), contexts[0], true).0, limit, contexts[1..])
  }

  function Left(blocking: nat, limit: nat, rounds: nat): nat {
    if rounds == 0 then blocking else Left(blocking - Min(limit, blocking), limit, rounds - 1)
  }

  lemma {:induction false} LeftIs(blocking: nat, limit: nat, rounds: nat)
    ensures Left(blocking, limit, rounds) == if blocking <= limit * rounds then 0 else blocking - limit * rounds
  {
    if rounds > 0 {
      LeftIs(blocking - Min(limit, blocking), limit, rounds - 1);
      assert limit * rounds == limit * (rounds - 1) + limit;
    }
  }

  lemma {:induction false} RoundsLeave(db: Db, limit: nat, contexts: seq<Context>)
    requires UniqueTasks(db.tasks)
    ensures Blocking(Rounds(db, limit, contexts).tasks) == Left(Blocking(db.tasks), limit, |contexts|)
    decreases |contexts|
  {
    if contexts != [] {
      GuardDischarged(db, Some(limit), contexts[0]);
      RoundsLeave(RunScript(db, Some(limit), contexts[0], true).0, limit, contexts[1..]);
    }
  }

  /** Limited runs meet the guard after exactly as many rounds as the number of legacy rows asks for. */
  lemma LimitedRunsTerminate(db: Db, limit: nat, contexts: seq<Context>)
    requires UniqueTasks(db.tasks)
    ensures Blocking(Rounds(db, limit, contexts).tasks) == 0 <==> Blocking(db.tasks) <= limit * |contexts|
  {
    RoundsLeave(db, limit, contexts);
    LeftIs(Blocking(db.tasks), limit, |contexts|);
  }

  // ---------------------------------------------------------------- the task table

  /** The table holds an ended execution of the run that the row names. */
  predicate HasEnded(db: Db, row: Task, e: Execution) {
    && row.currentRunId.Some?
    && RunKey(row.id, row.currentRunId.value) in db.executions
    && db.executions[RunKey(row.id, row.currentRunId.value)] == e
    && (e.status == "success" || e.status == "failed")
  }

  /** The table holds an execution of the run that the row names. */
  predicate HasRun(db: Db, row: Task, e: Execution) {
    && row.currentRunId.Some?
    && RunKey(row.id, row.currentRunId.value) in db.executions
    && db.executions[RunKey(row.id, row.currentRunId.value)] == e
  }

  /**
   * The outcome that a drained row shows: status and finish time of its ended execution, or failed at
   * the time of its tick; and the conversation of its execution, or its own.
   */
  ghost predicate ShowsRun(db: Db, row: Task, r: Task, now: int) {
    && (forall e :: HasEnded(db, row, e) ==>
          r.lastRunStatus == e.status && r.lastRunAt == (if e.finishedAt.Some? then e.finishedAt else Some(now)))
    && ((forall e :: !HasEnded(db, row, e)) ==> r.lastRunStatus == "failed" && r.lastRunAt == Some(now))
    && (forall e :: HasRun(db, row, e) && e.conversationId.Some? ==> r.conversationId == e.conversationId)
    && ((forall e :: HasRun(db, row, e) ==> e.conversationId.None?) ==> r.conversationId == row.conversationId)
  }

  lemma ProjectionShowsRun(db: Db, row: Task, tick: Tick, threshold: int, transactionTime: int)
    ensures ShowsRun(db, row, Projected(row, PlanOf(db, row, tick), threshold, transactionTime), tick.now)
  {
    if row.currentRunId.Some? && RunKey(row.id, row.currentRunId.value) in db.executions {
      var e := db.executions[RunKey(row.id, row.currentRunId.value)];
      assert HasRun(db, row, e);
      assert Ended(e) ==> HasEnded(db, row, e);
    }
  }

  /**
   * Every row that was scanned is drained and shows the execution that the table held before the run:
   * the next sequential run and a new deletion are measured from the time at which that execution
   * finished, or from the tick.
   */
  lemma ScannedRowsAreDrained(db: Db, limit: Option<nat>, c: Context, j: nat, k: nat)
    requires UniqueTasks(db.tasks)
    requires j < |LegacyRows(db.tasks, limit)|
    requires k < |db.tasks| && db.tasks[k] == LegacyRows(db.tasks, limit)[j]
    ensures
      var after := RunScript(db, limit, c, true).0;
      && |after.tasks| == |db.tasks|
      && ShowsRun(db, db.tasks[k], after.tasks[k], c.ticks(j).now)
      && after.tasks[k].lastRunAt.Some?
      && Drained(db.tasks[k], after.tasks[k], after.tasks[k].lastRunAt.value, c.threshold)
      && after.tasks[k].updatedAt == c.transactionTime
  {
    var rows := LegacyRows(db.tasks, limit);
    ScanIsReady(db, limit);
    TaskDrained(db, rows, c, 0, j, k);
    ProjectionIsDrained(rows[j], MatchingExecution(db.executions, rows[j]), c.ticks(j).now, c.threshold, c.transactionTime);
    ProjectionShowsRun(db, rows[j], c.ticks(j), c.threshold, c.transactionTime);
  }

  /** Every other row stays as it was. */
  lemma OtherRowsAreKept(db: Db, limit: Option<nat>, c: Context, k: nat)
    requires UniqueTasks(db.tasks)
    requires k < |db.tasks| && db.tasks[k] !in LegacyRows(db.tasks, limit)
    ensures
      var after := RunScript(db, limit, c, true).0;
      |after.tasks| == |db.tasks| && after.tasks[k] == db.tasks[k]
  {
    var rows := LegacyRows(db.tasks, limit);
    ScanIsReady(db, limit);
    forall j | 0 <= j < |rows| ensures rows[j].id != db.tasks[k].id {
      var n :| 0 <= n < |db.tasks| && db.tasks[n] == rows[j];
      assert rows[j] in rows;
    }
    TaskKept(db, rows, c, 0, k);
  }

  /** What one row may look like after a run, whatever happened to it. */
  predicate RowOutcome(row: Task, r: Task, threshold: int) {
    && r.id == row.id && r.cycleType == row.cycleType
    && (r.enabled ==> row.enabled)
    && (!Legacy(row) ==> r == row)
    && (Legacy(r) ==> r == row)
    && (r != row ==>
          && RunningConstraints(r)
          && r.deleteRequestedAt.None?
          && (r.deletedAt.Some? ==> !r.enabled && r.nextRunAt.None?)
          && (r.enabled && r.lastRunStatus == FAILED ==> r.consecutiveFailures < threshold)
          && (r.enabled && r.cycleType == SEQUENTIAL ==>
                r.lastRunAt.Some? && r.nextRunAt.Some? && 300 <= r.nextRunAt.value - r.lastRunAt.value <= 86400))
  }

  lemma EveryRowOutcome(db: Db, limit: Option<nat>, c: Context, k: nat)
    requires UniqueTasks(db.tasks) && k < |db.tasks|
    ensures
      var after := RunScript(db, limit, c, true).0;
      && |after.tasks| == |db.tasks|
      && RowOutcome(db.tasks[k], after.tasks[k], c.threshold)
      && (limit.None? ==> !Legacy(after.tasks[k]) && (Legacy(db.tasks[k]) ==> after.tasks[k] != db.tasks[k]))
  {
    var rows := LegacyRows(db.tasks, limit);
    LegacyRowsFacts(db.tasks, limit);
    OrderedMembers(db.tasks, db.tasks[k]);
    if db.tasks[k] in rows {
      var j :| 0 <= j < |rows| && rows[j] == db.tasks[k];
      ScannedRowsAreDrained(db, limit, c, j, k);
      ScanIsReady(db, limit);
      TaskDrained(db, rows, c, 0, j, k);
    } else {
      OtherRowsAreKept(db, limit, c, k);
    }
  }

  // ---------------------------------------------------------------- the execution table

  /** The run of a scanned row ends with one terminal execution, whose outcome is the task's. */
  lemma ScannedRunsAreSettled(db: Db, limit: Option<nat>, c: Context, j: nat)
    requires UniqueTasks(db.tasks)
    requires j < |LegacyRows(db.tasks, limit)|
    requires Fresh(db.executions, LegacyRows(db.tasks, limit)[j], c.ticks(j))
    ensures
      var after := RunScript(db, limit, c, true).0;
      var row := LegacyRows(db.tasks, limit)[j];
      var key := RunOf(row, c.ticks(j));
      Settles(row, Lookup(db.executions, key), Lookup(after.executions, key), c.ticks(j))
  {
    var rows := LegacyRows(db.tasks, limit);
    ScanIsReady(db, limit);
    ExecutionDrained(db, rows, c, 0, j);
    StepSettles(db.executions, rows[j], c.ticks(j));
  }

  lemma StepKeepsEnded(executions: map<RunKey, Execution>, row: Task, tick: Tick, key: RunKey)
    requires key in executions
    ensures key in DrainedExecutions(executions, row, tick)
    ensures Ended(executions[key]) ==> DrainedExecutions(executions, row, tick)[key] == executions[key]
  {
  }

  lemma {:induction false} EndedExecutionsKept(db: Db, rows: seq<Task>, c: Context, i: nat, key: RunKey)
    requires key in db.executions
    ensures key in Final(db, rows, c, i).executions
    ensures Ended(db.executions[key]) ==> Final(db, rows, c, i).executions[key] == db.executions[key]
    decreases |rows| - i
  {
    if i < |rows| {
      StepKeepsEnded(db.executions, rows[i], c.ticks(i), key);
      EndedExecutionsKept(Next(db, rows, c, i), rows, c, i + 1, key);
    }
  }

  /** Executions of no scanned run, and those that had ended, are untouched; none is lost. */
  lemma OtherRunsAreKept(db: Db, limit: Option<nat>, c: Context, key: RunKey)
    requires UniqueTasks(db.tasks)
    ensures
      var after := RunScript(db, limit, c, true).0;
      var rows := LegacyRows(db.tasks, limit);
      && (key in db.executions ==> key in after.executions)
      && (key in db.executions && Ended(db.executions[key]) ==> after.executions[key] == db.executions[key])
      && ((forall j :: 0 <= j < |rows| ==> RunOf(rows[j], c.ticks(j)) != key) ==>
            Lookup(after.executions, key) == Lookup(db.executions, key))
  {
    var rows := LegacyRows(db.tasks, limit);
    ScanIsReady(db, limit);
    if key in db.executions {
      EndedExecutionsKept(db, rows, c, 0, key);
    }
    if forall j :: 0 <= j < |rows| ==> RunOf(rows[j], c.ticks(j)) != key {
      ExecutionKept(db, rows, c, 0, key);
    }
  }

  // ---------------------------------------------------------------- the totals

  predicate Balanced(s: Stats, n: nat) {
    s.scanned == n && s.updated == n && s.inserted + s.failed + s.reused == n
  }

  lemma MergeBalances(v: Verdict, s: Stats, n: nat)
    requires Balanced(s, n)
    ensures Balanced(Merge(StatsOf(v), s), n + 1)
  {
  }

  lemma {:induction false} TotalsBalance(db: Db, rows: seq<Task>, c: Context, i: nat, apply: bool)
    requires i <= |rows|
    ensures Balanced(TotalsFrom(db, rows, c, i, apply), |rows| - i)
    decreases |rows| - i
  {
    if i < |rows| {
      var next := if apply then Next(db, rows, c, i) else db;
      TotalsBalance(next, rows, c, i + 1, apply);
      MergeBalances(VerdictFor(db, rows[i]), TotalsFrom(next, rows, c, i + 1, apply), |rows| - i - 1);
    }
  }

  /** The table knows the run of the row, and whether it ended. */
  predicate KnownRun(db: Db, row: Task, ended: bool) {
    && row.currentRunId.Some?
    && RunKey(row.id, row.currentRunId.value) in db.executions
    && Ended(db.executions[RunKey(row.id, row.currentRunId.value)]) == ended
  }

  function KnownRuns(db: Db, rows: seq<Task>, i: nat, ended: bool): nat
    decreases |rows| - i
  {
    if i >= |rows| then 0 else (if KnownRun(db, rows[i], ended) then 1 else 0) + KnownRuns(db, rows, i + 1, ended)
  }

  lemma VerdictCountsRun(db: Db, row: Task)
    ensures StatsOf(VerdictFor(db, row)).reused == if KnownRun(db, row, true) then 1 else 0
    ensures StatsOf(VerdictFor(db, row)).failed == if KnownRun(db, row, false) then 1 else 0
  {
  }

  lemma DryTotals(db: Db, rows: seq<Task>, c: Context, i: nat)
    requires i < |rows|
    ensures
      TotalsFrom(db, rows, c, i, false) == Merge(StatsOf(VerdictFor(db, rows[i])), TotalsFrom(db, rows, c, i + 1, false))
  {
  }

  /** The counts of two totals add up. */
  lemma MergeCounts(v: Stats, rest: Stats, reused: nat, failed: nat)
    requires rest.reused == reused && rest.failed == failed
    ensures Merge(v, rest).reused == v.reused + reused && Merge(v, rest).failed == v.failed + failed
  {
  }

  lemma {:induction false} TotalsCountRuns(db: Db, rows: seq<Task>, c: Context, i: nat)
    requires i <= |rows|
    ensures TotalsFrom(db, rows, c, i, false).reused == KnownRuns(db, rows, i, true)
    ensures TotalsFrom(db, rows, c, i, false).failed == KnownRuns(db, rows, i, false)
    decreases |rows| - i
  {
    if i == |rows| {
      assert ProcessFrom(db, rows, c, i, false) == (db, NO_STATS);
    } else {
      var rest := TotalsFrom(db, rows, c, i + 1, false);
      TotalsCountRuns(db, rows, c, i + 1);
      DryTotals(db, rows, c, i);
      VerdictCountsRun(db, rows[i]);
      MergeCounts(StatsOf(VerdictFor(db, rows[i])), rest, KnownRuns(db, rows, i + 1, true), KnownRuns(db, rows, i + 1, false));
    }
  }

  /** The dry run reads the tables as they were, the applied run as it leaves them: the totals agree. */
  lemma {:induction false} TotalsAgree(db: Db, dry: Db, rows: seq<Task>, c: Context, other: Context, i: nat)
    requires UniqueTasks(rows)
    requires forall j :: i <= j < |rows| ==> VerdictFor(db, rows[j]) == VerdictFor(dry, rows[j])
    ensures TotalsFrom(db, rows, c, i, true) == TotalsFrom(dry, rows, other, i, false)
    decreases |rows| - i
  {
    if i < |rows| {
      var next := Next(db, rows, c, i);
      forall j | i + 1 <= j < |rows| ensures VerdictFor(next, rows[j]) == VerdictFor(dry, rows[j]) {
        OtherTasksSeeNoChange(db, rows[i], rows[j], c, i);
      }
      TotalsAgree(next, dry, rows, c, other, i + 1);
    }
  }

  /**
   * A dry run writes nothing and reports, at whatever time it runs, what the applied run reports: as
   * many reused and failed executions as the scanned rows have ended and unended ones.
   */
  lemma DryRunPredicts(db: Db, limit: Option<nat>, c: Context, dry: Context)
    requires UniqueTasks(db.tasks)
    ensures RunScript(db, limit, dry, false).1 == RunScript(db, limit, c, true).1
    ensures RunScript(db, limit, dry, false).0 == db
    ensures
      var totals := RunScript(db, limit, c, true).1;
      && Balanced(totals, if limit.Some? then Min(limit.value, Blocking(db.tasks)) else Blocking(db.tasks))
      && totals.reused == KnownRuns(db, LegacyRows(db.tasks, limit), 0, true)
      && totals.failed == KnownRuns(db, LegacyRows(db.tasks, limit), 0, false)
  {
    var rows := LegacyRows(db.tasks, limit);
    ScanIsReady(db, limit);
    LegacyRowsFacts(db.tasks, limit);
    TotalsAgree(db, db, rows, c, dry, 0);
    TotalsCountRuns(db, rows, dry, 0);
    TotalsBalance(db, rows, c, 0, true);
    DryRunWritesNothing(db, rows, dry, 0);
  }

  lemma {:induction false} DryRunWritesNothing(db: Db, rows: seq<Task>, c: Context, i: nat)
    ensures ProcessFrom(db, rows, c, i, false).0 == db
    decreases |rows| - i
  {
    if i < |rows| {
      DryRunWritesNothing(db, rows, c, i + 1);
    }
  }

  /** The reported number of insertions is the growth of the execution table. */
  lemma {:induction false} InsertionsCounted(db: Db, rows: seq<Task>, c: Context, i: nat)
    requires Ready(db, rows, i)
    requires forall j :: i <= j < |rows| ==> Fresh(db.executions, rows[j], c.ticks(j))
    ensures
      |Final(db, rows, c, i).executions| == |db.executions| + TotalsFrom(db, rows, c, i, true).inserted
    decreases |rows| - i
  {
    if i < |rows| {
      var next := Next(db, rows, c, i);
      StepKeepsReady(db, rows, c, i);
      StepSettles(db.executions, rows[i], c.ticks(i));
      forall j | i + 1 <= j < |rows| ensures Fresh(next.executions, rows[j], c.ticks(j)) {
        OtherExecutionsKept(db.executions, rows[i], c.ticks(i), RunOf(rows[j], c.ticks(j)));
      }
      InsertionsCounted(next, rows, c, i + 1);
    }
  }
}
