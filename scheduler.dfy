/**
 * internal/scheduler/execute.go, execute_now.go and task.go: the map from task
 * ids to cron entries, the 5-to-6-field cron rewrite, the start-up load loop and
 * the status lifecycle of a backup log. The cron library's parser is an input
 * (`accepts`); its firing times are not modelled.
 */
module Scheduler {
  import opened Wrappers
  import opened Strings
  import TaskModel
  import TaskHandler
  import opened LogModel

  /** normalizeCron: a 5-field expression gets a leading "0" seconds field; anything else is kept. */
  function NormalizeCron(expr: string): (r: string)
    ensures |Fields(expr)| == 5 ==> r == "0 " + expr
    ensures |Fields(expr)| != 5 ==> r == expr
  {
    if |Fields(expr)| == 5 then "0 " + expr else expr
  }

  /** Prefixing "0 " adds exactly one field in front. */
  lemma FieldsOfSecondsPrefix(expr: string)
    ensures Fields("0 " + expr) == ["0"] + Fields(expr)
  {
    FieldsOfPrefixedField("0", expr);
    assert "0" + " " + expr == "0 " + expr;
  }

  /** Normalising twice is normalising once. */
  lemma NormalizeCronIdempotent(expr: string)
    ensures NormalizeCron(NormalizeCron(expr)) == NormalizeCron(expr)
  {
    if |Fields(expr)| == 5 {
      FieldsOfSecondsPrefix(expr);
    }
  }

  /** Every non-empty expression the task handler accepts reaches the cron library with 6 fields. */
  lemma ValidatedCronHasSixFields(expr: string)
    requires expr != "" && TaskHandler.ValidateCronExpression(expr).None?
    ensures |Fields(NormalizeCron(expr))| == 6
  {
    if |Fields(expr)| == 5 {
      FieldsOfSecondsPrefix(expr);
    }
  }

  datatype SchedulerError =
    | AddJobFailed   // "failed to add cron job"
    | LoadFailed     // "failed to load tasks"

  /** What a cron job does when it fires: it re-reads the task and runs it only if still enabled. */
  datatype JobAction = FetchFailed | SkipDisabled | Execute(task: TaskModel.BackupTask)

  /** The job body of AddTask, given what the database returns for the task id. */
  function FireJob(latest: Option<TaskModel.BackupTask>): (r: JobAction)
    ensures r.Execute? <==> latest.Some? && latest.value.enabled
    ensures r.Execute? ==> r.task == latest.value
    ensures latest.None? <==> r == FetchFailed
  {
    match latest
    case None => FetchFailed
    case Some(t) => if !t.enabled then SkipDisabled else Execute(t)
  }

  /**
   * The scheduler's bookkeeping: `taskEntries` (task id to cron entry id) and the cron
   * runner's own entries, `jobs` (entry id to the task id its job re-reads).
   */
  class Scheduler {
    var taskEntries: map<nat, nat>
    var jobs: map<nat, nat>
    var lastEntryID: nat

    /** Every task's entry is a live job for that task, every job belongs to its task, and ids are issued in order. */
    predicate Consistent()
      reads this
    {
      (forall t :: t in taskEntries ==> taskEntries[t] in jobs && jobs[taskEntries[t]] == t)
      && (forall e :: e in jobs ==> jobs[e] in taskEntries && taskEntries[jobs[e]] == e)
      && (forall e :: e in jobs ==> e <= lastEntryID)
    }

    constructor ()
      ensures taskEntries == map[] && jobs == map[] && lastEntryID == 0
      ensures Consistent()
    {
      taskEntries := map[];
      jobs := map[];
      lastEntryID := 0;
    }

    /**
     * AddTask: schedules the normalised expression; on success the new entry is recorded
     * under the task id, on a parse error nothing changes. A task that already had an
     * entry keeps its old job running (callers remove first).
     */
    method AddTask(task: TaskModel.BackupTask, accepts: string -> bool) returns (err: Option<SchedulerError>)
      modifies this
      ensures err.None? <==> accepts(NormalizeCron(task.cronExpression))
      ensures err.None? ==> (lastEntryID == old(lastEntryID) + 1
                             && taskEntries == old(taskEntries)[task.id := lastEntryID]
                             && jobs == old(jobs)[lastEntryID := task.id])
      ensures err.Some? ==> taskEntries == old(taskEntries) && jobs == old(jobs) && lastEntryID == old(lastEntryID)
      ensures old(Consistent()) && task.id !in old(taskEntries) ==> Consistent()
    {
      var cronExpr := NormalizeCron(task.cronExpression);
      if !accepts(cronExpr) {
        return Some(AddJobFailed);
      }
      lastEntryID := lastEntryID + 1;
      jobs := jobs[lastEntryID := task.id];
      taskEntries := taskEntries[task.id := lastEntryID];
      err := None;
    }

    /** RemoveTask: drops the task's job and entry if it has one; otherwise nothing changes. */
    method RemoveTask(taskID: nat)
      modifies this
      ensures taskID in old(taskEntries) ==>
        taskEntries == old(taskEntries) - {taskID} && jobs == old(jobs) - {old(taskEntries)[taskID]}
      ensures taskID !in old(taskEntries) ==> taskEntries == old(taskEntries) && jobs == old(jobs)
      ensures lastEntryID == old(lastEntryID)
      ensures old(Consistent()) ==> Consistent()
    {
      if taskID in taskEntries {
        var entryID := taskEntries[taskID];
        jobs := jobs - {entryID};
        taskEntries := taskEntries - {taskID};
      }
    }

    /**
     * UpdateTask: removes first and re-adds only an enabled task with an expression, so
     * afterwards the task has at most one job and no other task's entry has moved.
     */
    method UpdateTask(task: TaskModel.BackupTask, accepts: string -> bool) returns (err: Option<SchedulerError>)
      modifies this
      ensures !task.enabled || task.cronExpression == "" ==> err.None? && task.id !in taskEntries
      ensures task.enabled && task.cronExpression != "" ==>
        (err.None? <==> accepts(NormalizeCron(task.cronExpression)))
        && (err.None? <==> task.id in taskEntries)
      ensures forall t :: t != task.id ==>
        (t in taskEntries <==> t in old(taskEntries)) && (t in taskEntries ==> taskEntries[t] == old(taskEntries)[t])
      ensures old(Consistent()) ==> Consistent()
    {
      RemoveTask(task.id);
      if !task.enabled || task.cronExpression == "" {
        return None;
      }
      err := AddTask(task, accepts);
    }

    /**
     * LoadTasks: over the enabled tasks, those without an expression are counted as
     * manual and never scheduled; the others are added, and only successful adds are
     * counted. A failed add does not stop the loop. The query's failure is `queryOk`.
     */
    method LoadTasks(stored: seq<TaskModel.BackupTask>, queryOk: bool, accepts: string -> bool)
      returns (err: Option<SchedulerError>, scheduledCount: nat, manualCount: nat)
      modifies this
      ensures !queryOk ==> err == Some(LoadFailed) && taskEntries == old(taskEntries) && scheduledCount == 0 && manualCount == 0
      ensures queryOk ==> (err.None?
                           && scheduledCount == CountKind(EnabledTasks(stored), accepts, Scheduled)
                           && manualCount == CountKind(EnabledTasks(stored), accepts, Manual))
      ensures queryOk ==> forall t :: t in EnabledTasks(stored) && KindOf(t, accepts) == Scheduled ==> t.id in taskEntries
      ensures forall id :: id in taskEntries ==>
        (id in old(taskEntries) || exists t :: t in EnabledTasks(stored) && KindOf(t, accepts) == Scheduled && t.id == id)
    {
      scheduledCount, manualCount := 0, 0;
      if !queryOk {
        return Some(LoadFailed), 0, 0;
      }
      var tasks := EnabledTasks(stored);
      for i := 0 to |tasks|
        invariant scheduledCount == CountKind(tasks[..i], accepts, Scheduled)
        invariant manualCount == CountKind(tasks[..i], accepts, Manual)
        invariant forall t :: t in tasks[..i] && KindOf(t, accepts) == Scheduled ==> t.id in taskEntries
        invariant forall id :: id in taskEntries ==>
          (id in old(taskEntries) || exists t :: t in tasks[..i] && KindOf(t, accepts) == Scheduled && t.id == id)
      {
        var task := tasks[i];
        assert tasks[..i + 1] == tasks[..i] + [task];
        if task.cronExpression == "" {
          manualCount := manualCount + 1;
          continue;
        }
        var addErr := AddTask(task, accepts);
        if addErr.None? {
          scheduledCount := scheduledCount + 1;
        }
      }
      assert tasks[..|tasks|] == tasks;
      err := None;
    }
  }

  /** The query of LoadTasks: enabled tasks only, in stored order. */
  function EnabledTasks(ts: seq<TaskModel.BackupTask>): (r: seq<TaskModel.BackupTask>)
    ensures forall t :: t in r <==> t in ts && t.enabled
    ensures |r| <= |ts|
  {
    if ts == [] then []
    else EnabledTasks(ts[..|ts| - 1]) + (if ts[|ts| - 1].enabled then [ts[|ts| - 1]] else [])
  }

  /** How the load loop treats one task. */
  datatype TaskKind = Manual | Scheduled | Rejected

  function KindOf(t: TaskModel.BackupTask, accepts: string -> bool): TaskKind {
    if t.cronExpression == "" then Manual
    else if accepts(NormalizeCron(t.cronExpression)) then Scheduled
    else Rejected
  }

  function CountKind(ts: seq<TaskModel.BackupTask>, accepts: string -> bool, k: TaskKind): nat {
    if ts == [] then 0
    else CountKind(ts[..|ts| - 1], accepts, k) + (if KindOf(ts[|ts| - 1], accepts) == k then 1 else 0)
  }

  /** Every loaded task is exactly one of scheduled, manual or rejected. */
  lemma {:induction false} LoadCountsPartition(ts: seq<TaskModel.BackupTask>, accepts: string -> bool)
    ensures CountKind(ts, accepts, Scheduled) + CountKind(ts, accepts, Manual)
      + CountKind(ts, accepts, Rejected) == |ts|
  {
    if ts != [] {
      LoadCountsPartition(ts[..|ts| - 1], accepts);
    }
  }

  const SuccessMessage := "Backup completed successfully"

  /** What performBackup leaves behind: its error text, and the fields it set on the log. */
  datatype Performed = Performed(err: Option<string>, backupFile: string, executionLogs: string)

  /**
   * executeTask: the log is created "running" with no end time, then saved once in
   * exactly one terminal state: "failed" with the error text or "success" with the fixed
   * message, with an end time in both cases. `writes` are the records written, in order.
   */
  method ExecuteTask(task: TaskModel.BackupTask, performed: Performed) returns (writes: seq<BackupLog>)
    ensures |writes| == 2
    ensures writes[0] == BackupLog(0, task.id, "running", "", "", "", false)
    ensures writes[1].taskID == task.id && writes[1].endTimeSet
    ensures writes[1].backupFile == performed.backupFile && writes[1].executionLogs == performed.executionLogs
    ensures performed.err.Some? ==> writes[1].status == "failed" && writes[1].message == performed.err.value
    ensures performed.err.None? ==> writes[1].status == "success" && writes[1].message == SuccessMessage
  {
    var backupLog := BackupLog(0, task.id, "running", "", "", "", false);
    writes := [backupLog];
    backupLog := backupLog.(backupFile := performed.backupFile, executionLogs := performed.executionLogs);
    if performed.err.Some? {
      backupLog := backupLog.(status := "failed", message := performed.err.value, endTimeSet := true);
      writes := writes + [backupLog];
      return;
    }
    backupLog := backupLog.(status := "success", message := SuccessMessage, endTimeSet := true);
    writes := writes + [backupLog];
  }

  /** ExecuteTaskNow has the same body as executeTask, for a run started by hand. */
  method ExecuteTaskNow(task: TaskModel.BackupTask, performed: Performed) returns (writes: seq<BackupLog>)
    ensures |writes| == 2 && writes[0].status == "running" && !writes[0].endTimeSet
    ensures writes[0].taskID == task.id && writes[1].taskID == task.id && writes[1].endTimeSet
    ensures writes[1].status == "failed" || writes[1].status == "success"
    ensures writes[1].status == "failed" <==> performed.err.Some?
    ensures performed.err.Some? ==> writes[1].message == performed.err.value
    ensures performed.err.None? ==> writes[1].message == SuccessMessage
  {
    writes := ExecuteTask(task, performed);
  }
}
