/**
 * internal/handler/task.go: the checks a task create or update must pass and the
 * task record the handler hands to the task service. The service and the
 * database are inputs: `stored` is what destinationSvc.GetByID can find.
 */
module TaskHandler {
  import opened Wrappers
  import opened Strings
  import DestinationModel
  import TaskModel

  /** Every refusal of this handler is a 400 Bad Request. */
  datatype TaskError =
    | InvalidID
    | NameRequired
    | SourceRequired
    | DestinationsRequired
    | InvalidCron
    | SourceIsTarget

  /** The task fields a create or full update writes (destinations are written by id). */
  datatype TaskDraft = TaskDraft(name: string, sourceServerID: nat, cronExpression: string, enabled: bool)

  /** What an update writes: the enabled flag alone, or the whole task with its destinations. */
  datatype TaskUpdate =
    | SetEnabled(id: nat, enabled: bool)
    | Replace(id: nat, task: TaskDraft, destinationIDs: seq<nat>)

  /** validateCronExpression: no expression (a manual task) or one of 5 or 6 whitespace-separated fields. */
  function ValidateCronExpression(expr: string): (r: Option<TaskError>)
    ensures r.Some? ==> r.value == InvalidCron
  {
    if expr == "" then None
    else
      var n := |Fields(expr)|;
      if n != 5 && n != 6 then Some(InvalidCron) else None
  }

  /** Words joined by spaces form an accepted expression exactly when there are 5 or 6 of them. */
  lemma CronAcceptsFiveOrSixWords(ws: seq<string>)
    requires ws != [] && forall k :: 0 <= k < |ws| ==> IsWord(ws[k])
    ensures ValidateCronExpression(Join(ws, " ")) == None <==> |ws| == 5 || |ws| == 6
  {
    FieldsOfJoin(ws);
    assert Fields("") == [];
  }

  /** A destination of type "server" whose target is the task's own source server. */
  predicate TargetsSource(d: DestinationModel.BackupDestination, sourceServerID: nat) {
    d.destType == "server" && d.targetServerID == Some(sourceServerID)
  }

  /** Some listed destination that can be found writes back into the source server. */
  predicate SourceConflict(sourceServerID: nat, destinationIDs: seq<nat>,
                           stored: map<nat, DestinationModel.BackupDestination>) {
    exists k :: 0 <= k < |destinationIDs| && destinationIDs[k] in stored
      && TargetsSource(stored[destinationIDs[k]], sourceServerID)
  }

  /** validateSourceDestination: ids that cannot be found are skipped; the first conflict refuses. */
  method ValidateSourceDestination(sourceServerID: nat, destinationIDs: seq<nat>,
                                   stored: map<nat, DestinationModel.BackupDestination>)
    returns (err: Option<TaskError>)
    ensures err.Some? <==> SourceConflict(sourceServerID, destinationIDs, stored)
    ensures err.Some? ==> err.value == SourceIsTarget
  {
    for i := 0 to |destinationIDs|
      invariant forall k :: 0 <= k < i && destinationIDs[k] in stored ==>
        !TargetsSource(stored[destinationIDs[k]], sourceServerID)
    {
      if destinationIDs[i] !in stored {
        continue;
      }
      var dest := stored[destinationIDs[i]];
      if dest.destType == "server" && dest.targetServerID.Some? && dest.targetServerID.value == sourceServerID {
        return Some(SourceIsTarget);
      }
    }
    return None;
  }

  /** The three fields CreateTask requires before it looks at the cron or the destinations. */
  predicate HasRequiredFields(req: TaskModel.TaskRequest) {
    req.name != "" && req.sourceServerID != 0 && req.destinationIDs != []
  }

  /**
   * CreateTask: the checks run in a fixed order and the first failing one decides
   * the error; a created task is always enabled, whatever the request says.
   */
  method CreateTask(req: TaskModel.TaskRequest, stored: map<nat, DestinationModel.BackupDestination>)
    returns (r: Result<TaskDraft, TaskError>)
    ensures req.name == "" ==> r == Err(NameRequired)
    ensures req.name != "" && req.sourceServerID == 0 ==> r == Err(SourceRequired)
    ensures req.name != "" && req.sourceServerID != 0 && req.destinationIDs == [] ==>
      r == Err(DestinationsRequired)
    ensures HasRequiredFields(req) && ValidateCronExpression(req.cronExpression).Some? ==>
      r == Err(InvalidCron)
    ensures HasRequiredFields(req) && ValidateCronExpression(req.cronExpression).None? ==>
      (SourceConflict(req.sourceServerID, req.destinationIDs, stored) <==> r == Err(SourceIsTarget))
    ensures r.Ok? <==> (HasRequiredFields(req) && ValidateCronExpression(req.cronExpression).None?
                        && !SourceConflict(req.sourceServerID, req.destinationIDs, stored))
    ensures r.Ok? ==> r.value == TaskDraft(req.name, req.sourceServerID, req.cronExpression, true)
  {
    if req.name == "" {
      return Err(NameRequired);
    }
    if req.sourceServerID == 0 {
      return Err(SourceRequired);
    }
    if |req.destinationIDs| == 0 {
      return Err(DestinationsRequired);
    }
    var cronErr := ValidateCronExpression(req.cronExpression);
    if cronErr.Some? {
      return Err(cronErr.value);
    }
    var conflict := ValidateSourceDestination(req.sourceServerID, req.destinationIDs, stored);
    if conflict.Some? {
      return Err(conflict.value);
    }
    r := Ok(TaskDraft(req.name, req.sourceServerID, req.cronExpression, true));
  }

  /** The front end's enable switch sends only `enabled`; such a request is toggle-only. */
  predicate IsToggleOnly(req: TaskModel.TaskRequest) {
    req.enabled.Some? && req.name == "" && req.sourceServerID == 0 && req.destinationIDs == []
  }

  /**
   * UpdateTask: a toggle-only request skips every check and writes only the flag; any
   * other request passes the cron and source checks (but not the name, source and
   * destination checks of CreateTask) and replaces the task, disabled when `enabled` is absent.
   */
  method UpdateTask(idParam: string, req: TaskModel.TaskRequest, stored: map<nat, DestinationModel.BackupDestination>)
    returns (r: Result<TaskUpdate, TaskError>)
    ensures ParseUint32(idParam).None? ==> r == Err(InvalidID)
    ensures ParseUint32(idParam).Some? && IsToggleOnly(req) ==>
      r == Ok(SetEnabled(ParseUint32(idParam).value, req.enabled.value))
    ensures ParseUint32(idParam).Some? && !IsToggleOnly(req) ==>
      r == if ValidateCronExpression(req.cronExpression).Some? then Err(InvalidCron)
           else if SourceConflict(req.sourceServerID, req.destinationIDs, stored) then Err(SourceIsTarget)
           else Ok(Replace(ParseUint32(idParam).value,
                           TaskDraft(req.name, req.sourceServerID, req.cronExpression, req.enabled.GetOr(false)),
                           req.destinationIDs))
  {
    var id := ParseUint32(idParam);
    if id.None? {
      return Err(InvalidID);
    }
    var isToggleOnly := req.enabled.Some? && req.name == "" && req.sourceServerID == 0 && |req.destinationIDs| == 0;
    if isToggleOnly {
      return Ok(SetEnabled(id.value, req.enabled.value));
    }
    var cronErr := ValidateCronExpression(req.cronExpression);
    if cronErr.Some? {
      return Err(cronErr.value);
    }
    var conflict := ValidateSourceDestination(req.sourceServerID, req.destinationIDs, stored);
    if conflict.Some? {
      return Err(conflict.value);
    }
    var task := TaskDraft(req.name, req.sourceServerID, req.cronExpression, false);
    if req.enabled.Some? {
      task := task.(enabled := req.enabled.value);
    }
    r := Ok(Replace(id.value, task, req.destinationIDs));
  }
}
