/**
 * internal/model/task.go and internal/model/log.go: a backup task with its source
 * server and destinations, the request and response shapes, and the backup log
 * record. Timestamps are not modelled.
 */
module TaskModel {
  import opened Wrappers
  import ServerModel
  import DestinationModel

  datatype BackupTask = BackupTask(
    id: nat,
    name: string,
    sourceServerID: nat,
    cronExpression: string,
    enabled: bool,
    sourceServer: ServerModel.ServerConfig,
    destinations: seq<DestinationModel.BackupDestination>)

  /** TaskRequest: a missing `enabled` is None. */
  datatype TaskRequest = TaskRequest(
    name: string,
    sourceServerID: nat,
    cronExpression: string,
    enabled: Option<bool>,
    destinationIDs: seq<nat>)

  datatype TaskResponse = TaskResponse(
    id: nat,
    name: string,
    sourceServerID: nat,
    cronExpression: string,
    enabled: bool,
    sourceServer: ServerModel.ServerResponse,
    destinations: seq<DestinationModel.DestinationResponse>)

  /** ToResponse: the scalar fields, the source server's response and one response per destination, in order. */
  function ToResponse(t: BackupTask): (r: TaskResponse)
    ensures |r.destinations| == |t.destinations|
    ensures forall i :: 0 <= i < |t.destinations| ==>
      r.destinations[i] == DestinationModel.ToResponse(t.destinations[i])
    ensures r.sourceServer == ServerModel.ToResponse(t.sourceServer)
    ensures r.id == t.id && r.name == t.name && r.sourceServerID == t.sourceServerID
    ensures r.cronExpression == t.cronExpression && r.enabled == t.enabled
  {
    var dests := seq(|t.destinations|, i requires 0 <= i < |t.destinations| =>
      DestinationModel.ToResponse(t.destinations[i]));
    TaskResponse(t.id, t.name, t.sourceServerID, t.cronExpression, t.enabled,
      ServerModel.ToResponse(t.sourceServer), dests)
  }

  /** Replacing every hidden secret of a task (source credentials, destination passwords) leaves its response unchanged. */
  lemma ResponseHidesSecrets(t: BackupTask, u: BackupTask)
    requires u.id == t.id && u.name == t.name && u.sourceServerID == t.sourceServerID
    requires u.cronExpression == t.cronExpression && u.enabled == t.enabled
    requires u.sourceServer == t.sourceServer.(clientSecret := u.sourceServer.clientSecret,
      masterPassword := u.sourceServer.masterPassword)
    requires |u.destinations| == |t.destinations|
    requires forall i :: 0 <= i < |t.destinations| ==>
      u.destinations[i] == t.destinations[i].(webdavPassword := u.destinations[i].webdavPassword,
        s3SecretKey := u.destinations[i].s3SecretKey,
        encryptionPassword := u.destinations[i].encryptionPassword)
    ensures ToResponse(u) == ToResponse(t)
  {
    ServerModel.ResponseHidesSecrets(t.sourceServer, u.sourceServer.clientSecret, u.sourceServer.masterPassword);
    forall i | 0 <= i < |t.destinations|
      ensures ToResponse(u).destinations[i] == ToResponse(t).destinations[i]
    {
      var d := u.destinations[i];
      DestinationModel.ResponseHidesSecrets(t.destinations[i], d.webdavPassword, d.s3SecretKey, d.encryptionPassword);
    }
  }
}

/** internal/model/log.go: the backup log record and a client log entry. */
module LogModel {
  /** An execution-log line of the Bitwarden client. */
  datatype LogEntry = LogEntry(time: string, message: string)

  /** BackupLog; `endTimeSet` says whether EndTime is non-nil (the clock value itself is not modelled). */
  datatype BackupLog = BackupLog(
    id: nat,
    taskID: nat,
    status: string,
    message: string,
    backupFile: string,
    executionLogs: string,
    endTimeSet: bool)
}
