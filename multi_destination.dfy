/**
 * internal/scheduler/multi_destination.go: one backup run of a task. It logs in to
 * the source server (retrying once when the login state turns out to be lost),
 * exports the vault once in each form some enabled destination needs, hands each
 * enabled destination its file, and sums up the deliveries.
 *
 * Every `bw` run is an input (`SessionRuns`), and so is what delivering a file to a
 * destination gives (`deliver`, the result of backupToDestination).
 */
module MultiDestination {
  import opened Wrappers
  import opened Strings
  import opened Bitwarden
  import opened LogModel
  import ServerModel
  import TaskModel
  import opened DestinationModel

  /** Destinations that receive a file of their own: a local directory, WebDAV or S3. */
  predicate IsFileType(t: string) {
    t == "local" || t == "webdav" || t == "s3"
  }

  /** An enabled file destination that asked for the encrypted export. */
  predicate WantsEncrypted(d: BackupDestination) {
    d.enabled && IsFileType(d.destType) && d.encrypted
  }

  /** An enabled unencrypted file destination, or any enabled server destination. */
  predicate WantsPlain(d: BackupDestination) {
    d.enabled && ((IsFileType(d.destType) && !d.encrypted) || d.destType == "server")
  }

  /** Some enabled destination needs the plain export. */
  predicate NeedsPlain(ds: seq<BackupDestination>) {
    exists k :: 0 <= k < |ds| && WantsPlain(ds[k])
  }

  /** Some enabled destination needs the encrypted export. */
  predicate NeedsEncrypted(ds: seq<BackupDestination>) {
    exists k :: 0 <= k < |ds| && WantsEncrypted(ds[k])
  }

  /** An encrypted file destination that can supply the export password. */
  predicate SuppliesPassword(d: BackupDestination) {
    WantsEncrypted(d) && d.encryptionPassword != ""
  }

  /** The export password: that of the first destination that can supply one, else "". */
  function FirstPassword(ds: seq<BackupDestination>): string {
    if ds == [] then ""
    else
      var p := FirstPassword(ds[..|ds| - 1]);
      if p != "" then p else if SuppliesPassword(ds[|ds| - 1]) then ds[|ds| - 1].encryptionPassword else ""
  }

  /** FirstPassword picks the earliest destination that can supply a password, and is empty when none can. */
  lemma {:induction false} FirstPasswordIsFirst(ds: seq<BackupDestination>)
    ensures FirstPassword(ds) == "" <==> forall k :: 0 <= k < |ds| ==> !SuppliesPassword(ds[k])
    ensures FirstPassword(ds) != "" ==> exists k :: (0 <= k < |ds| && SuppliesPassword(ds[k])
      && FirstPassword(ds) == ds[k].encryptionPassword
      && forall j :: 0 <= j < k ==> !SuppliesPassword(ds[j]))
  {
    if ds != [] {
      var init := ds[..|ds| - 1];
      FirstPasswordIsFirst(init);
      assert forall k :: 0 <= k < |init| ==> init[k] == ds[k];
      if FirstPassword(init) != "" {
        var k :| 0 <= k < |init| && SuppliesPassword(init[k]) && FirstPassword(init) == init[k].encryptionPassword
          && forall j :: 0 <= j < k ==> !SuppliesPassword(init[j]);
        assert SuppliesPassword(ds[k]);
      } else if SuppliesPassword(ds[|ds| - 1]) {
        assert forall j :: 0 <= j < |ds| - 1 ==> !SuppliesPassword(ds[j]);
      }
    }
  }

  /** Which exports a run needs, and the password of the encrypted one. */
  datatype ExportPlan = ExportPlan(needEncrypted: bool, needPlain: bool, password: string)

  /** The planning loop over the task's destinations; disabled ones play no part. */
  method PlanExports(ds: seq<BackupDestination>) returns (plan: ExportPlan)
    ensures plan.needEncrypted == NeedsEncrypted(ds)
    ensures plan.needPlain == NeedsPlain(ds)
    ensures plan.password == FirstPassword(ds)
  {
    var needEncrypted, needPlain, encryptionPassword := false, false, "";
    for i := 0 to |ds|
      invariant needEncrypted <==> exists k :: 0 <= k < i && WantsEncrypted(ds[k])
      invariant needPlain <==> exists k :: 0 <= k < i && WantsPlain(ds[k])
      invariant encryptionPassword == FirstPassword(ds[..i])
    {
      assert ds[..i + 1][..i] == ds[..i];
      var dest := ds[i];
      if !dest.enabled {
        continue;
      }
      if dest.destType == "local" || dest.destType == "webdav" || dest.destType == "s3" {
        if dest.encrypted {
          needEncrypted := true;
          if encryptionPassword == "" && dest.encryptionPassword != "" {
            encryptionPassword := dest.encryptionPassword;
          }
        } else {
          needPlain := true;
        }
      } else if dest.destType == "server" {
        needPlain := true;
      }
    }
    assert ds[..|ds|] == ds;
    plan := ExportPlan(needEncrypted, needPlain, encryptionPassword);
  }

  /** The file a destination is given: the encrypted export for encrypted file destinations, else the plain one. */
  function SourceFileFor(d: BackupDestination, plainFile: string, encryptedFile: string): string {
    if IsFileType(d.destType) && d.encrypted then encryptedFile else plainFile
  }

  /**
   * Every enabled destination of a known type is handed a file the plan exports: the
   * encrypted one exactly for encrypted file destinations (a server destination marked
   * encrypted still gets the plain export).
   */
  lemma DeliveredFileWasPlanned(ds: seq<BackupDestination>, k: nat, plan: ExportPlan, plainFile: string, encryptedFile: string)
    requires k < |ds| && ds[k].enabled && (IsFileType(ds[k].destType) || ds[k].destType == "server")
    requires plan.needEncrypted == NeedsEncrypted(ds) && plan.needPlain == NeedsPlain(ds)
    ensures (SourceFileFor(ds[k], plainFile, encryptedFile) == encryptedFile && plan.needEncrypted)
      || (SourceFileFor(ds[k], plainFile, encryptedFile) == plainFile && plan.needPlain)
    ensures ds[k].destType == "server" ==> SourceFileFor(ds[k], plainFile, encryptedFile) == plainFile
  {
    if WantsEncrypted(ds[k]) {
      assert plan.needEncrypted;
    } else {
      assert WantsPlain(ds[k]);
    }
  }

  /** The tally of the delivery loop. */
  datatype Delivery = Delivery(paths: seq<string>, successCount: nat, failCount: nat, lastErr: Option<string>)

  /** The delivery loop's tally over `ds`: an error counts as a failure, a non-empty path as a success, "" as neither. */
  function Delivered(ds: seq<BackupDestination>, plainFile: string, encryptedFile: string,
                     deliver: (BackupDestination, string) -> Result<string, string>): (r: Delivery)
    ensures |r.paths| == r.successCount
    ensures r.successCount + r.failCount <= |ds|
    ensures forall k :: 0 <= k < |r.paths| ==> r.paths[k] != ""
    ensures r.failCount == 0 <==> r.lastErr.None?
  {
    if ds == [] then Delivery([], 0, 0, None)
    else
      var before := Delivered(ds[..|ds| - 1], plainFile, encryptedFile, deliver);
      var d := ds[|ds| - 1];
      if !d.enabled then before
      else
        match deliver(d, SourceFileFor(d, plainFile, encryptedFile))
        case Err(e) => before.(failCount := before.failCount + 1, lastErr := Some(e))
        case Ok(path) =>
          if path != "" then before.(paths := before.paths + [path], successCount := before.successCount + 1)
          else before
  }

  /** With no enabled destination, nothing is delivered and nothing fails. */
  lemma {:induction false} NothingEnabledDeliversNothing(ds: seq<BackupDestination>, plainFile: string, encryptedFile: string,
                                                          deliver: (BackupDestination, string) -> Result<string, string>)
    requires forall k :: 0 <= k < |ds| ==> !ds[k].enabled
    ensures Delivered(ds, plainFile, encryptedFile, deliver) == Delivery([], 0, 0, None)
  {
    if ds != [] {
      NothingEnabledDeliversNothing(ds[..|ds| - 1], plainFile, encryptedFile, deliver);
    }
  }

  /** The first recorded path comes from the earliest enabled destination whose delivery gave a non-empty path. */
  lemma {:induction false} FirstPathIsEarliestSuccess(ds: seq<BackupDestination>, plainFile: string, encryptedFile: string,
                                                       deliver: (BackupDestination, string) -> Result<string, string>)
    requires Delivered(ds, plainFile, encryptedFile, deliver).paths != []
    ensures exists k :: (0 <= k < |ds| && ds[k].enabled
      && deliver(ds[k], SourceFileFor(ds[k], plainFile, encryptedFile)) == Ok(Delivered(ds, plainFile, encryptedFile, deliver).paths[0]))
  {
    var init := ds[..|ds| - 1];
    var before := Delivered(init, plainFile, encryptedFile, deliver);
    if before.paths != [] {
      FirstPathIsEarliestSuccess(init, plainFile, encryptedFile, deliver);
      var k :| 0 <= k < |init| && init[k].enabled
        && deliver(init[k], SourceFileFor(init[k], plainFile, encryptedFile)) == Ok(before.paths[0]);
      assert init[k] == ds[k];
    } else {
      assert ds[|ds| - 1].enabled;
    }
  }

  /** The delivery loop: each enabled destination gets its file, and the outcomes are tallied. */
  method DeliverAll(ds: seq<BackupDestination>, plainFile: string, encryptedFile: string,
                    deliver: (BackupDestination, string) -> Result<string, string>)
    returns (r: Delivery)
    ensures r == Delivered(ds, plainFile, encryptedFile, deliver)
  {
    var backupPaths: seq<string> := [];
    var successCount, failCount := 0, 0;
    var lastErr: Option<string> := None;
    for i := 0 to |ds|
      invariant Delivery(backupPaths, successCount, failCount, lastErr) == Delivered(ds[..i], plainFile, encryptedFile, deliver)
    {
      assert ds[..i + 1][..i] == ds[..i];
      var dest := ds[i];
      if !dest.enabled {
        continue;
      }
      var sourceFile := plainFile;
      if (dest.destType == "local" || dest.destType == "webdav" || dest.destType == "s3") && dest.encrypted {
        sourceFile := encryptedFile;
      }
      var result := deliver(dest, sourceFile);
      if result.Err? {
        failCount := failCount + 1;
        lastErr := Some(result.error);
      } else if result.value != "" {
        successCount := successCount + 1;
        backupPaths := backupPaths + [result.value];
      }
    }
    assert ds[..|ds|] == ds;
    r := Delivery(backupPaths, successCount, failCount, lastErr);
  }

  datatype BackupError =
    | SourceServerMissing           // "failed to get source server"
    | ConfigFailed(cause: BwError)  // "failed to config server"
    | LoginFailed(cause: BwError)
    | SyncFailed(cause: BwError)
    | UnlockFailed(cause: BwError)
    | ReLoginFailed(cause: BwError)
    | ReSyncFailed(cause: BwError)
    | ReUnlockFailed(cause: BwError)
    | PasswordRequired              // "encryption password is required for encrypted backup destinations"
    | ExportFailed(cause: BwError)
    | EncryptedExportFailed(cause: BwError)
    | AllFailed(failCount: nat, lastErr: string)

  /** The verdict of a run that got as far as delivering: an error only when nothing succeeded and something failed. */
  function Verdict(d: Delivery): (r: Option<BackupError>)
    ensures r.Some? <==> d.successCount == 0 && d.failCount > 0
  {
    if d.successCount == 0 && d.failCount > 0 then Some(AllFailed(d.failCount, d.lastErr.GetOr(""))) else None
  }

  /** The outcome of every `bw` run one backup may make, in the order they are made. */
  datatype SessionRuns = SessionRuns(
    firstLogout: CliRun, config: CliRun, login: CliRun, sync: CliRun,
    unlockProbe: CliRun, unlock: CliRun, unlockRecheck: CliRun,
    retryLogout: CliRun, retryLogin: CliRun, retrySync: CliRun,
    retryProbe: CliRun, retryUnlock: CliRun, retryRecheck: CliRun,
    plainExport: CliRun, encryptedExport: CliRun, finalLogout: CliRun,
    decode: string -> Option<string>)

  /** The error of the first unlock attempt. */
  function FirstUnlockError(runs: SessionRuns): Option<BwError> {
    UnlockError(runs.unlockProbe, runs.unlock, runs.unlockRecheck, runs.decode)
  }

  /** Whether the first unlock says the login state is lost. */
  predicate LostLogin(runs: SessionRuns) {
    FirstUnlockError(runs).Some? && FirstUnlockError(runs).value.NotLoggedIn?
  }

  /** Whether the retry's login, sync and unlock all succeed. */
  predicate RetrySucceeds(runs: SessionRuns) {
    runs.retryLogin.ok && runs.retrySync.ok
    && UnlockError(runs.retryProbe, runs.retryUnlock, runs.retryRecheck, runs.decode).None?
  }

  /** Log in to the source server: logout (its failure ignored), config, login, sync, unlock. */
  method FirstAttempt(client: Client, server: ServerModel.ServerConfig, runs: SessionRuns, ms: nat, now: string)
    returns (err: Option<BackupError>, unlockErr: Option<BwError>)
    modifies client
    ensures err.None? ==> unlockErr == FirstUnlockError(runs)
    ensures err.None? <==> runs.config.ok && runs.login.ok && runs.sync.ok
    ensures err.None? && unlockErr.None? ==> client.MayUseVault()
    ensures old(client.LogsClean()) ==> client.LogsClean()
  {
    unlockErr := None;
    var _ := client.Logout(runs.firstLogout, ms, now);
    var e := client.ConfigServer(server.serverURL, runs.config, ms, now);
    if e.Some? {
      return Some(ConfigFailed(e.value)), None;
    }
    e := client.Login(server.clientID, server.clientSecret, runs.login, ms, now);
    if e.Some? {
      return Some(LoginFailed(e.value)), None;
    }
    e := client.Sync(runs.sync, ms, now);
    if e.Some? {
      return Some(SyncFailed(e.value)), None;
    }
    unlockErr := client.Unlock(server.masterPassword, runs.unlockProbe, runs.unlock, runs.unlockRecheck,
      runs.decode, ms, now);
    err := None;
  }

  /** The single retry after a lost login: logout, login, sync and unlock again; any failure is final. */
  method Retry(client: Client, server: ServerModel.ServerConfig, runs: SessionRuns, ms: nat, now: string)
    returns (err: Option<BackupError>)
    modifies client
    ensures err.None? <==> RetrySucceeds(runs)
    ensures err.None? ==> client.MayUseVault()
    ensures old(client.LogsClean()) ==> client.LogsClean()
  {
    var _ := client.Logout(runs.retryLogout, ms, now);
    var e := client.Login(server.clientID, server.clientSecret, runs.retryLogin, ms, now);
    if e.Some? {
      return Some(ReLoginFailed(e.value));
    }
    e := client.Sync(runs.retrySync, ms, now);
    if e.Some? {
      return Some(ReSyncFailed(e.value));
    }
    e := client.Unlock(server.masterPassword, runs.retryProbe, runs.retryUnlock, runs.retryRecheck, runs.decode, ms, now);
    if e.Some? {
      return Some(ReUnlockFailed(e.value));
    }
    err := None;
  }

  /**
   * The session phase: a lost login found by the first unlock triggers exactly one retry;
   * any other unlock error, or any error of the retry, ends the run.
   */
  method Connect(client: Client, server: ServerModel.ServerConfig, runs: SessionRuns, ms: nat, now: string)
    returns (err: Option<BackupError>, retried: bool)
    modifies client
    ensures retried <==> runs.config.ok && runs.login.ok && runs.sync.ok && LostLogin(runs)
    ensures !retried ==> (err.None? <==> runs.config.ok && runs.login.ok && runs.sync.ok && FirstUnlockError(runs).None?)
    ensures retried ==> (err.None? <==> RetrySucceeds(runs))
    ensures err.None? ==> client.MayUseVault()
    ensures old(client.LogsClean()) ==> client.LogsClean()
  {
    retried := false;
    var unlockErr;
    err, unlockErr := FirstAttempt(client, server, runs, ms, now);
    if err.Some? {
      return;
    }
    if unlockErr.Some? {
      if unlockErr.value.NotLoggedIn? {
        retried := true;
        err := Retry(client, server, runs, ms, now);
      } else {
        err := Some(UnlockFailed(unlockErr.value));
      }
    }
  }

  /** The temporary export files: backup_<task>_<time>.json and backup_<task>_<time>_encrypted.json in `tempDir`. */
  function PlainExportPath(tempDir: string, taskName: string, timestamp: string): string {
    tempDir + "/backup_" + taskName + "_" + timestamp + ".json"
  }

  function EncryptedExportPath(tempDir: string, taskName: string, timestamp: string): string {
    tempDir + "/backup_" + taskName + "_" + timestamp + "_encrypted.json"
  }

  /** The plain file handed out: its export path when some destination needs it, else "". */
  ghost function PlainFileOf(ds: seq<BackupDestination>, tempDir: string, taskName: string, timestamp: string): string {
    if NeedsPlain(ds) then PlainExportPath(tempDir, taskName, timestamp) else ""
  }

  /** The encrypted file handed out: its export path when some destination needs it, else "". */
  ghost function EncryptedFileOf(ds: seq<BackupDestination>, tempDir: string, taskName: string, timestamp: string): string {
    if NeedsEncrypted(ds) then EncryptedExportPath(tempDir, taskName, timestamp) else ""
  }

  /** What one run leaves for the backup log: its error, the first backup path, and the client's log. */
  datatype RunResult = RunResult(err: Option<BackupError>, backupFile: Option<string>,
                                 executionLogs: seq<LogEntry>, delivery: Option<Delivery>)

  /** Every export a run needs was written: its directory could be made and its `bw export` succeeded. */
  predicate ExportsSucceeded(needPlain: bool, needEncrypted: bool, runs: SessionRuns, dirsOk: bool) {
    (!needPlain || (dirsOk && runs.plainExport.ok)) && (!needEncrypted || (dirsOk && runs.encryptedExport.ok))
  }

  /** Make the exports the plan asks for; the first failure logs out and ends the run. */
  method ExportAll(client: Client, plan: ExportPlan, plainFile: string, encryptedFile: string,
                   runs: SessionRuns, dirsOk: bool, ms: nat, now: string)
    returns (err: Option<BackupError>)
    modifies client
    ensures !plan.needPlain && !plan.needEncrypted ==> err.None?
    ensures err.None? ==> ExportsSucceeded(plan.needPlain, plan.needEncrypted, runs, dirsOk)
    ensures old(client.MayUseVault()) && dirsOk ==>
      (err.None? <==> (!plan.needPlain || runs.plainExport.ok) && (!plan.needEncrypted || runs.encryptedExport.ok))
    ensures old(client.LogsClean()) ==> client.LogsClean()
  {
    if plan.needPlain {
      var e, _ := client.Export(plainFile, "json", [], dirsOk, runs.plainExport, ms, now);
      if e.Some? {
        var _ := client.Logout(runs.finalLogout, ms, now);
        return Some(ExportFailed(e.value));
      }
    }
    if plan.needEncrypted {
      var e, _ := client.Export(encryptedFile, "encrypted_json", [plan.password], dirsOk, runs.encryptedExport, ms, now);
      if e.Some? {
        var _ := client.Logout(runs.finalLogout, ms, now);
        return Some(EncryptedExportFailed(e.value));
      }
    }
    err := None;
  }

  /** The run after a successful login: plan, export, deliver, log out. */
  method ExportAndDeliver(client: Client, task: TaskModel.BackupTask, runs: SessionRuns, dirsOk: bool,
                          tempDir: string, timestamp: string,
                          deliver: (BackupDestination, string) -> Result<string, string>, ms: nat, now: string)
    returns (err: Option<BackupError>, backupFile: Option<string>, delivery: Option<Delivery>)
    modifies client
    ensures (NeedsEncrypted(task.destinations)
      && FirstPassword(task.destinations) == "") ==> err == Some(PasswordRequired) && delivery.None?
    ensures delivery.None? ==> err.Some? && backupFile.None?
    ensures delivery.Some? ==> ExportsSucceeded(
      NeedsPlain(task.destinations),
      NeedsEncrypted(task.destinations), runs, dirsOk)
    ensures delivery.Some? ==> (
      delivery.value == Delivered(task.destinations,
        PlainFileOf(task.destinations, tempDir, task.name, timestamp),
        EncryptedFileOf(task.destinations, tempDir, task.name, timestamp), deliver)
      && err == Verdict(delivery.value)
      && backupFile == (if delivery.value.paths == [] then None else Some(delivery.value.paths[0])))
    ensures old(client.LogsClean()) ==> client.LogsClean()
  {
    var plan := PlanExports(task.destinations);
    if plan.needEncrypted && plan.password == "" {
      return Some(PasswordRequired), None, None;
    }
    var plainFile := if plan.needPlain then PlainExportPath(tempDir, task.name, timestamp) else "";
    var encryptedFile := if plan.needEncrypted then EncryptedExportPath(tempDir, task.name, timestamp) else "";
    err := ExportAll(client, plan, plainFile, encryptedFile, runs, dirsOk, ms, now);
    if err.Some? {
      return err, None, None;
    }
    var d := DeliverAll(task.destinations, plainFile, encryptedFile, deliver);
    backupFile := if d.paths == [] then None else Some(d.paths[0]);
    var _ := client.Logout(runs.finalLogout, ms, now);
    err, delivery := Verdict(d), Some(d);
  }

  /**
   * performBackupToDestinations. Without the source server nothing runs and no log is
   * kept. An encrypted destination without any password fails the run before any export,
   * and no destination receives anything unless every needed export succeeded. A run
   * that delivers fails only when nothing succeeded and something failed, and its
   * backup file is the first recorded path. The saved client log is always clean.
   */
  method PerformBackupToDestinations(task: TaskModel.BackupTask, source: Option<ServerModel.ServerConfig>,
                                     runs: SessionRuns, dirsOk: bool, tempDir: string, timestamp: string,
                                     deliver: (BackupDestination, string) -> Result<string, string>,
                                     ms: nat, now: string)
    returns (r: RunResult)
    ensures source.None? ==> r == RunResult(Some(SourceServerMissing), None, [], None)
    ensures r.delivery.None? ==> r.err.Some? && r.backupFile.None?
    ensures r.delivery.Some? ==> ExportsSucceeded(
      NeedsPlain(task.destinations),
      NeedsEncrypted(task.destinations), runs, dirsOk)
    ensures r.delivery.Some? ==> (
      r.delivery.value == Delivered(task.destinations,
        PlainFileOf(task.destinations, tempDir, task.name, timestamp),
        EncryptedFileOf(task.destinations, tempDir, task.name, timestamp), deliver)
      && r.err == Verdict(r.delivery.value)
      && r.backupFile == (if r.delivery.value.paths == [] then None else Some(r.delivery.value.paths[0])))
    ensures (NeedsEncrypted(task.destinations)
      && FirstPassword(task.destinations) == "") ==> r.err.Some? && r.delivery.None?
    ensures AllClean(r.executionLogs)
  {
    if source.None? {
      return RunResult(Some(SourceServerMissing), None, [], None);
    }
    var client := new Client();
    client.AddLog("Executing task: " + task.name, now);
    var err, _ := Connect(client, source.value, runs, ms, now);
    var backupFile, delivery := None, None;
    if err.None? {
      err, backupFile, delivery := ExportAndDeliver(client, task, runs, dirsOk, tempDir, timestamp, deliver, ms, now);
    }
    var logs := client.GetLogs();
    r := RunResult(err, backupFile, logs, delivery);
  }
}
