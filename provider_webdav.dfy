/**
 * internal/provider/webdav.go: a backup uploaded to a WebDAV directory, and the
 * retention cleanup of that directory. The HTTP exchanges are inputs: the upload's
 * outcome, the PROPFIND reply, and each DELETE's outcome by remote path.
 */
module WebDAVProvider {
  import opened Wrappers
  import opened Strings
  import opened Retention
  import opened ProviderRegistry
  import opened DestinationModel
  import opened WebDAV

  /** The remote path of a backup: WebDAVPath joined with backup_<task>_<time>.json. */
  function RemoteFile(dest: BackupDestination, taskName: string, timestamp: string): string {
    JoinPath(dest.webdavPath, BackupFileName(taskName, timestamp))
  }

  /**
   * Backup: the PUT succeeds on an accepted status, and the reported path is the
   * destination URL as stored, directly followed by the remote path.
   */
  function Backup(ctx: BackupContext, upload: Result<int, string>): (r: Result<string, string>)
    ensures r.Ok? <==> upload.Ok? && upload.value in AcceptedStatuses(Upload)
    ensures r.Ok? ==> r.value == ctx.destination.webdavURL + RemoteFile(ctx.destination, ctx.taskName, ctx.timestamp)
  {
    match upload
    case Err(e) => Err("failed to upload to webdav: " + e)
    case Ok(status) =>
      match CheckStatus(Upload, status)
      case Some(e) => Err("failed to upload to webdav: " + e)
      case None => Ok(ctx.destination.webdavURL + RemoteFile(ctx.destination, ctx.taskName, ctx.timestamp))
  }

  /**
   * The reported path is the URL that was uploaded to when the WebDAV path starts with
   * "/" and the URL has no trailing "/"; a path without a leading "/" is glued straight
   * onto the host part.
   */
  lemma ReportedPathVersusUploadURL(ctx: BackupContext, p: string)
    requires ctx.destination.webdavPath == "/" + p && p != ""
    requires !HasSuffix(ctx.destination.webdavURL, "/")
    requires Backup(ctx, Ok(201)).Ok?
    ensures var c := NewClient(ctx.destination.webdavURL, ctx.destination.webdavUsername, ctx.destination.webdavPassword);
      Backup(ctx, Ok(201)).value == ResourceURL(c, RemoteFile(ctx.destination, ctx.taskName, ctx.timestamp))
  {
    var rf := RemoteFile(ctx.destination, ctx.taskName, ctx.timestamp);
    assert rf[..1] == "/";
    assert HasPrefix(rf, "/");
  }

  /** The cleanup's candidates: listed files (not collections) named backup_*.json, in listing order. */
  function Candidates(files: seq<FileInfo>): (r: seq<Candidate>)
    ensures |r| <= |files|
    ensures forall k :: 0 <= k < |r| ==> IsBackupName(r[k].name) && r[k].stamp.Known?
  {
    if files == [] then []
    else
      var before := Candidates(files[..|files| - 1]);
      var f := files[|files| - 1];
      if f.isDir || !IsBackupName(f.name) then before else before + [Candidate(f.name, Known(f.modTime))]
  }

  /** The filtering loop over the listed files. */
  method CollectBackups(files: seq<FileInfo>) returns (backups: seq<Candidate>)
    ensures backups == Candidates(files)
  {
    backups := [];
    for i := 0 to |files|
      invariant backups == Candidates(files[..i])
    {
      assert files[..i + 1][..i] == files[..i];
      var f := files[i];
      if f.isDir {
        continue;
      }
      if !HasPrefix(f.name, "backup_") || !HasSuffix(f.name, ".json") {
        continue;
      }
      backups := backups + [Candidate(f.name, Known(f.modTime))];
    }
    assert files[..|files|] == files;
  }

  /** Whether the DELETE of a remote path went through with an accepted status. */
  function Deleted(deleteReply: string -> Result<int, string>): string -> bool {
    p => deleteReply(p).Ok? && deleteReply(p).value in AcceptedStatuses(Delete)
  }

  /**
   * Cleanup: nothing for a non-positive count (and no listing); a failed listing is an
   * error; otherwise the surplus oldest candidates are deleted one by one, failures
   * skipped and not counted. The listing is ListFiles' as written, so at the root
   * ("" or "/") nothing is ever targeted.
   */
  method Cleanup(dest: BackupDestination, maxCount: int, reply: Result<PropfindReply, string>,
                 deleteReply: string -> Result<int, string>)
    returns (deleted: nat, err: Option<string>, targets: seq<Candidate>)
    ensures maxCount <= 0 ==> deleted == 0 && err.None? && targets == []
    ensures maxCount > 0 && Listing(dest.webdavPath, reply, false).Err? ==> deleted == 0 && err.Some? && targets == []
    ensures maxCount > 0 && Listing(dest.webdavPath, reply, false).Ok? ==>
      err.None? && SelectsOldest(Candidates(Listing(dest.webdavPath, reply, false).value), maxCount, targets)
      && deleted == CountRemoved(targets, dest.webdavPath, Deleted(deleteReply))
    ensures dest.webdavPath == "" || dest.webdavPath == "/" ==> deleted == 0 && targets == []
  {
    if maxCount <= 0 {
      return 0, None, [];
    }
    var client := NewClient(dest.webdavURL, dest.webdavUsername, dest.webdavPassword);
    var files := ListFiles(client, dest.webdavPath, reply);
    if files.Err? {
      return 0, Some("failed to list files: " + files.error), [];
    }
    var backups := CollectBackups(files.value);
    targets := SelectForDeletion(backups, maxCount);
    deleted := DeleteOld(targets, dest.webdavPath, Deleted(deleteReply));
    err := None;
    if dest.webdavPath == "" || dest.webdavPath == "/" {
      RootCleanupTargetsNothing(dest.webdavPath, reply, maxCount, targets);
    }
  }

  /** As written, a cleanup at the root selects no target, however many backups the server holds. */
  lemma RootCleanupTargetsNothing(path: string, reply: Result<PropfindReply, string>, maxCount: nat, targets: seq<Candidate>)
    requires path == "" || path == "/"
    requires Listing(path, reply, false).Ok?
    requires SelectsOldest(Candidates(Listing(path, reply, false).value), maxCount, targets)
    ensures targets == []
  {
    RootListingNeverListsFiles(path, reply);
  }
}
