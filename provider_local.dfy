/**
 * internal/provider/local.go: a backup copied into a local directory, and the
 * retention cleanup of that directory. The file system is an input: whether the
 * copy failed (and how), the directory listing, and which removals succeed.
 */
module LocalProvider {
  import opened Wrappers
  import opened Strings
  import opened Retention
  import opened ProviderRegistry
  import opened DestinationModel

  /** Backup: the file lands at LocalPath/backup_<task>_<time>.json; `failure` is the first failing step's error. */
  function Backup(ctx: BackupContext, failure: Option<string>): (r: Result<string, string>)
    ensures r.Err? <==> failure.Some?
    ensures r.Ok? ==> HasSuffix(r.value, BackupFileName(ctx.taskName, ctx.timestamp))
    ensures r.Ok? && ctx.destination.localPath != "" ==> HasPrefix(r.value, ctx.destination.localPath)
  {
    if failure.Some? then Err(failure.value)
    else Ok(JoinPath(ctx.destination.localPath, BackupFileName(ctx.taskName, ctx.timestamp)))
  }

  /** A directory entry; `modTime` is None when its info cannot be read. */
  datatype DirEntry = DirEntry(name: string, isDir: bool, modTime: Option<int>)

  /** The cleanup's candidates: files named backup_*.json whose info could be read, in listing order. */
  function Candidates(entries: seq<DirEntry>): (r: seq<Candidate>)
    ensures |r| <= |entries|
    ensures forall k :: 0 <= k < |r| ==> IsBackupName(r[k].name) && r[k].stamp.Known?
  {
    if entries == [] then []
    else
      var before := Candidates(entries[..|entries| - 1]);
      var e := entries[|entries| - 1];
      if e.isDir || !IsBackupName(e.name) || e.modTime.None? then before
      else before + [Candidate(e.name, Known(e.modTime.value))]
  }

  /** A backup this provider wrote, listed as a readable file, is a cleanup candidate. */
  lemma {:induction false} WrittenBackupIsCandidate(entries: seq<DirEntry>, k: nat, taskName: string, timestamp: string, t: int)
    requires k < |entries| && entries[k] == DirEntry(BackupFileName(taskName, timestamp), false, Some(t))
    ensures Candidate(BackupFileName(taskName, timestamp), Known(t)) in Candidates(entries)
  {
    BackupFileNameIsRecognised(taskName, timestamp);
    if k < |entries| - 1 {
      WrittenBackupIsCandidate(entries[..|entries| - 1], k, taskName, timestamp, t);
    }
  }

  /** The filtering loop over the directory entries. */
  method CollectBackups(entries: seq<DirEntry>) returns (backups: seq<Candidate>)
    ensures backups == Candidates(entries)
  {
    backups := [];
    for i := 0 to |entries|
      invariant backups == Candidates(entries[..i])
    {
      assert entries[..i + 1][..i] == entries[..i];
      var entry := entries[i];
      if entry.isDir {
        continue;
      }
      if !HasPrefix(entry.name, "backup_") || !HasSuffix(entry.name, ".json") {
        continue;
      }
      if entry.modTime.None? {
        continue;
      }
      backups := backups + [Candidate(entry.name, Known(entry.modTime.value))];
    }
    assert entries[..|entries|] == entries;
  }

  /**
   * Cleanup: nothing for a non-positive count; an empty path or an unreadable directory
   * is an error; otherwise the surplus oldest candidates are removed one by one and the
   * successful removals counted.
   */
  method Cleanup(dest: BackupDestination, maxCount: int, listing: Result<seq<DirEntry>, string>,
                 removed: string -> bool)
    returns (deleted: nat, err: Option<string>, targets: seq<Candidate>)
    ensures maxCount <= 0 ==> deleted == 0 && err.None? && targets == []
    ensures maxCount > 0 && dest.localPath == "" ==> deleted == 0 && err == Some("local path is empty") && targets == []
    ensures maxCount > 0 && dest.localPath != "" && listing.Err? ==> deleted == 0 && err.Some? && targets == []
    ensures maxCount > 0 && dest.localPath != "" && listing.Ok? ==>
      err.None? && SelectsOldest(Candidates(listing.value), maxCount, targets)
      && deleted == CountRemoved(targets, dest.localPath, removed)
  {
    if maxCount <= 0 {
      return 0, None, [];
    }
    if dest.localPath == "" {
      return 0, Some("local path is empty"), [];
    }
    if listing.Err? {
      return 0, Some("failed to read directory: " + listing.error), [];
    }
    var backups := CollectBackups(listing.value);
    targets := SelectForDeletion(backups, maxCount);
    deleted := DeleteOld(targets, dest.localPath, removed);
    err := None;
  }
}
