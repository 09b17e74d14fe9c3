/**
 * internal/provider/s3.go: a backup stored as an S3 object, and the retention cleanup
 * of the objects under the backup prefix. The AWS calls are inputs: the upload's
 * failure, the listing (or the error that stopped it), and the batch delete's failure.
 */
module S3Provider {
  import opened Wrappers
  import opened Strings
  import opened Retention
  import opened ProviderRegistry
  import opened DestinationModel

  /** The key directory: S3Path without one leading "/", followed by "/" unless it is then empty. */
  function KeyDir(s3Path: string): (r: string)
    ensures r == "" || HasSuffix(r, "/")
    ensures r == "" <==> TrimPrefix(s3Path, "/") == ""
  {
    var p := TrimPrefix(s3Path, "/");
    if p != "" then p + "/" else ""
  }

  /** The object key of a backup. */
  function ObjectKey(dest: BackupDestination, taskName: string, timestamp: string): string {
    KeyDir(dest.s3Path) + BackupFileName(taskName, timestamp)
  }

  /** The prefix the cleanup lists. */
  function CleanupPrefix(dest: BackupDestination): string {
    KeyDir(dest.s3Path) + "backup_"
  }

  /** Every key Backup writes lies under the cleanup prefix and passes the ".json" filter. */
  lemma KeyLiesUnderCleanupPrefix(dest: BackupDestination, taskName: string, timestamp: string)
    ensures HasPrefix(ObjectKey(dest, taskName, timestamp), CleanupPrefix(dest))
    ensures HasSuffix(ObjectKey(dest, taskName, timestamp), ".json")
  {
    KeyInDir(KeyDir(dest.s3Path), taskName, timestamp);
  }

  lemma KeyInDir(dir: string, taskName: string, timestamp: string)
    ensures HasPrefix(dir + BackupFileName(taskName, timestamp), dir + "backup_")
    ensures HasSuffix(dir + BackupFileName(taskName, timestamp), ".json")
  {
    var key := dir + BackupFileName(taskName, timestamp);
    var pre := dir + "backup_";
    assert key == pre + (taskName + "_" + timestamp + ".json");
    assert key[..|pre|] == pre;
    assert key == (dir + "backup_" + taskName + "_" + timestamp) + ".json";
    assert key[|key| - 5..] == ".json";
  }

  /** A leading "/" in S3Path makes no difference to the key. */
  lemma LeadingSlashIgnored(dest: BackupDestination, p: string, taskName: string, timestamp: string)
    requires dest.s3Path == "/" + p && !HasPrefix(p, "/")
    ensures ObjectKey(dest, taskName, timestamp) == ObjectKey(dest.(s3Path := p), taskName, timestamp)
  {
    assert ("/" + p)[..1] == "/";
    assert ("/" + p)[1..] == p;
  }

  /** Backup: on a successful upload, the path is s3://<bucket>/<key>. */
  function Backup(ctx: BackupContext, failure: Option<string>): (r: Result<string, string>)
    ensures r.Err? <==> failure.Some?
    ensures r.Ok? ==> HasPrefix(r.value, "s3://" + ctx.destination.s3Bucket + "/")
    ensures r.Ok? ==> HasSuffix(r.value, ObjectKey(ctx.destination, ctx.taskName, ctx.timestamp))
  {
    if failure.Some? then Err(failure.value)
    else
      var prefix := "s3://" + ctx.destination.s3Bucket + "/";
      var key := ObjectKey(ctx.destination, ctx.taskName, ctx.timestamp);
      assert (prefix + key)[..|prefix|] == prefix;
      assert (prefix + key)[|prefix + key| - |key|..] == key;
      Ok(prefix + key)
  }

  /** A listed object; LastModified may be absent. */
  datatype S3Object = S3Object(key: string, lastModified: Option<int>)

  function StampOf(t: Option<int>): Stamp {
    if t.Some? then Known(t.value) else Unknown
  }

  /** The cleanup's candidates: listed keys ending in ".json", in listing order. */
  function Candidates(objects: seq<S3Object>): (r: seq<Candidate>)
    ensures |r| <= |objects|
    ensures forall k :: 0 <= k < |r| ==> HasSuffix(r[k].name, ".json")
  {
    if objects == [] then []
    else
      var before := Candidates(objects[..|objects| - 1]);
      var o := objects[|objects| - 1];
      if HasSuffix(o.key, ".json") then before + [Candidate(o.key, StampOf(o.lastModified))] else before
  }

  /** The filtering loop over the listed objects. */
  method CollectBackups(objects: seq<S3Object>) returns (backups: seq<Candidate>)
    ensures backups == Candidates(objects)
  {
    backups := [];
    for i := 0 to |objects|
      invariant backups == Candidates(objects[..i])
    {
      assert objects[..i + 1][..i] == objects[..i];
      if HasSuffix(objects[i].key, ".json") {
        backups := backups + [Candidate(objects[i].key, StampOf(objects[i].lastModified))];
      }
    }
    assert objects[..|objects|] == objects;
  }

  /**
   * Cleanup: nothing for a non-positive count; a failed listing is an error; otherwise
   * the surplus oldest keys (undated ones counting as oldest) are deleted in one batch,
   * which reports all of them on success and none on failure.
   */
  method Cleanup(dest: BackupDestination, maxCount: int, listing: Result<seq<S3Object>, string>,
                 deleteFailure: Option<string>)
    returns (deleted: nat, err: Option<string>, targets: seq<Candidate>)
    ensures maxCount <= 0 ==> deleted == 0 && err.None? && targets == []
    ensures maxCount > 0 && listing.Err? ==> deleted == 0 && err.Some? && targets == []
    ensures maxCount > 0 && listing.Ok? ==>
      SelectsOldest(Candidates(listing.value), maxCount, targets)
      && (targets != [] && deleteFailure.Some? ==> deleted == 0 && err.Some?)
      && (targets == [] || deleteFailure.None? ==> deleted == |targets| && err.None?)
  {
    if maxCount <= 0 {
      return 0, None, [];
    }
    if listing.Err? {
      return 0, Some("failed to list objects: " + listing.error), [];
    }
    var backups := CollectBackups(listing.value);
    targets := SelectForDeletion(backups, maxCount);
    if |backups| <= maxCount {
      return 0, None, targets;
    }
    if deleteFailure.Some? {
      return 0, Some("failed to delete objects: " + deleteFailure.value), targets;
    }
    deleted, err := |targets|, None;
  }

  /** An undated object is deleted before any dated one is. */
  lemma UndatedGoFirst(cands: seq<Candidate>, maxCount: nat, targets: seq<Candidate>, x: Candidate, y: Candidate)
    requires SelectsOldest(cands, maxCount, targets)
    requires x in multiset(cands) - multiset(targets) && y in targets
    ensures x.stamp.Unknown? ==> y.stamp.Unknown?
  {
  }
}
