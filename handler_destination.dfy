/**
 * internal/handler/destination.go: how an update request is merged into the
 * stored destination. The database is an input: `stored` maps ids to records.
 */
module DestinationHandler {
  import opened Wrappers
  import opened Strings
  import opened DestinationModel

  datatype DestinationError =
    | InvalidID   // 400
    | NotFound    // 404

  /** What an update writes: the enabled flag alone, or the merged record. */
  datatype DestinationUpdate =
    | SetEnabled(id: nat, enabled: bool)
    | Replace(id: nat, record: BackupDestination)

  /** A request with neither a name nor a type is the front end's enable switch. */
  predicate IsToggleOnly(req: BackupDestination) {
    req.name == "" && req.destType == ""
  }

  /** A secret from the request replaces the stored one only when the request carries one. */
  function KeepIfEmpty(stored: string, requested: string): (r: string)
    ensures r == stored || r == requested
    ensures r == stored <==> requested == "" || requested == stored
  {
    if requested != "" then requested else stored
  }

  /**
   * The record a full update stores: every non-secret field from the request (the S3
   * access key included, even when empty), the retention count clamped at 0, and the
   * three secrets kept when the request leaves them empty. Id and preloaded target stay.
   */
  function Merged(existing: BackupDestination, req: BackupDestination): BackupDestination {
    existing.(
      name := req.name, destType := req.destType, localPath := req.localPath,
      webdavURL := req.webdavURL, webdavUsername := req.webdavUsername, webdavPath := req.webdavPath,
      s3Endpoint := req.s3Endpoint, s3Region := req.s3Region, s3Bucket := req.s3Bucket,
      s3AccessKey := req.s3AccessKey, s3Path := req.s3Path, targetServerID := req.targetServerID,
      encrypted := req.encrypted, enabled := req.enabled,
      maxBackupCount := if req.maxBackupCount < 0 then 0 else req.maxBackupCount,
      webdavPassword := KeepIfEmpty(existing.webdavPassword, req.webdavPassword),
      s3SecretKey := KeepIfEmpty(existing.s3SecretKey, req.s3SecretKey),
      encryptionPassword := KeepIfEmpty(existing.encryptionPassword, req.encryptionPassword))
  }

  /**
   * UpdateDestination: the id must parse; a toggle-only request writes `enabled`
   * (false when the body omits it) without reading the record; otherwise the record
   * must exist and is overwritten field by field.
   */
  method UpdateDestination(idParam: string, req: BackupDestination, stored: map<nat, BackupDestination>)
    returns (r: Result<DestinationUpdate, DestinationError>)
    ensures ParseUint32(idParam).None? ==> r == Err(InvalidID)
    ensures ParseUint32(idParam).Some? && IsToggleOnly(req) ==>
      r == Ok(SetEnabled(ParseUint32(idParam).value, req.enabled))
    ensures ParseUint32(idParam).Some? && !IsToggleOnly(req) ==>
      r == if ParseUint32(idParam).value in stored
           then Ok(Replace(ParseUint32(idParam).value, Merged(stored[ParseUint32(idParam).value], req)))
           else Err(NotFound)
  {
    var id := ParseUint32(idParam);
    if id.None? {
      return Err(InvalidID);
    }
    if req.name == "" && req.destType == "" {
      return Ok(SetEnabled(id.value, req.enabled));
    }
    if id.value !in stored {
      return Err(NotFound);
    }
    var existing := stored[id.value];
    existing := existing.(name := req.name, destType := req.destType, localPath := req.localPath);
    existing := existing.(webdavURL := req.webdavURL, webdavUsername := req.webdavUsername, webdavPath := req.webdavPath);
    existing := existing.(s3Endpoint := req.s3Endpoint, s3Region := req.s3Region, s3Bucket := req.s3Bucket);
    existing := existing.(s3AccessKey := req.s3AccessKey, s3Path := req.s3Path);
    existing := existing.(targetServerID := req.targetServerID, encrypted := req.encrypted, enabled := req.enabled);
    var maxBackupCount := req.maxBackupCount;
    if maxBackupCount < 0 {
      maxBackupCount := 0;
    }
    existing := existing.(maxBackupCount := maxBackupCount);
    if req.webdavPassword != "" {
      existing := existing.(webdavPassword := req.webdavPassword);
    }
    if req.s3SecretKey != "" {
      existing := existing.(s3SecretKey := req.s3SecretKey);
    }
    if req.encryptionPassword != "" {
      existing := existing.(encryptionPassword := req.encryptionPassword);
    }
    r := Ok(Replace(id.value, existing));
  }

  /** The stored retention count is never negative, and a non-negative request is stored as sent. */
  lemma MergedCountIsClamped(existing: BackupDestination, req: BackupDestination)
    ensures Merged(existing, req).maxBackupCount >= 0
    ensures req.maxBackupCount >= 0 ==> Merged(existing, req).maxBackupCount == req.maxBackupCount
  {
  }

  /** Sending the same update twice stores the same record as sending it once. */
  lemma MergeIdempotent(existing: BackupDestination, req: BackupDestination)
    ensures Merged(Merged(existing, req), req) == Merged(existing, req)
  {
  }

  /**
   * Re-submitting a record as it is stored, with the three secrets blanked out (as a
   * form filled from the response would), changes nothing.
   */
  lemma ResubmitWithoutSecretsChangesNothing(existing: BackupDestination, req: BackupDestination)
    requires existing.maxBackupCount >= 0
    requires req == existing.(webdavPassword := "", s3SecretKey := "", encryptionPassword := "")
    ensures Merged(existing, req) == existing
  {
  }

  /** The S3 access key is not treated as a secret: an empty one in the request clears the stored key. */
  lemma EmptyAccessKeyClearsStoredKey(existing: BackupDestination, req: BackupDestination)
    requires req.s3AccessKey == "" && existing.s3AccessKey != ""
    ensures Merged(existing, req).s3AccessKey == ""
    ensures Merged(existing, req) != existing
  {
  }
}
