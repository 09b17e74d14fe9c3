/**
 * internal/scheduler/destination_handler.go: backupToDestination hands one destination
 * its file. The provider is looked up by the destination's type; its Backup and
 * Cleanup outcomes are inputs, by provider kind.
 */
module DestinationDispatch {
  import opened Wrappers
  import opened ProviderRegistry
  import opened DestinationModel

  /** The outcome: the path or error reported to the caller, and whether a cleanup was run. */
  datatype Dispatch = Dispatch(result: Result<string, string>, cleanupRan: bool)

  /** Whether the retention cleanup follows a successful backup. */
  predicate CleansUp(dest: BackupDestination, k: Kind) {
    dest.maxBackupCount > 0 && HasRetention(k)
  }

  /**
   * backupToDestination: an unknown type is the registry's error and nothing runs; a
   * failed backup is returned and nothing is cleaned; after a successful backup the
   * cleanup runs when a retention count is set and the provider supports it, and its
   * outcome never changes the reported path.
   */
  function BackupToDestination(providers: map<string, Kind>, dest: BackupDestination,
                               sourceFile: string, taskName: string, timestamp: string,
                               backup: (Kind, BackupContext) -> Result<string, string>): (r: Dispatch)
    ensures dest.destType !in providers ==> r == Dispatch(Err("unknown provider type: " + dest.destType), false)
    ensures dest.destType in providers ==>
      r.result == backup(providers[dest.destType], BackupContext(sourceFile, taskName, timestamp, dest))
    ensures r.cleanupRan <==> (dest.destType in providers && r.result.Ok? && CleansUp(dest, providers[dest.destType]))
  {
    match Lookup(providers, dest.destType)
    case Err(e) => Dispatch(Err(e), false)
    case Ok(p) =>
      var ctx := BackupContext(sourceFile, taskName, timestamp, dest);
      match backup(p, ctx)
      case Err(e) => Dispatch(Err(e), false)
      case Ok(targetPath) => Dispatch(Ok(targetPath), CleansUp(dest, p))
  }

  /** With the default registry, a server destination is never cleaned up, and the other built-in types are when a count is set. */
  lemma DefaultCleanupByType(dest: BackupDestination, sourceFile: string, taskName: string, timestamp: string,
                             backup: (Kind, BackupContext) -> Result<string, string>)
    requires dest.destType in {"local", "webdav", "server", "s3"}
    ensures var r := BackupToDestination(DefaultProviders(), dest, sourceFile, taskName, timestamp, backup);
      r.cleanupRan <==> r.result.Ok? && dest.maxBackupCount > 0 && dest.destType != "server"
  {
  }
}
