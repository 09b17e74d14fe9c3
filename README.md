# bitwarden-backup, modelled in Dafny

bitwarden-backup is a small web service that exports a Bitwarden (or Vaultwarden) vault on
a cron schedule with the `bw` command-line client and stores the export in one or more
backup destinations: a local directory, a WebDAV server, an S3 bucket, or another
Bitwarden server that the export is imported into. A Go backend keeps server
configurations, destinations, tasks and backup logs in SQLite, encrypting the secret
fields with AES-GCM under an `enc:v1:` prefix, and serves a REST API and a Vue front end.

This project models the logic of that backend and the front end's small pieces of state:

- pagination arithmetic and the response envelope;
- secret masking, the display tables and the save/load hooks that encrypt secrets;
- the `enc:v1:` framing and the one-off migration of plain-text secrets;
- the HTTP handlers' validation and update-merge rules;
- the Bitwarden CLI client: its session state machine, argument building, redaction of
  secrets in the log, and the cleaning of CLI output;
- the scheduler's task-to-cron-entry bookkeeping, cron normalisation and the backup-log
  lifecycle;
- the multi-destination backup run, provider dispatch and the provider registry;
- retention cleanup for the local, WebDAV and S3 providers, and the WebDAV client;
- configuration, routing, the log line format;
- the front end's API layer, confirm dialog and toast slot.

Every exchange with the outside world (a `bw` run, a directory listing, an HTTP or S3
reply, a database lookup, the cipher) is an input to the model, so each property holds
whatever those exchanges return. Go records are datatypes; where the source updates an
object in place (the pagination parameters, the CLI client, the scheduler, the provider
registry, the confirm store and the toast slot) the model is a class whose methods state
the new state.

## Model

| member | source | states |
|---|---|---|
| Pagination.LimitFor | internal/model/pagination.go:21-29 | GetLimit's value: 10 for a non-positive size, 100 for a size above 100, the size itself otherwise; always within 1..100 |
| Pagination.LimitForIdempotent | internal/model/pagination.go:21-29 | the limit rule applied to its own result gives the same value |
| Pagination.PaginationParams.constructor | internal/model/pagination.go:4-7 | the bound page and page_size are kept as given |
| Pagination.PaginationParams.GetOffset | internal/model/pagination.go:10-18 | page ≤ 0 is rewritten to 1 and size ≤ 0 to 10 in place, a larger size is left uncapped; the result is (page-1)·size computed in Go's 64-bit int, so it is that product, and non-negative, exactly when the product fits, and wraps otherwise |
| Pagination.PaginationParams.GetLimit | internal/model/pagination.go:21-29 | the size is replaced by the limit rule's value, which is returned; the page is untouched |
| Pagination.OffsetFor | internal/model/pagination.go:10-18 | the offset after defaulting in unbounded integers: never negative, and (page-1)·size for a positive page and size |
| Pagination.WrapInt64 | internal/model/pagination.go:17 | Go's int arithmetic: the result lies in the int64 range, is congruent to the exact value modulo 2^64, and equals it when it fits |
| Pagination.Offset64 | internal/model/pagination.go:10-18 | the offset Go returns lies in the int64 range and equals the unbounded offset, non-negative, whenever that fits |
| Pagination.OffsetWrapsNegative | internal/model/pagination.go:17 | page 2^61+1 with page_size 4 has the exact offset 2^63, which Go returns as -2^63 |
| Pagination.GetLimitTwice | internal/model/pagination.go:21-29 | a second GetLimit returns the same value and leaves the parameters as they were |
| Pagination.NewPaginatedResponse | internal/model/pagination.go:46-60 | data, page, page size and total are echoed unchanged; the page count uses Go's truncating `/` and `%` |
| Pagination.TotalPageIsCeiling | internal/model/pagination.go:47-50 | for a positive size the page count is ⌈total/size⌉: enough pages for every row, no empty last page, 0 pages for no rows |
| Pagination.WindowAsWritten | internal/repository/server.go:59-60 | the rows a list query reads as written: the offset uses the uncapped size, the limit the capped one |
| Pagination.QueryWindow | internal/repository/log.go:43-44 | Offset(GetOffset()) then Limit(GetLimit()) on one params value reads exactly WindowAsWritten and leaves the capped size stored |
| Pagination.WindowAsWrittenSkipsRows | internal/model/pagination.go:14-17 | page 1 and page 2 at page_size 500 read rows 0..99 and 500..599: rows 100..499 are never listed |
| Pagination.Window | internal/model/pagination.go:10-29 | the corrected window: offset and limit both use the capped size, the offset still in Go's int, non-negative while it fits |
| Pagination.WindowPagesAreContiguous | internal/model/pagination.go:10-29 | with the corrected window, page 1 starts at row 0 and each page starts where the previous one ended, for every page whose end offset fits in int64 |
| Crypto.Encrypt | internal/crypto/crypto.go:191-218 | the key check comes first; "" stays ""; any other plaintext gives a value carrying the "enc:v1:" prefix, or the random source's error |
| Crypto.EncodedPart | internal/crypto/crypto.go:230-234 | Decrypt drops the "enc:v1:" prefix when present and uses unprefixed legacy text as it is |
| Crypto.Decrypt | internal/crypto/crypto.go:221-263 | the key check, then "" stays ""; a base64 failure, a payload shorter than the nonce, and a rejected tag are errors; otherwise the opened plaintext |
| Crypto.DecryptEncrypt | internal/crypto/crypto.go:191-263 | decrypting what Encrypt produced gives the plaintext back |
| Crypto.PrefixIsOptional | internal/crypto/crypto.go:230-234 | a prefixed payload decrypts exactly as the bare payload does |
| SecretFields.SealOne | internal/model/server.go:26-32 | one BeforeSave field: an empty or already prefixed value is kept as it is, and a successful result is never one that would be encrypted again |
| SecretFields.OpenOne | internal/model/server.go:52-58 | one AfterFind field: an empty value stays empty, any other is decrypted |
| SecretFields.SealField | internal/model/server.go:26-32 | the `if v != "" && !IsEncrypted(v)` block returns SealOne's value or its error |
| SecretFields.OpenField | internal/model/server.go:52-58 | the `if v != ""` decrypt block returns OpenOne's value or its error |
| SecretFields.SealFields | internal/model/server.go:25-48 | BeforeSave over the secret fields in order keeps one value per field |
| SecretFields.SealFieldsMeaning | internal/model/server.go:25-48 | BeforeSave succeeds iff every field can be sealed, then holds each sealed value; empty and prefixed fields are never touched |
| SecretFields.OpenFields | internal/model/server.go:51-74 | AfterFind over the secret fields in order keeps one value per field |
| SecretFields.OpenFieldsMeaning | internal/model/server.go:51-74 | AfterFind succeeds iff every field can be opened, then holds each opened value; empty fields stay empty |
| SecretFields.SealFieldsStopsAtFirstError | internal/model/destination.go:51-57 | the first failing field's error is returned; the fields before it are sealed and the fields from it on are left as they were |
| SecretFields.SealFieldsIdempotent | internal/model/server.go:25-48 | saving a second time changes nothing: every secret is then empty or prefixed |
| SecretFields.OpenSealRoundTrip | internal/model/server.go:25-74 | loading what was saved gives the original unprefixed secrets back |
| ServerModel.Credentials | internal/model/server.go:15-17 | the hooks visit ClientID, ClientSecret and MasterPassword, in that order |
| ServerModel.BeforeSave | internal/model/server.go:25-48 | the three credentials are sealed in order, stopping at the first error; every other field is unchanged |
| ServerModel.AfterFind | internal/model/server.go:51-74 | the three credentials are decrypted in order, stopping at the first error; every other field is unchanged |
| ServerModel.ToResponse | internal/model/server.go:77-88 | the response copies id, name, URL, client id, official flag and enabled flag |
| ServerModel.ResponseHidesSecrets | internal/model/server.go:90-100 | the response does not depend on the client secret or the master password |
| DestinationModel.Secrets | internal/model/destination.go:22-39 | the hooks visit WebDAVPassword, S3AccessKey, S3SecretKey and EncryptionPassword, in that order |
| DestinationModel.WithSecrets | internal/model/destination.go:50-113 | replacing the four secrets leaves exactly those four values in place |
| DestinationModel.BeforeSave | internal/model/destination.go:50-80 | the four secrets are sealed in order, stopping at the first error; nothing but the secrets changes |
| DestinationModel.AfterFind | internal/model/destination.go:83-113 | the four secrets are decrypted in order, stopping at the first error; nothing but the secrets changes |
| DestinationModel.MaskSensitiveField | internal/model/destination.go:140-145 | a value of at most eight characters becomes "****"; a longer one keeps its first four and last four characters around "****" (characters, not bytes: exact for ASCII) |
| DestinationModel.MaskRevealsOnlyEnds | internal/model/destination.go:140-145 | two values with the same length class and the same first and last four characters mask alike |
| DestinationModel.GetDisplayPath | internal/model/destination.go:180-196 | local path, WebDAV URL+path, "s3://"+bucket+path, the target server's name and URL or the fixed label, and "" for unknown types |
| DestinationModel.GetTypeLabel | internal/model/destination.go:199-210 | a fixed label for each of the four known types, the raw type otherwise |
| DestinationModel.ToResponse | internal/model/destination.go:148-177 | public fields copied, the S3 access key masked when non-empty and empty otherwise, display path and label filled in |
| DestinationModel.ResponseHidesSecrets | internal/model/destination.go:116-137 | the response does not depend on the WebDAV password, the S3 secret key or the encryption password |
| DestinationModel.ResponseHidesTargetCredentials | internal/model/destination.go:188-191 | the response does not depend on the target server's credentials either |
| TaskModel.ToResponse | internal/model/task.go:43-59 | the scalar fields copied, the source server's response, and one destination response per destination in order |
| TaskModel.ResponseHidesSecrets | internal/model/task.go:30-40 | a task response does not depend on the source server's secret and password nor on any destination's hidden secrets |
| DatabaseResponse.MaskSensitive | internal/database/response.go:75-83 | "" stays "", a value of at most eight characters becomes "****", a longer one keeps four characters at each end (characters, not bytes: exact for ASCII) |
| DatabaseResponse.MaskRevealsOnlyEnds | internal/database/response.go:75-83 | two values that are both empty, both short, or long with the same ends mask alike |
| DatabaseResponse.MaskFunctionsAgree | internal/database/response.go:75-83 | this mask and the model package's maskSensitiveField agree on every non-empty value and differ only on "" |
| DatabaseResponse.ServerConfigToResponse | internal/database/response.go:18-31 | client id, client secret and master password are shown masked; the public fields are copied |
| DatabaseResponse.TypeInfo | internal/database/response.go:85-106 | label and display path by type: local path, URL followed by the path when non-empty, "s3://"+bucket followed by the path when non-empty, "N/A" for server and unknown types, whose label is the raw type |
| DatabaseResponse.DisplayPathsAgreeOnFileTypes | internal/database/response.go:85-106 | for local, WebDAV and S3 the display path equals the model's GetDisplayPath; for server destinations the two differ |
| DatabaseResponse.BackupDestinationToResponse | internal/database/response.go:52-73 | the WebDAV and encryption passwords are masked, label and display path come from getDestinationTypeInfo, the public fields are copied |
| DatabaseResponse.DestinationResponseHidesS3Keys | internal/database/response.go:33-50 | the S3 access and secret keys never reach this response |
| Migrate.ValidGroupsAlphabet | internal/database/migrate.go:112-115 | every character of text base64.StdEncoding accepts is in the base64 alphabet or is '=' |
| Migrate.PrefixedNeverLooksEncrypted | internal/database/migrate.go:112-115 | a value carrying the "enc:v1:" prefix is never judged already encrypted by isEncrypted, because ':' is not base64 |
| Migrate.SecondPassEncryptsAgain | internal/database/migrate.go:41-66 | every non-empty value Encrypt produced needs migrating again, so a second migration re-encrypts ciphertext |
| Migrate.MigrateField | internal/database/migrate.go:41-48 | a value that is empty or already looks encrypted is kept; any other is replaced by its encryption, or the encryption error |
| Migrate.MigrateServer | internal/database/migrate.go:37-67 | the step keeps the server's ID |
| Migrate.MigrateServerMeaning | internal/database/migrate.go:37-73 | without error each credential is its migrated value and the server needs saving iff one credential needed migrating; other fields are kept; an error names the server |
| Migrate.MigrateServerFields | internal/database/migrate.go:38-66 | the three guarded blocks, executed in order on the record, give exactly MigrateServer's step |
| Migrate.MigrateDestination | internal/database/migrate.go:88-100 | only the WebDAV password changes; without error it is the migrated value and the record needs saving iff it needed migrating; an error names the destination |
| Migrate.MigrateDestinationFields | internal/database/migrate.go:89-99 | the guarded block, executed on the record, gives exactly MigrateDestination's step |
| Migrate.MigrateAll | internal/database/migrate.go:37-76 | the slice keeps its length through the loop |
| Migrate.MigrateAllUnchangedAfter | internal/database/migrate.go:37-38 | records the loop has not reached are still as loaded |
| Migrate.MigrateAllStopped | internal/database/migrate.go:43-45 | after the first error, no later record is changed or saved |
| Migrate.NeedingUpdate | internal/database/migrate.go:68 | lists in order only indices whose record needed saving |
| Migrate.MigrateAllSavesExactlyUpdated | internal/database/migrate.go:37-76 | a loop that ends without error leaves every record as its step computed and saves exactly the records that needed it, in order |
| Migrate.MigrateServerConfigs | internal/database/migrate.go:28-77 | the loop over the array in place yields the slice, the saved indices and the first error that MigrateAll gives for the loaded servers |
| Migrate.MigrateBackupDestinations | internal/database/migrate.go:79-110 | the same for the loaded destinations |
| Migrate.MigrateEncryptExistingData | internal/database/migrate.go:13-26 | servers first; a server error is wrapped as "failed to migrate server configs" before any destination changes; otherwise the destinations are migrated and their error is wrapped |
| ServerHandler.EnabledFilter | internal/handler/server.go:20-24 | no filter exactly when the parameter is empty; a filter for enabled servers exactly when it is "true"; any other value filters for disabled ones |
| ServerHandler.EnabledFilterIsCaseSensitive | internal/handler/server.go:20-24 | "True", "1" and "false" all filter for disabled servers |
| ServerHandler.GetServer | internal/handler/server.go:43-55 | "Invalid ID" exactly when the id is not a base-10 number of at most 32 bits; a found server is returned through ToResponse; a missing one is "Server not found" |
| ServerHandler.GetServerAcceptsExactly32BitIds | internal/handler/server.go:44-48 | a printed number is refused exactly when it exceeds 2^32-1; a leading "+" and the empty id are refused |
| ServerHandler.CreateServer | internal/handler/server.go:58-90 | the client secret is checked before the master password; a server is created exactly when both are given, enabled, with the request's fields |
| ServerHandler.UpdateServer | internal/handler/server.go:93-148 | an unparsable id is "Invalid ID"; a toggle-only request writes only `enabled`, without reading the record; a full update of a missing server is "Server not found", otherwise the stored record is merged with the request |
| ServerHandler.MergeIdempotent | internal/handler/server.go:123-137 | applying the same full update twice stores the same record as applying it once |
| ServerHandler.ResubmitResponseChangesNothing | internal/handler/server.go:123-137 | sending back a server's response fields with empty secrets and no `enabled` leaves the record unchanged |
| ServerHandler.CreateThenSameUpdateIsStable | internal/handler/server.go:75-83 | a created server merged with the request that created it is unchanged |
| DestinationHandler.KeepIfEmpty | internal/handler/destination.go:118-127 | the result is the stored or the requested secret, and it is the stored one exactly when the request's value is empty or equal to it |
| DestinationHandler.UpdateDestination | internal/handler/destination.go:67-138 | an unparsable id is "Invalid ID"; a request with neither name nor type writes only `enabled` (false when omitted) without reading the record; a full update of a missing record is "Destination not found", otherwise the stored record is merged with the request |
| DestinationHandler.MergedCountIsClamped | internal/handler/destination.go:111-115 | the stored retention count is never negative, and a non-negative requested count is stored as given |
| DestinationHandler.MergeIdempotent | internal/handler/destination.go:96-127 | applying the same full update twice stores the same record as applying it once |
| DestinationHandler.ResubmitWithoutSecretsChangesNothing | internal/handler/destination.go:96-127 | re-sending a stored destination with its three secrets blanked leaves it unchanged |
| DestinationHandler.EmptyAccessKeyClearsStoredKey | internal/handler/destination.go:106 | an empty S3 access key in a full update erases the stored one, unlike the three secrets |
| LogHandler.TaskIDFilter | internal/handler/log.go:19-29 | no filter exactly when the parameter is empty; otherwise accepted exactly when it is a base-10 number of at most 32 bits, and then the filter is that number; anything else is "invalid task_id" |
| LogHandler.TaskIDFilterRoundTrip | internal/handler/log.go:21-28 | every printed 32-bit task id is read back as a filter on exactly that task |
| LogHandler.GetLogs | internal/handler/log.go:12-41 | a bad task_id is the only error; the response carries the rows and total of the filtered query, echoes the page as bound, and gives the page size as GetLimit settles it, within 1..100 |
| TaskHandler.ValidateCronExpression | internal/handler/task.go:14-24 | its only refusal is the invalid-cron error (the field count itself is stated by CronAcceptsFiveOrSixWords) |
| TaskHandler.CronAcceptsFiveOrSixWords | internal/handler/task.go:14-24 | words joined by spaces are accepted exactly when there are 5 or 6 of them |
| TaskHandler.ValidateSourceDestination | internal/handler/task.go:27-39 | refuses exactly when some listed destination that can be found is of type "server" and targets the source server; ids that cannot be found are skipped |
| TaskHandler.CreateTask | internal/handler/task.go:81-119 | the checks run in the order name, source, destinations, cron, source-is-target, and the first failing one is the error; a task is created exactly when all pass, and it is always enabled |
| TaskHandler.UpdateTask | internal/handler/task.go:145-195 | an unparsable id is "Invalid ID"; a toggle-only request skips every check and writes only `enabled`; any other request passes the cron and source checks and replaces the task, disabled when `enabled` is absent |
| BitwardenText.StripAnsi | internal/bitwarden/client.go:47-57 | removing escape sequences never makes the text longer |
| BitwardenText.StripAnsiPlain | internal/bitwarden/client.go:55-57 | text without an escape character is unchanged |
| BitwardenText.StripAnsiDropsSequence | internal/bitwarden/client.go:47-57 | an ESC '[' sequence of digits and ';' closed by a letter disappears entirely, whatever follows it |
| BitwardenText.StripAnsiKeepsPlainFront | internal/bitwarden/client.go:55-57 | a character other than ESC at the front is kept, whatever follows it |
| BitwardenText.KeptLines | internal/bitwarden/client.go:50-69 | the kept lines are no more than the input lines, and none of them matches the password-prompt pattern |
| BitwardenText.KeptLinesAllClean | internal/bitwarden/client.go:63-69 | when no line matches the prompt pattern, every line is kept in order |
| BitwardenText.MaskTokensLeavesNoLongToken | internal/bitwarden/client.go:52-72 | after masking no run of 64 or more characters of [A-Za-z0-9+/] remains |
| BitwardenText.MaskTokensKeepsShortRuns | internal/bitwarden/client.go:52-72 | text without such a run is unchanged by the mask |
| BitwardenText.TrimSpaceKeepsNoLongToken | internal/bitwarden/client.go:73 | trimming cannot create a long token-like run |
| BitwardenText.SanitizedHidesTokens | internal/bitwarden/client.go:60-74 | no token-like run of 64 characters or more survives sanitising |
| BitwardenText.SanitizedDropsPrompt | internal/bitwarden/client.go:60-74 | a single line matching the prompt pattern is sanitised to "" |
| BitwardenText.SanitizedKeepsPlainOutput | internal/bitwarden/client.go:60-74 | output without escapes, prompt lines or long runs is only trimmed |
| BitwardenText.SanitizeBWOutput | internal/bitwarden/client.go:60-74 | the line-filtering loop and the library calls give exactly the sanitised form: escapes stripped, prompt lines dropped, long runs masked, then trimmed |
| BitwardenText.Redacted | internal/bitwarden/client.go:106-127 | the logged argument list has the same length as the command line |
| BitwardenText.RedactedOnlyMasks | internal/bitwarden/client.go:110-124 | every element is either kept or replaced by "***", "--session=***" or "--password=***" |
| BitwardenText.RedactedHidesFlagValues | internal/bitwarden/client.go:111-114 | in the logged list, a "--session" or "--password" that has a following element is followed by "***" |
| BitwardenText.RedactedHidesInlineValues | internal/bitwarden/client.go:116-123 | every logged "--session=" or "--password=" element carries the value "***" |
| BitwardenText.RedactAt | internal/bitwarden/client.go:111-123 | one scan step rewrites the copy at the current index (and the value after a secret flag), leaves the rest as given, and moves the index past what it covered |
| BitwardenText.RedactBWArgs | internal/bitwarden/client.go:106-127 | the copy rewritten in place by the index-skipping loop equals Redacted of the arguments; the input is a value and is not changed |
| Bitwarden.LoggedAppendsClean | internal/bitwarden/client.go:77-88 | AddLog only appends, at most one entry, and an appended entry is non-empty and free of 64-character token-like runs |
| Bitwarden.LoggedKeepsClean | internal/bitwarden/client.go:77-88 | a log of clean entries stays clean after AddLog |
| Bitwarden.PromptIsNotLogged | internal/bitwarden/client.go:79-82 | a message that is only a one-line password prompt leaves the log unchanged |
| Bitwarden.StatusOf | internal/bitwarden/client.go:176-199 | a status is read exactly when the run succeeded and its trimmed stdout decodes to a non-empty `status`, which is then the result; a failed run is "bw status failed" with its exit code |
| Bitwarden.ExportArgs | internal/bitwarden/export.go:98-106 | the arguments start with export --output <path> --format <format> and have two more for a session token and two more for a non-empty first password |
| Bitwarden.ImportArgs | internal/bitwarden/import.go:15-18 | the arguments start with import <format> <path> and have two more exactly when a session token is held |
| Bitwarden.RedactedPlainPrefix | internal/bitwarden/client.go:110-124 | arguments that are neither secret flags nor inline secrets, in front of a list, are logged as they are |
| Bitwarden.ExportArgsLoggedRedacted | internal/bitwarden/export.go:98-108 | the logged export command shows "***" in place of the session token and the export password, whatever they are |
| Bitwarden.ImportArgsLoggedRedacted | internal/bitwarden/import.go:15-20 | the logged import command shows "***" in place of the session token |
| Bitwarden.UnlockErrorNotLoggedIn | internal/bitwarden/export.go:13-45 | Unlock reports a lost login exactly when the probe did not say "unauthenticated", the unlock run failed and its stderr says "not logged in"; a failed probe does not stop an unlock that prints a token |
| Bitwarden.Client.constructor | internal/bitwarden/client.go:38-43 | a new client holds no session, is locked and has an empty log |
| Bitwarden.Client.AddLog | internal/bitwarden/client.go:77-88 | the log becomes the old log plus one entry holding the sanitised message, or stays as it was when nothing is left; the session fields do not change; a clean log stays clean |
| Bitwarden.Client.GetLogs | internal/bitwarden/client.go:91-93 | returns the entries in the order they were appended |
| Bitwarden.Client.ClearLogs | internal/bitwarden/client.go:96-98 | the log is empty afterwards and nothing else changes |
| Bitwarden.Client.RunBW | internal/bitwarden/client.go:129-169 | the outcome of the run is returned unchanged and the log gains the line "bw <redacted args> (exit=…, …ms)" through AddLog |
| Bitwarden.Client.Status | internal/bitwarden/client.go:176-199 | the result is StatusOf the run; the log only grows and the session fields do not change |
| Bitwarden.Client.ConfigServer | internal/bitwarden/client.go:202-215 | a successful run remembers the server address; a failed one is an error and keeps the old address |
| Bitwarden.Client.Login | internal/bitwarden/client.go:218-238 | an error exactly when the run failed; the session fields do not change |
| Bitwarden.Client.Sync | internal/bitwarden/client.go:241-250 | an error exactly when the run failed; the session fields do not change |
| Bitwarden.Client.Unlock | internal/bitwarden/export.go:12-73 | a probe reporting "unauthenticated" refuses first; a failed unlock keeps the session and is a lost login only when stderr says so; a printed token becomes the session and unlocks; no token unlocks without a session only when a second probe says "unlocked", else it is an error and the session is kept; success always permits Export and Import |
| Bitwarden.Client.UnlockRun | internal/bitwarden/export.go:25-72 | the part of Unlock after the probe, with the same three outcomes |
| Bitwarden.Client.UnlockWithToken | internal/bitwarden/export.go:69-72 | the token becomes the session and the vault counts as unlocked |
| Bitwarden.Client.NoteUnlockStderr | internal/bitwarden/export.go:26-34 | logging the unlock's stderr changes neither the session nor the server address |
| Bitwarden.Client.UnlockFailed | internal/bitwarden/export.go:35-45 | the error is ErrNotLoggedIn with "unlock failed: <stderr>" when stderr says "not logged in" or "You are not logged in", otherwise the generic unlock failure; the session is kept |
| Bitwarden.Client.UnlockWithoutToken | internal/bitwarden/export.go:47-67 | a second probe reporting "unlocked" unlocks with an empty session; anything else is the empty-session-token error and the session is kept |
| Bitwarden.Client.Export | internal/bitwarden/export.go:86-120 | refused with "vault is not unlocked" before anything runs or is logged when no session is held and the vault is locked; an output directory that cannot be made runs nothing; otherwise exactly ExportArgs runs and a failed run is an error; the session never changes |
| Bitwarden.Client.Import | internal/bitwarden/import.go:10-32 | the same guard as Export; otherwise exactly ImportArgs runs and a failed run is an error; the session never changes |
| Bitwarden.Client.Logout | internal/bitwarden/import.go:35-58 | success, or a failure saying "You are not logged in", clears the session and locks the vault; any other failure is an error and keeps the session |
| Bitwarden.LogoutThenUseVault | internal/bitwarden/import.go:11-58 | after a successful logout both Export and Import are refused with "vault is not unlocked" and run nothing |
| Scheduler.NormalizeCron | internal/scheduler/execute.go:16-22 | an expression of exactly 5 whitespace-separated fields gets "0 " in front; any other is returned unchanged |
| Scheduler.FieldsOfSecondsPrefix | internal/scheduler/execute.go:19 | the "0 " prefix adds exactly one field, "0", in front of the expression's fields |
| Scheduler.NormalizeCronIdempotent | internal/scheduler/execute.go:16-22 | normalising twice gives the same expression as normalising once |
| Scheduler.ValidatedCronHasSixFields | internal/scheduler/execute.go:16-22 | every non-empty expression the task handler accepts reaches the cron library with exactly 6 fields |
| Scheduler.FireJob | internal/scheduler/execute.go:27-39 | the fired job runs the task exactly when it can be re-read and is still enabled, and then runs the freshly read task; a task that cannot be read is a fetch failure |
| Scheduler.Scheduler.constructor | internal/scheduler/scheduler.go:23-26 | a new scheduler has no task entries and no jobs, and is consistent |
| Scheduler.Scheduler.AddTask | internal/scheduler/execute.go:24-51 | the normalised expression is scheduled; on success the new entry id is recorded under the task id; on a parse error the map and the jobs are unchanged; consistency is kept for a task without an entry |
| Scheduler.Scheduler.RemoveTask | internal/scheduler/execute.go:54-63 | a task with an entry loses it and its job; a task without one changes nothing, so removing twice is removing once |
| Scheduler.Scheduler.UpdateTask | internal/scheduler/execute.go:66-78 | removes first; a disabled task or one without an expression ends with no entry; otherwise it has an entry exactly when its expression is accepted; no other task's entry changes |
| Scheduler.Scheduler.LoadTasks | internal/scheduler/task.go:11-36 | a failed query is an error and schedules nothing; otherwise the result is nil, scheduledCount counts the enabled tasks whose add succeeded, manualCount those without an expression, every task counted as scheduled has an entry and no entry appears for anything else |
| Scheduler.EnabledTasks | internal/scheduler/task.go:13 | the loaded tasks are exactly the enabled stored ones |
| Scheduler.LoadCountsPartition | internal/scheduler/task.go:20-32 | scheduled + manual + rejected equals the number of enabled tasks loaded |
| Scheduler.ExecuteTask | internal/scheduler/execute.go:80-107 | the log is first written "running" with no end time, then once more in exactly one terminal state: "failed" with the error text or "success" with "Backup completed successfully", with an end time either way |
| Scheduler.ExecuteTaskNow | internal/scheduler/execute_now.go:11-38 | the same two writes for a run started by hand: "running" for the task first, then exactly one of "failed" (with the error text) or "success" (with the fixed message), with an end time |
| MultiDestination.FirstPasswordIsFirst | internal/scheduler/multi_destination.go:97-113 | the export password is empty exactly when no enabled encrypted file destination has a password, and otherwise it is the password of the first such destination |
| MultiDestination.PlanExports | internal/scheduler/multi_destination.go:94-113 | the planning loop sets needEncrypted exactly when some enabled local, WebDAV or S3 destination is encrypted, needPlain exactly when some enabled one is unencrypted or some enabled server destination exists, and the password as FirstPassword |
| MultiDestination.DeliveredFileWasPlanned | internal/scheduler/multi_destination.go:148-151 | every enabled destination of a known type is handed an export the plan made: the encrypted one exactly for encrypted file destinations, the plain one for server destinations even when flagged encrypted |
| MultiDestination.Delivered | internal/scheduler/multi_destination.go:139-162 | the recorded paths are the successes, all non-empty; successes plus failures never exceed the destinations; there is a last error exactly when something failed |
| MultiDestination.NothingEnabledDeliversNothing | internal/scheduler/multi_destination.go:143-146 | with every destination disabled nothing is delivered and nothing fails |
| MultiDestination.FirstPathIsEarliestSuccess | internal/scheduler/multi_destination.go:158-167 | the first recorded path is the one returned for the earliest enabled destination whose delivery gave a non-empty path |
| MultiDestination.DeliverAll | internal/scheduler/multi_destination.go:139-162 | the delivery loop's tally is exactly Delivered |
| MultiDestination.Verdict | internal/scheduler/multi_destination.go:171-176 | a run that delivered fails exactly when nothing succeeded and something failed |
| MultiDestination.FirstAttempt | internal/scheduler/multi_destination.go:46-63 | the session phase reaches the unlock exactly when config, login and sync succeed, and then reports the unlock's own error; a clean unlock permits the exports |
| MultiDestination.Retry | internal/scheduler/multi_destination.go:65-76 | the retry succeeds exactly when its login, sync and unlock all succeed, and success permits the exports |
| MultiDestination.Connect | internal/scheduler/multi_destination.go:46-80 | exactly one retry is made, and only when the first unlock says the login is lost; otherwise the first attempt decides; success permits the exports |
| MultiDestination.ExportAll | internal/scheduler/multi_destination.go:119-137 | only the exports the plan needs are made; with an unlocked vault and writable directories it succeeds exactly when each needed `bw export` succeeds; success means each needed export was written |
| MultiDestination.ExportAndDeliver | internal/scheduler/multi_destination.go:94-176 | an encrypted destination without any password fails before any export and nothing is delivered; nothing is delivered unless every needed export was written; a delivering run's tally is Delivered over the exports, its error is Verdict, and its backup file is the first recorded path |
| MultiDestination.PerformBackupToDestinations | internal/scheduler/multi_destination.go:29-177 | a missing source server fails with no log; otherwise the results of ExportAndDeliver hold for the whole run, and the saved client log is always clean |
| DestinationDispatch.BackupToDestination | internal/scheduler/destination_handler.go:10-43 | an unregistered type returns the registry's "unknown provider type" error and runs nothing; otherwise the result is the provider's backup outcome; the cleanup runs exactly after a successful backup with a positive retention count on a provider that supports retention, and never changes the returned path |
| DestinationDispatch.DefaultCleanupByType | internal/scheduler/destination_handler.go:31-33 | with the default registry a server destination is never cleaned up, and local, WebDAV and S3 destinations are cleaned after a successful backup when a count is set |
| ProviderRegistry.TypeName | internal/provider/local.go:23-25 | every provider is registered under one of "local", "webdav", "server" and "s3" |
| ProviderRegistry.TypeNamesDistinct | internal/provider/registry.go:38 | two providers share a registry key exactly when they are the same provider |
| ProviderRegistry.Lookup | internal/provider/registry.go:42-51 | a lookup succeeds exactly when the type is registered, and otherwise fails with "unknown provider type: <t>" |
| ProviderRegistry.LookupAfterRegister | internal/provider/registry.go:35-51 | after Register(p), Get(p's type) returns p, and every other type is looked up as before |
| ProviderRegistry.DefaultProviders | internal/provider/registry.go:21-31 | the default registry holds exactly the keys local, webdav, server and s3, each mapped to the provider of that type |
| ProviderRegistry.DefaultHasEveryKind | internal/provider/registry.go:26-29 | every built-in provider is found in the default registry under its own type |
| ProviderRegistry.Registry.constructor | internal/provider/registry.go:22-24 | a new registry is empty |
| ProviderRegistry.Registry.Register | internal/provider/registry.go:35-39 | the provider is stored under its type, replacing any earlier one, and no other entry changes |
| ProviderRegistry.Registry.Get | internal/provider/registry.go:42-51 | the result is Lookup of the registered providers |
| ProviderRegistry.Registry.Types | internal/provider/registry.go:54-63 | lists every registered key exactly once, so its length is the number of providers |
| ProviderRegistry.NewDefaultRegistry | internal/provider/registry.go:20-32 | GetRegistry's first call yields a fresh registry holding exactly the default providers |
| Retention.BackupFileNameIsRecognised | internal/provider/local.go:35-83 | every name Backup gives a file, backup_<task>_<ts>.json, passes the cleanup filter |
| Retention.JoinPath | internal/provider/local.go:35-105 | joining with an empty directory gives the name alone; otherwise the result starts with the directory and ends with the name |
| Retention.SwapDown | internal/provider/local.go:98-100 | swapping two adjacent candidates exchanges those two, leaves every other place as it was, and keeps the same candidates |
| Retention.InsertNewest | internal/provider/local.go:98-100 | one insertion step extends the newest-first prefix by one entry, and the array keeps the same candidates |
| Retention.SortNewestFirst | internal/provider/local.go:98-100 | sorting in place leaves the array newest first and a permutation of what it held |
| Retention.SortedCandidates | internal/provider/local.go:98-100 | the sorted candidates are a permutation of the input, newest first |
| Retention.KeepsNewest | internal/provider/local.go:102-110 | splitting a newest-first list at maxCount keeps maxCount entries, loses none, and every kept entry is at least as new as every deleted one |
| Retention.SelectForDeletion | internal/provider/local.go:93-110 | with at most maxCount candidates nothing is targeted; otherwise exactly the surplus is, drawn from the candidates, and every kept candidate is at least as new as every targeted one |
| Retention.CountRemoved | internal/provider/local.go:103-112 | the count of removals never exceeds the number of targets |
| Retention.CountRemovedBounds | internal/provider/local.go:103-112 | every delete succeeding counts every target, and every delete failing counts none |
| Retention.DeleteOld | internal/provider/local.go:103-112 | the delete loop skips a failed removal and returns CountRemoved |
| Retention.AllRemovedDeletesSurplus | internal/provider/local.go:93-112 | when every removal succeeds the cleanup deletes exactly the surplus over maxCount, and nothing when there is none |
| LocalProvider.Backup | internal/provider/local.go:28-54 | fails exactly when one of its file steps fails; otherwise the path ends with backup_<task>_<ts>.json and starts with LocalPath |
| LocalProvider.Candidates | internal/provider/local.go:78-91 | the candidates are no more than the entries, each named backup_*.json with a readable time |
| LocalProvider.WrittenBackupIsCandidate | internal/provider/local.go:35-91 | a backup this provider wrote, listed as a readable file, is a cleanup candidate |
| LocalProvider.CollectBackups | internal/provider/local.go:78-91 | the filtering loop skips directories, other names and unreadable entries, giving exactly Candidates |
| LocalProvider.Cleanup | internal/provider/local.go:57-113 | a non-positive count does nothing; an empty path is "local path is empty"; an unreadable directory is an error; otherwise the oldest surplus candidates are targeted (SelectsOldest) and the count is the successful removals |
| WebDAVProvider.Backup | internal/provider/webdav.go:27-39 | succeeds exactly when the PUT returns 200, 201 or 204, and then returns WebDAVURL directly followed by the joined remote path |
| WebDAVProvider.ReportedPathVersusUploadURL | internal/provider/webdav.go:30-38 | with a WebDAV path starting with "/" and a URL without a trailing "/", the reported path is the URL the file was uploaded to |
| WebDAVProvider.Candidates | internal/provider/webdav.go:54-63 | the candidates are no more than the listed files, each a non-collection named backup_*.json |
| WebDAVProvider.CollectBackups | internal/provider/webdav.go:54-63 | the filtering loop gives exactly Candidates |
| WebDAVProvider.Cleanup | internal/provider/webdav.go:42-85 | a non-positive count does nothing and lists nothing; a failed listing is an error; otherwise the oldest surplus candidates of the listing as written are targeted, failed deletes are skipped and the count is the successful deletes; at WebDAVPath "" or "/" nothing is targeted or deleted |
| WebDAVProvider.RootCleanupTargetsNothing | internal/provider/webdav.go:47-67 | at the root the selection step finds no target, however many backups the server holds, because the listing as written is empty |
| S3Provider.KeyDir | internal/provider/s3.go:64-67 | the key directory is empty exactly when S3Path without a leading "/" is empty, and otherwise ends in "/" |
| S3Provider.KeyLiesUnderCleanupPrefix | internal/provider/s3.go:64-100 | every key Backup writes starts with the cleanup prefix (which ends in "backup_") and ends in ".json", so the cleanup finds it |
| S3Provider.LeadingSlashIgnored | internal/provider/s3.go:64 | one leading "/" in S3Path makes no difference to the key |
| S3Provider.Backup | internal/provider/s3.go:32-82 | fails exactly when a step fails; otherwise returns "s3://<bucket>/" followed by the object key |
| S3Provider.Candidates | internal/provider/s3.go:112-118 | the candidates are no more than the listed objects, each with a key ending in ".json" |
| S3Provider.CollectBackups | internal/provider/s3.go:112-118 | the filtering loop gives exactly Candidates |
| S3Provider.Cleanup | internal/provider/s3.go:85-156 | a non-positive count does nothing; a failed listing is an error; otherwise the oldest surplus candidates are targeted, undated ones counting as oldest; the batch delete reports all of them on success and 0 with an error on failure |
| S3Provider.UndatedGoFirst | internal/provider/s3.go:125-133 | an object without LastModified is deleted before any dated one is |
| Config.GetEnv | internal/config/config.go:24-29 | a set, non-empty variable gives its value; an unset or empty one gives the default |
| Config.GetEnvAsInt | internal/config/config.go:31-37 | a variable Atoi accepts gives its number; an unset, empty or non-numeric one gives the default |
| Config.GetEnvAsIntRoundTrip | internal/config/config.go:31-37 | any 64-bit number written as decimal text is read back exactly; a word falls back to the default |
| Config.Load | internal/config/config.go:15-22 | each setting is GetEnv of its own variable with its own default |
| Config.LoadDefaults | internal/config/config.go:15-22 | with every variable unset or empty the settings are 8080, ./data/bitwarden-backup.db, info, production |
| Config.LoadFieldsAreIndependent | internal/config/config.go:15-22 | setting SERVER_PORT or APP_ENV changes no other setting |
| Router.ModeFor | cmd/server/router.go:15-24 | debug mode with the access log exactly when APP_ENV is "dev", release mode with recovery only otherwise |
| Router.DefaultIsRelease | cmd/server/router.go:15-24 | without APP_ENV the server runs in release mode |
| Router.Ext | cmd/server/router.go:74 | the extension is "" or a dot-led, slash-free suffix; it is non-empty exactly when the last path element holds a "." |
| Router.NoRoute | cmd/server/router.go:64-81 | "/api/..." paths are an API 404; other paths with an extension are a bare 404; all other paths are served index.html; exactly one applies |
| Router.ExtOfDottedName | cmd/server/router.go:74 | a last element "name.ext" with a dot-free ext has extension ".ext" |
| Router.ExtOfPlainElement | cmd/server/router.go:74 | a dot-free last element has no extension, whatever dots come earlier in the path |
| Router.ApiPathsComeFirst | cmd/server/router.go:68-71 | every path under "/api/" is an API 404, even one that names a file |
| Router.AppRoutesServeIndex | cmd/server/router.go:74-80 | outside "/api/", a path whose last element has no dot (and "/api" itself) gets the app's index page |
| Router.FilePathsAreNotFound | cmd/server/router.go:74-77 | outside "/api/", a path whose last element has a dot is a bare 404 |
| Logger.LevelString | internal/logger/logger.go:42 | Debug, Info, Warn and Error print as DEBUG, INFO, WARN and ERROR |
| Logger.Get | internal/logger/logger.go:101-106 | an initialised global handler is returned as is; otherwise a fresh one at Info without module or attributes |
| Logger.ModuleHandlersWriteEverything | internal/logger/logger.go:162-170 | a module handler writes every level from Debug up; the lazily made global one writes Info but not Debug |
| Logger.Quote | internal/logger/logger.go:81 | %q output starts and ends with a double quote |
| Logger.EscapeRoundTrip | internal/logger/logger.go:81 | the quoted body reads back as the original string, so %q loses nothing |
| Logger.FormatAttr | internal/logger/logger.go:79-84 | the attribute's text starts with its key followed by "=" |
| Logger.AttrsTextAppend | internal/logger/logger.go:53-61 | the text of two attribute lists one after the other is the two texts concatenated |
| Logger.AppendAttrs | internal/logger/logger.go:53-55 | the append loop adds " key=value" for each attribute, in order |
| Logger.Handle | internal/logger/logger.go:37-65 | the line is the header (with "[module]" only when a module is set), then the preset attributes, then the record's |
| Logger.WithAttrs | internal/logger/logger.go:67-72 | the new handler keeps level and module, and its attributes are the old ones followed by the new ones |
| Logger.WithAttrsActsLikeLeadingAttrs | internal/logger/logger.go:67-72 | preset attributes print exactly as if the record carried them before its own |
| Logger.GroupsChangeNothing | internal/logger/logger.go:74-76 | a group changes neither the levels written nor any line |
| WebDAV.NewClient | internal/webdav/client.go:15-21 | exactly one trailing "/" is removed from the base URL; the credentials are kept as given |
| WebDAV.NewClientTrimsOneSlash | internal/webdav/client.go:17 | a base URL ending in "//" keeps one slash, and an already trimmed URL is trimmed no further |
| WebDAV.CheckStatus | internal/webdav/upload.go:47-49 | no error exactly for an accepted status (PUT 200/201/204, DELETE 200/204, PROPFIND 207/200); the error names the status |
| WebDAV.StatusSetsDiffer | internal/webdav/upload.go:102-104 | 201 is accepted only for an upload, 207 only for a listing, 204 not for a listing, 200 for all three |
| WebDAV.UploadKeepsLeadingSlash | internal/webdav/upload.go:28 | the PUT URL keeps a leading "/" of the remote path (giving "//") where the PROPFIND and DELETE URLs drop it; without one the URLs agree |
| WebDAV.LastSegment | internal/webdav/upload.go:128-129 | the fallback name holds no "/" |
| WebDAV.EntryName | internal/webdav/upload.go:126-130 | the display name when there is one, else a slash-free last segment of the href |
| WebDAV.ListFiles | internal/webdav/upload.go:84-135 | a failed exchange or an unaccepted status is an error; otherwise the loop lists the responses in order, skipping every href that ends with the request path or is empty (Listing as written) |
| WebDAV.RootListingNeverListsFiles | internal/webdav/upload.go:117-123 | at "" or "/", whatever the reply, a listing that succeeds holds no file |
| WebDAV.RootListingIsEmptyAsWritten | internal/webdav/upload.go:117-123 | as written, a listing of "" or "/" is empty whatever the server replies, because every href ends with the empty request path |
| WebDAV.CorrectedRootListingKeepsFiles | internal/webdav/upload.go:117-131 | corrected, a root listing keeps each response whose href is not just "/", with its name, time and kind |
| WebDAV.CorrectionOnlyAffectsRoot | internal/webdav/upload.go:117-123 | below the root the corrected listing is the listing as written |
| JsValues.TruthyScalarsHaveText | web/src/api/index.js:9 | a truthy value other than an array prints as non-empty text; the arrays [] and [""] are truthy yet print as "" |
| WebApi.ResourcePath | web/src/api/index.js:2-108 | every resource's path lies under "/api/" |
| WebApi.QueryString | web/src/api/index.js:21-25 | the query text is empty exactly when nothing was appended |
| WebApi.ListUrl | web/src/api/index.js:25-26 | the list URL is the bare resource path exactly when nothing was appended, else the path, "?" and the query |
| WebApi.QueryFromContents | web/src/api/index.js:22-24 | a key is appended, with String() of its value, exactly when its condition holds; nothing else is appended |
| WebApi.KeysAppend | web/src/api/index.js:21-25 | the keys of two query parts in turn are the keys of each part in turn |
| WebApi.QueryFromKeys | web/src/api/index.js:22-24 | the appended keys keep the order in which their conditions are checked |
| WebApi.QueryForContents | web/src/api/index.js:19-108 | for each resource, a parameter is sent exactly when that resource's test holds (enabled !== undefined for servers, truthiness otherwise), with its String() value, in the order the conditions are checked |
| WebApi.FullQueryKeyOrder | web/src/api/index.js:19-108 | with every parameter set, servers send enabled, page, page_size; logs send task_id, page, page_size; tasks and destinations send page, page_size |
| WebApi.FalsyFiltersDiffer | web/src/api/index.js:22-74 | enabled=false is still sent for servers while page 0 is never sent; no other resource sends enabled |
| WebApi.DefaultParamsSendNothing | web/src/api/index.js:20-25 | called without parameters, every list function requests the bare resource path |
| WebApi.GetAllUrl | web/src/api/index.js:20-26 | the append-by-append construction gives the list URL of the resource's query |
| WebApi.RequestFor | web/src/api/index.js:19-96 | a call exists exactly where the resource offers it; its URL lies under the resource's path; GET exactly for the reads; a JSON body exactly for create and update; the JSON header for create, update and execute |
| WebApi.UpdateAndRemoveShareUrl | web/src/api/index.js:34-41 | update and delete of one id use the same URL with PUT and DELETE, and update sends the same body as create |
| WebApi.HttpStatusMessage | web/src/api/index.js:12 | the fallback message starts with "HTTP " |
| WebApi.HandleResponse | web/src/api/index.js:4-16 | an OK response resolves to its parsed body or rejects with the parse error; a failed one always rejects with a non-empty message: the body's error text when truthy and non-empty, the status message when the error is falsy, the parse error's message when there is one |
| WebApi.EmptyArrayErrorFallsBackToStatus | web/src/api/index.js:9-12 | an error field [] is truthy, prints as "", and so ends in the status message |
| WebApi.MissingAndEmptyErrorAgree | web/src/api/index.js:9-12 | a missing error and an empty one give the same rejection |
| Confirm.Settle | web/src/composables/useConfirm.js:29-41 | resolving settles that promise with the value unless it is already settled; no other promise changes |
| Confirm.SettleFirstWins | web/src/composables/useConfirm.js:29-41 | resolving a promise a second time changes nothing |
| Confirm.LabelsFor | web/src/composables/useConfirm.js:19-23 | every label is truthy, and each is the option given exactly when that option is truthy |
| Confirm.NoOptionsGiveDefaults | web/src/composables/useConfirm.js:4-23 | without options the dialog shows the default labels |
| Confirm.ConfirmStore.constructor | web/src/composables/useConfirm.js:4-12 | the dialog starts hidden, with the default labels and no resolve function |
| Confirm.ConfirmStore.Confirm | web/src/composables/useConfirm.js:15-27 | a new pending promise is made, the dialog is shown with its labels, and its resolve function replaces any earlier one, which stays pending |
| Confirm.ConfirmStore.HandleConfirm | web/src/composables/useConfirm.js:29-34 | the held promise, if any, is settled with true and the dialog is hidden |
| Confirm.ConfirmStore.HandleCancel | web/src/composables/useConfirm.js:36-41 | the held promise, if any, is settled with false and the dialog is hidden |
| Confirm.ConfirmStore.Answer | web/src/composables/useConfirm.js:29-41 | the held promise, if any, is settled with the answer and the dialog is hidden; nothing else changes |
| Confirm.ConfirmTwiceThenAnswer | web/src/composables/useConfirm.js:15-41 | a dialog opened over another leaves the first promise pending forever, and the answer settles only the second |
| Toast.Notify | web/src/composables/useToast.js:9-16 | the stand-in shows nothing; the registered component shows the message |
| Toast.ToastSlot.constructor | web/src/composables/useToast.js:4 | no component is registered at first |
| Toast.ToastSlot.UseToast | web/src/composables/useToast.js:6-17 | without a component a do-nothing stand-in and the "Toast not initialized" warning; otherwise the registered component and no warning |
| Toast.ToastSlot.SetToastInstance | web/src/composables/useToast.js:19-21 | the slot holds the component given, replacing any earlier one |
| Toast.RegisterTwiceThenUse | web/src/composables/useToast.js:6-21 | only the last registration counts: a message shows on it, or on nothing when it was null |

## Left out

- Running `bw`, file-system calls, WebDAV HTTP, the AWS SDK and `fetch`: their outcomes are parameters of the operations that use them.
- AES-GCM, PBKDF2, the random nonce, key generation and base64: an abstract cipher whose round-trip laws are preconditions. InitEncryption and key discovery and storage (environment, data/.env, .env, a generated key) are not modelled.
- The regular expressions of the CLI output cleaner (ANSI escapes, secret prompts, session tokens): each is a scanner over characters, not a regex engine.
- Case-insensitive matching folds ASCII letters only.
- Clocks and time formatting: timestamps are given values. The RFC 1123 parsing in parseWebDAVTime is not modelled; a WebDAV entry arrives with its time already parsed.
- JSON encoding and decoding, Gin binding and rendering, and URLSearchParams' percent-encoding: values are modelled after decoding and before encoding.
- filepath.Join's cleaning of `..` and repeated slashes: paths are joined with one "/".
- robfig/cron's firing times: only the field-count rules and the 5-to-6-field normalisation.
- Database errors other than "not found", and GORM itself: the store is a map.
- The server provider (import into another Bitwarden server): orchestration without logic of its own beyond early return on error.
- LocalProvider.Backup: the wording of its copy and write errors is not modelled; only that a failed step is an error.
- S3 client creation errors are folded into the listing or upload outcome; the single-page listing (at most 1000 objects) is not modelled.
- Removal of the temporary export file after a run.
- The logger's mutex and writer; `%v` of a non-string attribute is given as text; `%q` escapes only `"`, `\`, newline, tab and carriage return.
- JavaScript numbers are integers only (no NaN, no fractions).
- useToast's `console.warn` is returned as a warning value instead of being printed.
- Vue reactivity: the confirm store and toast slot are plain objects with methods.
- Delivery of the backup file to a destination is a parameter of the multi-destination run.
- The delete handlers, ToggleDestination, and the list handlers beyond their query filters: they pass straight to the store.
- Concurrency: the scheduler's worker goroutine, channels and stop/drain logic, the `go func` in task execution, the mutexes and `sync.Once`. Every call is sequential.
- TaskModel.ToResponse's copy loop is a sequence comprehension.
- TaskHandler.ValidateCronExpression: its own contract states only which error it returns; the field-count rule is proved by CronAcceptsFiveOrSixWords.
- SecretFields.SealFields and SecretFields.OpenFields: their own contracts state only the length of the result; what they compute is proved by SealFieldsMeaning and OpenFieldsMeaning.
- Bitwarden.Client.Status, Login, Sync, Unlock and the other compound methods state of the log only that it grows by clean entries; the exact entry is stated on AddLog and RunBW.
- Pagination.OffsetFor: the offset in unbounded integers; what GetOffset returns is its 64-bit wrap, Offset64, and the offsets are never negative only while the product fits in int64.
- DestinationModel.MaskSensitiveField: lengths and slices count characters where Go's `len` and `s[:4]` count UTF-8 bytes, so the mask agrees with Go on ASCII values only; a non-ASCII secret such as "密码密" (9 bytes) becomes "****" here but keeps 8 of its bytes in Go.
- DatabaseResponse.MaskSensitive: the same character-for-byte simplification as MaskSensitiveField, so it agrees with Go on ASCII values only.
- The parsed body of a failed reply is always an object, and its `error` a scalar or an array of strings: a `null` body, which would make `data.error` throw a TypeError, and an object-valued `error`, which prints as "[object Object]", cannot be expressed. The backend only ever sends `{"error": <string>}`.
- Front-end routing, build and styling, cmd/server/main.go and the handler wiring.

## Findings

| source | as written | input that shows it | evidently intended | confidence | as-written member | corrected member |
|---|---|---|---|---|---|---|
| internal/model/pagination.go:10-29 | list queries call GetOffset before GetLimit, so the offset uses the uncapped page size and the limit the capped one | page=2, page_size=500: offset 500, limit 100, so rows 100..499 are never listed | offset and limit both use the capped size, so pages tile the rows | high, not executed | Pagination.WindowAsWrittenSkipsRows | Pagination.WindowPagesAreContiguous |
| internal/webdav/upload.go:117-123 | the self-entry test `HasSuffix(href, requestPath)` is true for every href when the request path is empty | a WebDAV destination whose path is "/" or "": ListFiles returns no files, so retention never deletes anything | at the root, only the collection itself (an empty href) is skipped | high, not executed | WebDAV.RootListingIsEmptyAsWritten | WebDAV.CorrectedRootListingKeepsFiles |
