/**
 * internal/database/migrate.go: the one-off migration that encrypts credentials
 * stored in plain text before field encryption existed. Records are loaded with
 * the hooks skipped, migrated in place in the loaded slice, and saved back one by
 * one. The database is abstract: the loaded records are the arrays, and whether
 * the save of the record at a given index fails is an input.
 */
module Migrate {
  import opened Wrappers
  import opened Strings
  import opened Crypto
  import ServerModel
  import DestinationModel

  predicate IsBase64Char(c: char) {
    ('A' <= c <= 'Z') || ('a' <= c <= 'z') || ('0' <= c <= '9') || c == '+' || c == '/'
  }

  /** base64.StdEncoding ignores carriage returns and line feeds anywhere in its input. */
  function StripNewlines(s: string): (r: string)
    ensures |r| <= |s|
    ensures forall c :: c in r <==> c in s && c != '\r' && c != '\n'
  {
    if s == [] then []
    else if s[0] == '\r' || s[0] == '\n' then StripNewlines(s[1..])
    else [s[0]] + StripNewlines(s[1..])
  }

  /** The final group of four: two data characters, then a third and fourth or '=' padding. */
  predicate LastGroupOk(g: string)
    requires |g| == 4
  {
    IsBase64Char(g[0]) && IsBase64Char(g[1])
    && ((IsBase64Char(g[2]) && (IsBase64Char(g[3]) || g[3] == '=')) || (g[2] == '=' && g[3] == '='))
  }

  /** Whole groups of four base64 characters, of which only the last may carry padding. */
  predicate ValidGroups(t: string)
    decreases |t|
  {
    if t == [] then true
    else if |t| < 4 then false
    else if |t| == 4 then LastGroupOk(t)
    else
      IsBase64Char(t[0]) && IsBase64Char(t[1]) && IsBase64Char(t[2]) && IsBase64Char(t[3])
      && ValidGroups(t[4..])
  }

  /** base64.StdEncoding.DecodeString(s) succeeds: line breaks aside, the text is padded groups of four. */
  predicate ValidStdBase64(s: string) {
    ValidGroups(StripNewlines(s))
  }

  /** No valid group sequence contains a character outside the alphabet other than '='. */
  lemma {:induction false} ValidGroupsAlphabet(t: string, c: char)
    requires ValidGroups(t) && c in t
    ensures IsBase64Char(c) || c == '='
    decreases |t|
  {
    if |t| > 4 {
      var i :| 0 <= i < |t| && t[i] == c;
      if i >= 4 {
        assert t[4..][i - 4] == c;
        ValidGroupsAlphabet(t[4..], c);
      }
    }
  }

  /** isEncrypted: valid standard base64 and longer than 50 bytes. */
  predicate LooksEncrypted(s: string) {
    ValidStdBase64(s) && |s| > 50
  }

  /** A value with the "enc:v1:" prefix is never judged encrypted: ':' is not base64. */
  lemma PrefixedNeverLooksEncrypted(s: string)
    requires IsEncrypted(s)
    ensures !LooksEncrypted(s)
  {
    assert s[..|EncryptedPrefix|] == EncryptedPrefix;
    assert s[3] == ':';
    assert ':' in s;
    var t := StripNewlines(s);
    assert ':' in t;
    if ValidGroups(t) {
      ValidGroupsAlphabet(t, ':');
    }
  }

  /** Hence every value Encrypt wrote is encrypted again by another pass: the migration is not idempotent. */
  lemma SecondPassEncryptsAgain(kr: Keyring, plaintext: string)
    requires plaintext != "" && Encrypt(kr, plaintext).Ok?
    ensures NeedsMigration(Encrypt(kr, plaintext).value)
  {
    PrefixedNeverLooksEncrypted(Encrypt(kr, plaintext).value);
  }

  /** The migration's guard: non-empty and not already looking encrypted. */
  predicate NeedsMigration(v: string) {
    v != "" && !LooksEncrypted(v)
  }

  datatype MigrationError =
    | EncryptFailed(field: string, record: nat, cause: CryptoError)   // "failed to encrypt <field> for ... <id>"
    | SaveFailed(record: nat)                                        // "failed to save ... <id>"
    | ServerConfigs(inner: MigrationError)                           // "failed to migrate server configs"
    | BackupDestinations(inner: MigrationError)                      // "failed to migrate backup destinations"

  /** One `if v != "" && !isEncrypted(v)` block: encrypt the value or keep it. */
  function MigrateField(kr: Keyring, v: string): (r: Result<string, CryptoError>)
    ensures !NeedsMigration(v) ==> r == Ok(v)
    ensures NeedsMigration(v) ==> r == Encrypt(kr, v)
  {
    if NeedsMigration(v) then Encrypt(kr, v) else Ok(v)
  }

  /** One record after the loop body's guarded blocks: as left in the slice, the error, whether it must be saved, its ID. */
  datatype Step<T> = Step(record: T, err: Option<MigrationError>, needsUpdate: bool, id: nat)

  /** The field part of migrateServerConfigs' loop body for one record. */
  function MigrateServer(kr: Keyring, s: ServerModel.ServerConfig): (r: Step<ServerModel.ServerConfig>)
    ensures r.id == s.id
  {
    var e1 := MigrateField(kr, s.clientID);
    if e1.Err? then Step(s, Some(EncryptFailed("ClientID", s.id, e1.error)), false, s.id)
    else
      var s2 := s.(clientID := e1.value);
      var e2 := MigrateField(kr, s.clientSecret);
      if e2.Err? then Step(s2, Some(EncryptFailed("ClientSecret", s.id, e2.error)), false, s.id)
      else
        var s3 := s2.(clientSecret := e2.value);
        var e3 := MigrateField(kr, s.masterPassword);
        if e3.Err? then Step(s3, Some(EncryptFailed("MasterPassword", s.id, e3.error)), false, s.id)
        else
          Step(s3.(masterPassword := e3.value), None,
            NeedsMigration(s.clientID) || NeedsMigration(s.clientSecret) || NeedsMigration(s.masterPassword), s.id)
  }

  /**
   * A server migrated without error has each credential encrypted iff it needed
   * it, is saved iff one of them did, and keeps every other field; an error names the server.
   */
  lemma MigrateServerMeaning(kr: Keyring, s: ServerModel.ServerConfig)
    ensures var r := MigrateServer(kr, s);
      && (r.err.None? ==> (r.needsUpdate <==>
        NeedsMigration(s.clientID) || NeedsMigration(s.clientSecret) || NeedsMigration(s.masterPassword)))
      && (r.err.None? ==> (MigrateField(kr, s.clientID) == Ok(r.record.clientID)
        && MigrateField(kr, s.clientSecret) == Ok(r.record.clientSecret)
        && MigrateField(kr, s.masterPassword) == Ok(r.record.masterPassword)))
      && ServerModel.SameExceptCredentials(r.record, s)
      && (r.err.Some? ==> r.err.value.EncryptFailed? && r.err.value.record == s.id)
  {
  }

  function ServerStepFn(kr: Keyring): ServerModel.ServerConfig -> Step<ServerModel.ServerConfig> {
    s => MigrateServer(kr, s)
  }

  /** The three guarded blocks of migrateServerConfigs' loop body, on the loaded record. */
  method MigrateServerFields(kr: Keyring, s: ServerModel.ServerConfig)
    returns (server: ServerModel.ServerConfig, err: Option<MigrationError>, needsUpdate: bool)
    ensures Step(server, err, needsUpdate, s.id) == MigrateServer(kr, s)
  {
    server := s;
    needsUpdate := false;
    err := None;
    if server.clientID != "" && !LooksEncrypted(server.clientID) {
      var e := Encrypt(kr, server.clientID);
      if e.Err? {
        err, needsUpdate := Some(EncryptFailed("ClientID", server.id, e.error)), false;
        return;
      }
      server := server.(clientID := e.value);
      needsUpdate := true;
    }
    if server.clientSecret != "" && !LooksEncrypted(server.clientSecret) {
      var e := Encrypt(kr, server.clientSecret);
      if e.Err? {
        err, needsUpdate := Some(EncryptFailed("ClientSecret", server.id, e.error)), false;
        return;
      }
      server := server.(clientSecret := e.value);
      needsUpdate := true;
    }
    if server.masterPassword != "" && !LooksEncrypted(server.masterPassword) {
      var e := Encrypt(kr, server.masterPassword);
      if e.Err? {
        err, needsUpdate := Some(EncryptFailed("MasterPassword", server.id, e.error)), false;
        return;
      }
      server := server.(masterPassword := e.value);
      needsUpdate := true;
    }
  }

  /** The field part of migrateBackupDestinations' loop body: only the WebDAV password is migrated. */
  function MigrateDestination(kr: Keyring, d: DestinationModel.BackupDestination): (r: Step<DestinationModel.BackupDestination>)
    ensures r.id == d.id
    ensures r.err.None? ==> (r.needsUpdate <==> NeedsMigration(d.webdavPassword))
    ensures r.err.None? ==> MigrateField(kr, d.webdavPassword) == Ok(r.record.webdavPassword)
    ensures r.record == d.(webdavPassword := r.record.webdavPassword)
    ensures r.err.Some? ==> r.err.value.EncryptFailed? && r.err.value.record == d.id
  {
    var e := MigrateField(kr, d.webdavPassword);
    if e.Err? then Step(d, Some(EncryptFailed("WebDAVPassword", d.id, e.error)), false, d.id)
    else Step(d.(webdavPassword := e.value), None, NeedsMigration(d.webdavPassword), d.id)
  }

  /** The guarded block of migrateBackupDestinations' loop body, on the loaded record. */
  method MigrateDestinationFields(kr: Keyring, d: DestinationModel.BackupDestination)
    returns (dest: DestinationModel.BackupDestination, err: Option<MigrationError>, needsUpdate: bool)
    ensures Step(dest, err, needsUpdate, d.id) == MigrateDestination(kr, d)
  {
    dest := d;
    needsUpdate := false;
    err := None;
    if dest.webdavPassword != "" && !LooksEncrypted(dest.webdavPassword) {
      var e := Encrypt(kr, dest.webdavPassword);
      if e.Err? {
        err := Some(EncryptFailed("WebDAVPassword", dest.id, e.error));
        return;
      }
      dest := dest.(webdavPassword := e.value);
      needsUpdate := true;
    }
  }

  function DestinationStepFn(kr: Keyring): DestinationModel.BackupDestination -> Step<DestinationModel.BackupDestination> {
    d => MigrateDestination(kr, d)
  }

  /** The slice, the indices saved so far in order, and the error that ended the loop. */
  datatype Progress<T> = Progress(records: seq<T>, saved: seq<nat>, err: Option<MigrationError>)

  /** A migration loop over the first n loaded records, or up to the record that failed. */
  function MigrateAll<T>(step: T -> Step<T>, ss: seq<T>, saveFails: nat -> bool, n: nat): (r: Progress<T>)
    requires n <= |ss|
    ensures |r.records| == |ss|
  {
    if n == 0 then Progress(ss, [], None)
    else
      var p := MigrateAll(step, ss, saveFails, n - 1);
      if p.err.Some? then p
      else
        var st := step(p.records[n - 1]);
        var records := p.records[n - 1 := st.record];
        if st.err.Some? then Progress(records, p.saved, st.err)
        else if st.needsUpdate && saveFails(n - 1) then Progress(records, p.saved, Some(SaveFailed(st.id)))
        else if st.needsUpdate then Progress(records, p.saved + [n - 1], None)
        else Progress(records, p.saved, None)
  }

  /** Before record n is processed it is still as loaded. */
  lemma {:induction false} MigrateAllUnchangedAfter<T>(step: T -> Step<T>, ss: seq<T>, saveFails: nat -> bool, n: nat)
    requires n <= |ss|
    ensures forall j :: n <= j < |ss| ==> MigrateAll(step, ss, saveFails, n).records[j] == ss[j]
  {
    if n > 0 {
      MigrateAllUnchangedAfter(step, ss, saveFails, n - 1);
    }
  }

  /** One more iteration of a loop that has not failed yet, on the record as loaded. */
  lemma MigrateAllNext<T>(step: T -> Step<T>, ss: seq<T>, saveFails: nat -> bool, i: nat)
    requires i < |ss| && MigrateAll(step, ss, saveFails, i).err.None?
    ensures var p := MigrateAll(step, ss, saveFails, i);
      var st := step(ss[i]);
      var records := p.records[i := st.record];
      MigrateAll(step, ss, saveFails, i + 1) ==
        if st.err.Some? then Progress(records, p.saved, st.err)
        else if st.needsUpdate && saveFails(i) then Progress(records, p.saved, Some(SaveFailed(st.id)))
        else if st.needsUpdate then Progress(records, p.saved + [i], None)
        else Progress(records, p.saved, None)
  {
    MigrateAllUnchangedAfter(step, ss, saveFails, i);
  }

  /** The loop's view of one more iteration: the record it reads is still as loaded, and the step decides the next state. */
  lemma MigrateAllAdvance<T>(step: T -> Step<T>, ss: seq<T>, saveFails: nat -> bool, i: nat, records: seq<T>, saved: seq<nat>)
    requires i < |ss| && MigrateAll(step, ss, saveFails, i) == Progress(records, saved, None)
    ensures records[i] == ss[i]
    ensures var st := step(ss[i]);
      MigrateAll(step, ss, saveFails, i + 1) ==
        if st.err.Some? then Progress(records[i := st.record], saved, st.err)
        else if st.needsUpdate && saveFails(i) then Progress(records[i := st.record], saved, Some(SaveFailed(st.id)))
        else if st.needsUpdate then Progress(records[i := st.record], saved + [i], None)
        else Progress(records[i := st.record], saved, None)
  {
    MigrateAllUnchangedAfter(step, ss, saveFails, i);
    MigrateAllNext(step, ss, saveFails, i);
  }

  /** Once a record has failed, processing further records changes nothing. */
  lemma {:induction false} MigrateAllStopped<T>(step: T -> Step<T>, ss: seq<T>, saveFails: nat -> bool, m: nat, n: nat)
    requires m <= n <= |ss| && MigrateAll(step, ss, saveFails, m).err.Some?
    ensures MigrateAll(step, ss, saveFails, n) == MigrateAll(step, ss, saveFails, m)
    decreases n - m
  {
    if m < n {
      MigrateAllStopped(step, ss, saveFails, m, n - 1);
    }
  }

  /** The indices among the first n whose record had something to encrypt, in order. */
  function NeedingUpdate<T>(step: T -> Step<T>, ss: seq<T>, n: nat): (r: seq<nat>)
    requires n <= |ss|
    ensures forall j :: 0 <= j < |r| ==> r[j] < n && step(ss[r[j]]).needsUpdate
  {
    if n == 0 then []
    else NeedingUpdate(step, ss, n - 1) + (if step(ss[n - 1]).needsUpdate then [n - 1] else [])
  }

  /**
   * A loop that ended without error left every record as its step computed it
   * and saved exactly the records that had something to encrypt, in order.
   */
  lemma {:induction false} MigrateAllSavesExactlyUpdated<T>(step: T -> Step<T>, ss: seq<T>, saveFails: nat -> bool, n: nat)
    requires n <= |ss| && MigrateAll(step, ss, saveFails, n).err.None?
    ensures forall j :: 0 <= j < n ==> step(ss[j]).err.None? && MigrateAll(step, ss, saveFails, n).records[j] == step(ss[j]).record
    ensures MigrateAll(step, ss, saveFails, n).saved == NeedingUpdate(step, ss, n)
  {
    if n > 0 {
      MigrateAllSavesExactlyUpdated(step, ss, saveFails, n - 1);
      MigrateAllUnchangedAfter(step, ss, saveFails, n - 1);
    }
  }

  /**
   * The end of one iteration of either migration loop: the migrated record is
   * stored; its error stops the loop; otherwise a changed record is saved, and
   * a failed save stops the loop.
   */
  method FinishIteration<T>(a: array<T>, i: nat, r: T, e: Option<MigrationError>, needsUpdate: bool, id: nat,
                            saveFails: nat -> bool, ghost step: T -> Step<T>, ghost orig: seq<T>, saved: seq<nat>)
    returns (err: Option<MigrationError>, newSaved: seq<nat>)
    requires i < a.Length == |orig|
    requires MigrateAll(step, orig, saveFails, i) == Progress(a[..], saved, None)
    requires step(orig[i]) == Step(r, e, needsUpdate, id)
    modifies a
    ensures err.Some? ==> MigrateAll(step, orig, saveFails, |orig|) == Progress(a[..], newSaved, err)
    ensures err.None? ==> MigrateAll(step, orig, saveFails, i + 1) == Progress(a[..], newSaved, None)
  {
    MigrateAllAdvance(step, orig, saveFails, i, a[..], saved);
    ghost var before := a[..];
    a[i] := r;
    assert a[..] == before[i := r];
    newSaved := saved;
    err := None;
    if e.Some? {
      err := e;
      MigrateAllStopped(step, orig, saveFails, i + 1, |orig|);
    } else if needsUpdate {
      if saveFails(i) {
        err := Some(SaveFailed(id));
        MigrateAllStopped(step, orig, saveFails, i + 1, |orig|);
      } else {
        newSaved := saved + [i];
      }
    }
  }

  /** One iteration of the loop below: the record at i is migrated and stored, then saved when it changed. */
  method MigrateServerAt(kr: Keyring, servers: array<ServerModel.ServerConfig>, i: nat, saveFails: nat -> bool, ghost orig: seq<ServerModel.ServerConfig>, saved: seq<nat>)
    returns (err: Option<MigrationError>, newSaved: seq<nat>)
    requires i < servers.Length == |orig|
    requires MigrateAll(ServerStepFn(kr), orig, saveFails, i) == Progress(servers[..], saved, None)
    modifies servers
    ensures err.Some? ==> MigrateAll(ServerStepFn(kr), orig, saveFails, |orig|) == Progress(servers[..], newSaved, err)
    ensures err.None? ==> MigrateAll(ServerStepFn(kr), orig, saveFails, i + 1) == Progress(servers[..], newSaved, None)
  {
    MigrateAllUnchangedAfter(ServerStepFn(kr), orig, saveFails, i);
    var server, e, needsUpdate := MigrateServerFields(kr, servers[i]);
    err, newSaved := FinishIteration(servers, i, server, e, needsUpdate, server.id, saveFails, ServerStepFn(kr), orig, saved);
  }

  /** migrateServerConfigs: migrates the loaded servers in place; the first encryption or save error aborts. */
  method MigrateServerConfigs(kr: Keyring, servers: array<ServerModel.ServerConfig>, saveFails: nat -> bool)
    returns (err: Option<MigrationError>, saved: seq<nat>)
    modifies servers
    ensures var p := MigrateAll(ServerStepFn(kr), old(servers[..]), saveFails, servers.Length);
      servers[..] == p.records && saved == p.saved && err == p.err
  {
    ghost var orig := servers[..];
    ghost var step := ServerStepFn(kr);
    saved := [];
    var i := 0;
    while i < servers.Length
      invariant 0 <= i <= servers.Length
      invariant MigrateAll(step, orig, saveFails, i) == Progress(servers[..], saved, None)
    {
      err, saved := MigrateServerAt(kr, servers, i, saveFails, orig, saved);
      if err.Some? {
        return;
      }
      i := i + 1;
    }
    err := None;
  }

  /** One iteration of the loop below: the record at i is migrated and stored, then saved when it changed. */
  method MigrateDestinationAt(kr: Keyring, dests: array<DestinationModel.BackupDestination>, i: nat, saveFails: nat -> bool, ghost orig: seq<DestinationModel.BackupDestination>, saved: seq<nat>)
    returns (err: Option<MigrationError>, newSaved: seq<nat>)
    requires i < dests.Length == |orig|
    requires MigrateAll(DestinationStepFn(kr), orig, saveFails, i) == Progress(dests[..], saved, None)
    modifies dests
    ensures err.Some? ==> MigrateAll(DestinationStepFn(kr), orig, saveFails, |orig|) == Progress(dests[..], newSaved, err)
    ensures err.None? ==> MigrateAll(DestinationStepFn(kr), orig, saveFails, i + 1) == Progress(dests[..], newSaved, None)
  {
    MigrateAllUnchangedAfter(DestinationStepFn(kr), orig, saveFails, i);
    var dest, e, needsUpdate := MigrateDestinationFields(kr, dests[i]);
    err, newSaved := FinishIteration(dests, i, dest, e, needsUpdate, dest.id, saveFails, DestinationStepFn(kr), orig, saved);
  }

  /** migrateBackupDestinations: migrates the loaded destinations' WebDAV passwords in place. */
  method MigrateBackupDestinations(kr: Keyring, dests: array<DestinationModel.BackupDestination>, saveFails: nat -> bool)
    returns (err: Option<MigrationError>, saved: seq<nat>)
    modifies dests
    ensures var p := MigrateAll(DestinationStepFn(kr), old(dests[..]), saveFails, dests.Length);
      dests[..] == p.records && saved == p.saved && err == p.err
  {
    ghost var orig := dests[..];
    ghost var step := DestinationStepFn(kr);
    saved := [];
    var i := 0;
    while i < dests.Length
      invariant 0 <= i <= dests.Length
      invariant MigrateAll(step, orig, saveFails, i) == Progress(dests[..], saved, None)
    {
      err, saved := MigrateDestinationAt(kr, dests, i, saveFails, orig, saved);
      if err.Some? {
        return;
      }
      i := i + 1;
    }
    err := None;
  }

  /**
   * MigrateEncryptExistingData: servers first, then destinations; an error in the
   * first phase is wrapped and returned before any destination is touched.
   */
  method MigrateEncryptExistingData(kr: Keyring, servers: array<ServerModel.ServerConfig>,
                                    dests: array<DestinationModel.BackupDestination>,
                                    serverSaveFails: nat -> bool, destSaveFails: nat -> bool)
    returns (err: Option<MigrationError>)
    modifies servers, dests
    ensures var ps := MigrateAll(ServerStepFn(kr), old(servers[..]), serverSaveFails, servers.Length);
      servers[..] == ps.records
      && (ps.err.Some? ==> err == Some(ServerConfigs(ps.err.value)) && dests[..] == old(dests[..]))
    ensures var ps := MigrateAll(ServerStepFn(kr), old(servers[..]), serverSaveFails, servers.Length);
      var pd := MigrateAll(DestinationStepFn(kr), old(dests[..]), destSaveFails, dests.Length);
      ps.err.None? ==> (dests[..] == pd.records
        && err == (if pd.err.Some? then Some(BackupDestinations(pd.err.value)) else None))
  {
    var e, _ := MigrateServerConfigs(kr, servers, serverSaveFails);
    if e.Some? {
      return Some(ServerConfigs(e.value));
    }
    var e2, _ := MigrateBackupDestinations(kr, dests, destSaveFails);
    if e2.Some? {
      return Some(BackupDestinations(e2.value));
    }
    return None;
  }
}
