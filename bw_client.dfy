/**
 * The Bitwarden CLI client: a session token and an "unlocked" flag moved by
 * Unlock and Logout and guarding Export and Import, plus the execution log
 * every command writes to.
 *
 * Running `bw` is outside the model: each operation receives the outcome of
 * every CLI run it makes as a `CliRun` (stdout, stderr, exit code and
 * whether the run reported an error), the elapsed milliseconds it logs and the
 * timestamp it stamps log entries with.
 */
module Bitwarden {
  import opened Wrappers
  import opened Strings
  import opened BitwardenText
  import opened LogModel

  /** What one run of the `bw` binary produced; `ok` is false when the run returned an error. */
  datatype CliRun = CliRun(stdout: string, stderr: string, exitCode: int, ok: bool)

  datatype BwError =
    | NotUnlocked                          // "vault is not unlocked, please unlock first"
    | OutputDirFailed                      // "failed to create output directory"
    | Unauthenticated                      // "bw status is unauthenticated; login required before unlock"
    | NotLoggedIn(msg: string)             // ErrNotLoggedIn: the login state must be rebuilt
    | CommandFailed(command: string, exitCode: int)
    | EmptySessionToken(exitCode: int, stdout: string, stderr: string)
    | StatusFailed(exitCode: int)
    | StatusUnparsable
    | StatusEmpty

  /** A message the log may hold: non-empty and without a 64-character token-like run. */
  predicate CleanMessage(m: string) {
    m != "" && NoLongToken(m)
  }

  /** The log after AddLog(message): one sanitised entry more, or none when nothing is left. */
  function Logged(logs: seq<LogEntry>, now: string, message: string): seq<LogEntry> {
    var m := Sanitized(message);
    if m == "" then logs else logs + [LogEntry(now, m)]
  }

  /** AddLog only ever appends, at most one entry, and that entry is clean. */
  lemma LoggedAppendsClean(logs: seq<LogEntry>, now: string, message: string)
    ensures logs <= Logged(logs, now, message)
    ensures |logs| <= |Logged(logs, now, message)| <= |logs| + 1
    ensures forall k :: |logs| <= k < |Logged(logs, now, message)| ==> CleanMessage(Logged(logs, now, message)[k].message)
  {
    SanitizedHidesTokens(message);
  }

  /** Every entry of `entries` holds a clean message. */
  predicate AllClean(entries: seq<LogEntry>) {
    entries == [] || (AllClean(entries[..|entries| - 1]) && CleanMessage(entries[|entries| - 1].message))
  }

  /** The log after AddLog of a clean log is clean. */
  lemma LoggedKeepsClean(logs: seq<LogEntry>, now: string, message: string)
    requires AllClean(logs)
    ensures AllClean(Logged(logs, now, message))
  {
    SanitizedHidesTokens(message);
    var r := Logged(logs, now, message);
    if r != logs {
      assert r[..|r| - 1] == logs;
    }
  }

  /** A message made only of a one-line password prompt leaves the log as it was. */
  lemma PromptIsNotLogged(logs: seq<LogEntry>, now: string, message: string)
    requires Esc !in message && '\n' !in message && IsPromptLine(message)
    ensures Logged(logs, now, message) == logs
  {
    SanitizedDropsPrompt(message);
  }

  /** The log line of one CLI run, with the arguments redacted. */
  function RunMessage(args: seq<string>, exitCode: int, ms: nat): string {
    "bw " + Join(Redacted(args), " ") + " (exit=" + IntToString(exitCode) + ", " + IntToString(ms) + "ms)"
  }

  /** The part of Status after the CLI run: the parsed `status` field, or why there is none. */
  function StatusOf(run: CliRun, decode: string -> Option<string>): (r: Result<string, BwError>)
    ensures r.Ok? <==> run.ok && decode(TrimSpace(run.stdout)).Some? && decode(TrimSpace(run.stdout)).value != ""
    ensures r.Ok? ==> r.value == decode(TrimSpace(run.stdout)).value
    ensures !run.ok ==> r == Err(StatusFailed(run.exitCode))
  {
    if !run.ok then Err(StatusFailed(run.exitCode))
    else match decode(TrimSpace(run.stdout))
      case None => Err(StatusUnparsable)
      case Some(st) => if st == "" then Err(StatusEmpty) else Ok(st)
  }

  /** The arguments of an export: the fixed part, then the session, then the password. */
  function ExportArgs(outputPath: string, format: string, token: string, password: seq<string>): (r: seq<string>)
    ensures |r| == 5 + (if token != "" then 2 else 0) + (if |password| > 0 && password[0] != "" then 2 else 0)
    ensures r[..5] == ["export", "--output", outputPath, "--format", format]
  {
    ["export", "--output", outputPath, "--format", format]
    + (if token != "" then ["--session", token] else [])
    + (if |password| > 0 && password[0] != "" then ["--password", password[0]] else [])
  }

  /** The arguments of an import: the fixed part, then the session. */
  function ImportArgs(inputPath: string, format: string, token: string): (r: seq<string>)
    ensures |r| == 3 + (if token != "" then 2 else 0)
    ensures r[..3] == ["import", format, inputPath]
  {
    ["import", format, inputPath] + (if token != "" then ["--session", token] else [])
  }

  /** An argument the redaction scan leaves alone and does not treat as a flag. */
  predicate PlainArg(a: string) {
    !IsSecretFlag(a) && !HasPrefix(a, "--session=") && !HasPrefix(a, "--password=")
  }

  lemma RedactedPlain(a: string, rest: seq<string>)
    requires PlainArg(a)
    ensures Redacted([a] + rest) == [a] + Redacted(rest)
  {
    assert ([a] + rest)[1..] == rest;
  }

  lemma RedactedFlag(f: string, v: string, rest: seq<string>)
    requires IsSecretFlag(f)
    ensures Redacted([f, v] + rest) == [f, "***"] + Redacted(rest)
  {
    assert ([f, v] + rest)[2..] == rest;
  }

  /** Redaction leaves a run of plain arguments in front as it is. */
  lemma {:induction false} RedactedPlainPrefix(front: seq<string>, rest: seq<string>)
    requires forall k :: 0 <= k < |front| ==> PlainArg(front[k])
    ensures Redacted(front + rest) == front + Redacted(rest)
    decreases |front|, 1
  {
    if front != [] {
      assert front == [front[0]] + front[1..];
      RedactedPlainCons(front[0], front[1..], rest);
    } else {
      assert front + rest == rest;
    }
  }

  lemma {:induction false} RedactedPlainCons(x: string, t: seq<string>, rest: seq<string>)
    requires PlainArg(x) && forall k :: 0 <= k < |t| ==> PlainArg(t[k])
    ensures Redacted([x] + t + rest) == [x] + t + Redacted(rest)
    decreases |t| + 1, 0
  {
    RedactedPlainPrefix(t, rest);
    RedactedPlain(x, t + rest);
    assert [x] + t + rest == [x] + (t + rest);
    assert [x] + t + Redacted(rest) == [x] + (t + Redacted(rest));
  }

  /** The optional `--session` / `--password` pairs of a command, redacted. */
  lemma RedactedOptionalPair(flag: string, v: string, present: bool, rest: seq<string>)
    requires IsSecretFlag(flag)
    ensures Redacted((if present then [flag, v] else []) + rest)
      == (if present then [flag, "***"] else []) + Redacted(rest)
  {
    if present {
      RedactedFlag(flag, v, rest);
    } else {
      var none: seq<string> := [];
      assert none + rest == rest;
    }
  }

  /** The fixed words of an export command are not flags the redaction acts on. */
  lemma ExportFrontPlain(outputPath: string, format: string)
    requires PlainArg(outputPath) && PlainArg(format)
    ensures forall k :: 0 <= k < 5 ==> PlainArg(["export", "--output", outputPath, "--format", format][k])
  {
    assert "export"[0] != "--session"[0] && "export"[0] != "--password"[0];
    assert "--output"[2] != "--session"[2] && "--output"[2] != "--password"[2];
    assert "--format"[2] != "--session"[2] && "--format"[2] != "--password"[2];
  }

  /**
   * The logged form of an export command shows "***" where the session token
   * and the export password are, whatever they are.
   */
  lemma ExportArgsLoggedRedacted(outputPath: string, format: string, token: string, password: seq<string>)
    requires PlainArg(outputPath) && PlainArg(format)
    ensures Redacted(ExportArgs(outputPath, format, token, password)) ==
      ["export", "--output", outputPath, "--format", format]
      + (if token != "" then ["--session", "***"] else [])
      + (if |password| > 0 && password[0] != "" then ["--password", "***"] else [])
  {
    var front := ["export", "--output", outputPath, "--format", format];
    var hasPw := |password| > 0 && password[0] != "";
    var pwValue := if hasPw then password[0] else "";
    var session := if token != "" then ["--session", token] else [];
    var pw := if hasPw then ["--password", pwValue] else [];
    ExportFrontPlain(outputPath, format);
    RedactedPlainPrefix(front, session + pw);
    RedactedOptionalPair("--session", token, token != "", pw);
    RedactedOptionalPair("--password", pwValue, hasPw, []);
    assert pw + [] == pw;
    assert ExportArgs(outputPath, format, token, password) == front + (session + pw);
  }

  /** The logged form of an import command shows "***" in place of the session token. */
  lemma ImportArgsLoggedRedacted(inputPath: string, format: string, token: string)
    requires PlainArg(inputPath) && PlainArg(format)
    ensures Redacted(ImportArgs(inputPath, format, token)) ==
      ["import", format, inputPath] + (if token != "" then ["--session", "***"] else [])
  {
    var session := if token != "" then ["--session", token] else [];
    assert "import"[0] != "--session"[0] && "import"[0] != "--password"[0];
    RedactedPlainPrefix(["import", format, inputPath], session);
    RedactedOptionalPair("--session", token, token != "", []);
    assert session + [] == session;
  }

  /** The failure text of `bw unlock` that means the stored login is gone. */
  predicate SaysNotLoggedIn(stderr: string) {
    Contains(stderr, "not logged in") || Contains(stderr, "You are not logged in")
  }

  /** The error Unlock returns, from the first status probe, the unlock run and the second probe. */
  function UnlockError(pre: CliRun, run: CliRun, post: CliRun, decode: string -> Option<string>): Option<BwError> {
    if StatusOf(pre, decode) == Ok("unauthenticated") then Some(Unauthenticated)
    else if !run.ok then
      Some(if SaysNotLoggedIn(TrimSpace(run.stderr)) then NotLoggedIn("unlock failed: " + TrimSpace(run.stderr))
           else CommandFailed("unlock", run.exitCode))
    else if TrimSpace(run.stdout) != "" || StatusOf(post, decode) == Ok("unlocked") then None
    else Some(EmptySessionToken(run.exitCode, "", TrimSpace(run.stderr)))
  }

  /**
   * Unlock reports a lost login only for a failed unlock run whose stderr says so; a
   * failed or unparsable first probe does not stop the unlock.
   */
  lemma UnlockErrorNotLoggedIn(pre: CliRun, run: CliRun, post: CliRun, decode: string -> Option<string>)
    ensures (var e := UnlockError(pre, run, post, decode); e.Some? && e.value.NotLoggedIn?)
      <==> StatusOf(pre, decode) != Ok("unauthenticated") && !run.ok && SaysNotLoggedIn(TrimSpace(run.stderr))
    ensures StatusOf(pre, decode).Err? && run.ok && TrimSpace(run.stdout) != "" ==> UnlockError(pre, run, post, decode) == None
  {
  }

  class Client {
    var sessionToken: string
    var serverURL: string
    var vaultUnlocked: bool
    var logs: seq<LogEntry>

    /** NewClient: no session, locked, empty log. */
    constructor ()
      ensures sessionToken == "" && serverURL == "" && !vaultUnlocked && logs == []
    {
      sessionToken := "";
      serverURL := "";
      vaultUnlocked := false;
      logs := [];
    }

    /** Export and Import may run: a session token is held or the vault was found unlocked. */
    predicate MayUseVault()
      reads this
    {
      sessionToken != "" || vaultUnlocked
    }

    /** Every log entry is non-empty and free of long token-like runs. */
    predicate LogsClean()
      reads this
    {
      AllClean(logs)
    }

    /** AddLog: sanitise, and append only when something is left. */
    method AddLog(message: string, now: string)
      modifies this
      ensures logs == Logged(old(logs), now, message)
      ensures old(logs) <= logs
      ensures sessionToken == old(sessionToken) && vaultUnlocked == old(vaultUnlocked) && serverURL == old(serverURL)
      ensures old(LogsClean()) ==> LogsClean()
    {
      var clean := SanitizeBWOutput(message);
      LoggedAppendsClean(logs, now, message);
      if LogsClean() {
        LoggedKeepsClean(logs, now, message);
      }
      if clean == "" {
        return;
      }
      logs := logs + [LogEntry(now, clean)];
    }

    /** GetLogs: the entries in the order they were appended. */
    method GetLogs() returns (entries: seq<LogEntry>)
      ensures entries == logs
    {
      entries := logs;
    }

    /** ClearLogs: the log is emptied and nothing else changes. */
    method ClearLogs()
      modifies this
      ensures logs == [] && LogsClean()
      ensures sessionToken == old(sessionToken) && vaultUnlocked == old(vaultUnlocked) && serverURL == old(serverURL)
    {
      logs := [];
    }

    /**
     * AddLog as the CLI operations use it: the log only grows, by at most one
     * clean entry. (The exact entry is stated by AddLog itself.)
     */
    method Note(message: string, now: string)
      modifies this
      ensures old(logs) <= logs && |logs| <= |old(logs)| + 1
      ensures sessionToken == old(sessionToken) && vaultUnlocked == old(vaultUnlocked) && serverURL == old(serverURL)
      ensures old(LogsClean()) ==> LogsClean()
    {
      AddLog(message, now);
    }

    /** Note `prefix` + the trimmed `text`, only when the trimmed text is non-empty. */
    method NoteIfAny(prefix: string, text: string, now: string)
      modifies this
      ensures TrimSpace(text) == "" ==> logs == old(logs)
      ensures old(logs) <= logs && |logs| <= |old(logs)| + 1
      ensures sessionToken == old(sessionToken) && vaultUnlocked == old(vaultUnlocked) && serverURL == old(serverURL)
      ensures old(LogsClean()) ==> LogsClean()
    {
      if TrimSpace(text) != "" {
        Note(prefix + TrimSpace(text), now);
      }
    }

    /** runBW: the run is logged once, with its arguments redacted. */
    method RunBW(args: seq<string>, run: CliRun, ms: nat, now: string) returns (r: CliRun)
      modifies this
      ensures r == run
      ensures logs == Logged(old(logs), now, RunMessage(args, run.exitCode, ms))
      ensures old(logs) <= logs
      ensures sessionToken == old(sessionToken) && vaultUnlocked == old(vaultUnlocked) && serverURL == old(serverURL)
      ensures old(LogsClean()) ==> LogsClean()
    {
      var redacted := RedactBWArgs(args);
      AddLog("bw " + Join(redacted, " ") + " (exit=" + IntToString(run.exitCode) + ", " + IntToString(ms) + "ms)", now);
      r := run;
    }

    /** runBW as the CLI operations use it: the outcome is returned and the log grows by at most one clean entry. */
    method Run(args: seq<string>, run: CliRun, ms: nat, now: string) returns (r: CliRun)
      modifies this
      ensures r == run
      ensures old(logs) <= logs && |logs| <= |old(logs)| + 1
      ensures sessionToken == old(sessionToken) && vaultUnlocked == old(vaultUnlocked) && serverURL == old(serverURL)
      ensures old(LogsClean()) ==> LogsClean()
    {
      r := RunBW(args, run, ms, now);
    }

    /** Status: run `bw status`, log its output, and read the `status` field of its JSON. */
    method Status(run: CliRun, decode: string -> Option<string>, ms: nat, now: string) returns (r: Result<string, BwError>)
      modifies this
      ensures r == StatusOf(run, decode)
      ensures old(logs) <= logs
      ensures sessionToken == old(sessionToken) && vaultUnlocked == old(vaultUnlocked) && serverURL == old(serverURL)
      ensures old(LogsClean()) ==> LogsClean()
    {
      var res := Run(["status"], run, ms, now);
      NoteIfAny("bw status stdout: ", res.stdout, now);
      NoteIfAny("bw status stderr: ", res.stderr, now);
      if !res.ok {
        return Err(StatusFailed(res.exitCode));
      }
      var parsed := decode(TrimSpace(res.stdout));
      if parsed.None? {
        return Err(StatusUnparsable);
      }
      if parsed.value == "" {
        return Err(StatusEmpty);
      }
      r := Ok(parsed.value);
    }

    /** ConfigServer: on success the server address is remembered. */
    method ConfigServer(url: string, run: CliRun, ms: nat, now: string) returns (err: Option<BwError>)
      modifies this
      ensures run.ok ==> err == None && serverURL == url
      ensures !run.ok ==> err == Some(CommandFailed("config server", run.exitCode)) && serverURL == old(serverURL)
      ensures sessionToken == old(sessionToken) && vaultUnlocked == old(vaultUnlocked)
      ensures old(logs) <= logs
      ensures old(LogsClean()) ==> LogsClean()
    {
      var res := Run(["config", "server", url], run, ms, now);
      if !res.ok {
        NoteIfAny("bw config server stdout: ", res.stdout, now);
        NoteIfAny("bw config server stderr: ", res.stderr, now);
        return Some(CommandFailed("config server", res.exitCode));
      }
      serverURL := url;
      err := None;
    }

    /** Login: the API key travels in the environment, so the logged command is `bw login --apikey`. */
    method Login(clientID: string, clientSecret: string, run: CliRun, ms: nat, now: string) returns (err: Option<BwError>)
      modifies this
      ensures run.ok <==> err == None
      ensures !run.ok ==> err == Some(CommandFailed("login", run.exitCode))
      ensures sessionToken == old(sessionToken) && vaultUnlocked == old(vaultUnlocked) && serverURL == old(serverURL)
      ensures old(logs) <= logs
      ensures old(LogsClean()) ==> LogsClean()
    {
      var res := Run(["login", "--apikey"], run, ms, now);
      if !res.ok {
        NoteIfAny("bw login stdout: ", res.stdout, now);
        NoteIfAny("bw login stderr: ", res.stderr, now);
        return Some(CommandFailed("login", res.exitCode));
      }
      err := None;
    }

    /** Sync: only the outcome of the run matters. */
    method Sync(run: CliRun, ms: nat, now: string) returns (err: Option<BwError>)
      modifies this
      ensures run.ok <==> err == None
      ensures !run.ok ==> err == Some(CommandFailed("sync", run.exitCode))
      ensures sessionToken == old(sessionToken) && vaultUnlocked == old(vaultUnlocked) && serverURL == old(serverURL)
      ensures old(logs) <= logs
      ensures old(LogsClean()) ==> LogsClean()
    {
      var res := Run(["sync"], run, ms, now);
      if !res.ok {
        NoteIfAny("bw sync stderr: ", res.stderr, now);
        return Some(CommandFailed("sync", res.exitCode));
      }
      err := None;
    }

    /**
     * Unlock. `pre` is the run of the status probe made first, `run` the
     * unlock itself and `post` the status probe made only when the unlock
     * printed no token.
     */
    method Unlock(masterPassword: string, pre: CliRun, run: CliRun, post: CliRun,
                  decode: string -> Option<string>, ms: nat, now: string) returns (err: Option<BwError>)
      modifies this
      // a successful probe reporting "unauthenticated" refuses before unlocking
      ensures StatusOf(pre, decode) == Ok("unauthenticated") ==>
        err == Some(Unauthenticated) && sessionToken == old(sessionToken) && vaultUnlocked == old(vaultUnlocked)
      // the unlock run failed: a lost login is told apart from other failures
      ensures StatusOf(pre, decode) != Ok("unauthenticated") && !run.ok ==>
        sessionToken == old(sessionToken) && vaultUnlocked == old(vaultUnlocked)
        && err == Some(if SaysNotLoggedIn(TrimSpace(run.stderr))
                       then NotLoggedIn("unlock failed: " + TrimSpace(run.stderr))
                       else CommandFailed("unlock", run.exitCode))
      // a token was printed: it becomes the session
      ensures StatusOf(pre, decode) != Ok("unauthenticated") && run.ok && TrimSpace(run.stdout) != "" ==>
        err == None && sessionToken == TrimSpace(run.stdout) && vaultUnlocked
      // no token: accepted only when a second probe finds the vault unlocked
      ensures StatusOf(pre, decode) != Ok("unauthenticated") && run.ok && TrimSpace(run.stdout) == "" ==>
        if StatusOf(post, decode) == Ok("unlocked") then err == None && sessionToken == "" && vaultUnlocked
        else err == Some(EmptySessionToken(run.exitCode, "", TrimSpace(run.stderr)))
             && sessionToken == old(sessionToken) && vaultUnlocked == old(vaultUnlocked)
      ensures err == UnlockError(pre, run, post, decode)
      ensures err == None ==> MayUseVault()
      ensures serverURL == old(serverURL)
      ensures old(logs) <= logs
      ensures old(LogsClean()) ==> LogsClean()
    {
      var status := Status(pre, decode, ms, now);
      if status == Ok("unauthenticated") {
        return Some(Unauthenticated);
      }
      err := UnlockRun(run, post, decode, ms, now);
    }

    /** Unlock after the status probe: run `bw unlock` and act on its output. */
    method UnlockRun(run: CliRun, post: CliRun, decode: string -> Option<string>, ms: nat, now: string)
      returns (err: Option<BwError>)
      modifies this
      ensures !run.ok ==>
        sessionToken == old(sessionToken) && vaultUnlocked == old(vaultUnlocked)
        && err == Some(if SaysNotLoggedIn(TrimSpace(run.stderr))
                       then NotLoggedIn("unlock failed: " + TrimSpace(run.stderr))
                       else CommandFailed("unlock", run.exitCode))
      ensures run.ok && TrimSpace(run.stdout) != "" ==>
        err == None && sessionToken == TrimSpace(run.stdout) && vaultUnlocked
      ensures run.ok && TrimSpace(run.stdout) == "" ==>
        if StatusOf(post, decode) == Ok("unlocked") then err == None && sessionToken == "" && vaultUnlocked
        else err == Some(EmptySessionToken(run.exitCode, "", TrimSpace(run.stderr)))
             && sessionToken == old(sessionToken) && vaultUnlocked == old(vaultUnlocked)
      ensures serverURL == old(serverURL)
      ensures old(logs) <= logs
      ensures old(LogsClean()) ==> LogsClean()
    {
      var res := Run(["unlock", "--raw", "--passwordenv", "BW_PASSWORD", "--nointeraction"], run, ms, now);
      NoteUnlockStderr(res.stderr, now);
      if !res.ok {
        err := UnlockFailed(res, now);
        return;
      }
      var token := TrimSpace(res.stdout);
      if token == "" {
        err := UnlockWithoutToken(res, post, decode, ms, now);
        return;
      }
      UnlockWithToken(token, now);
      err := None;
    }

    /** The unlock printed a token: it becomes the session and only its length is logged. */
    method UnlockWithToken(token: string, now: string)
      modifies this
      ensures sessionToken == token && vaultUnlocked && serverURL == old(serverURL)
      ensures old(logs) <= logs
      ensures old(LogsClean()) ==> LogsClean()
    {
      sessionToken := token;
      vaultUnlocked := true;
      Note("bw unlock ok (session token length=" + IntToString(|token|) + ")", now);
    }

    /** The stderr of `bw unlock`, trimmed and sanitised, is logged when anything is left of it. */
    method NoteUnlockStderr(stderrText: string, now: string)
      modifies this
      ensures sessionToken == old(sessionToken) && vaultUnlocked == old(vaultUnlocked) && serverURL == old(serverURL)
      ensures old(logs) <= logs
      ensures old(LogsClean()) ==> LogsClean()
    {
      var stderr := TrimSpace(stderrText);
      if stderr != "" {
        var cleanStderr := SanitizeBWOutput(stderr);
        if cleanStderr != "" {
          Note("bw unlock stderr: " + cleanStderr, now);
        }
      }
    }

    /** The unlock run failed: a lost login is told apart from any other failure. */
    method UnlockFailed(res: CliRun, now: string) returns (err: Option<BwError>)
      modifies this
      ensures err == Some(if SaysNotLoggedIn(TrimSpace(res.stderr))
                          then NotLoggedIn("unlock failed: " + TrimSpace(res.stderr))
                          else CommandFailed("unlock", res.exitCode))
      ensures sessionToken == old(sessionToken) && vaultUnlocked == old(vaultUnlocked) && serverURL == old(serverURL)
      ensures old(logs) <= logs
      ensures old(LogsClean()) ==> LogsClean()
    {
      NoteIfAny("bw unlock stdout: ", res.stdout, now);
      var stderr := TrimSpace(res.stderr);
      if SaysNotLoggedIn(stderr) {
        return Some(NotLoggedIn("unlock failed: " + stderr));
      }
      err := Some(CommandFailed("unlock", res.exitCode));
    }

    /** The unlock printed no token: accept only a vault a second probe finds unlocked. */
    method UnlockWithoutToken(res: CliRun, post: CliRun, decode: string -> Option<string>, ms: nat, now: string)
      returns (err: Option<BwError>)
      modifies this
      ensures if StatusOf(post, decode) == Ok("unlocked") then err == None && sessionToken == "" && vaultUnlocked
        else err == Some(EmptySessionToken(res.exitCode, "", TrimSpace(res.stderr)))
             && sessionToken == old(sessionToken) && vaultUnlocked == old(vaultUnlocked)
      ensures serverURL == old(serverURL)
      ensures old(logs) <= logs
      ensures old(LogsClean()) ==> LogsClean()
    {
      var second := Status(post, decode, ms, now);
      if second == Ok("unlocked") {
        vaultUnlocked := true;
        sessionToken := "";
        return None;
      }
      var stderr := TrimSpace(res.stderr);
      Note("ERROR: unlock returned empty session token (exit=" + IntToString(res.exitCode)
           + "); stdout= stderr=" + stderr, now);
      err := Some(EmptySessionToken(res.exitCode, "", stderr));
    }

    /**
     * Export. `outputDirOk` is whether the output directory could be created;
     * `ran` is the argument list given to `bw`, empty when nothing ran.
     */
    method Export(outputPath: string, format: string, password: seq<string>, outputDirOk: bool,
                  run: CliRun, ms: nat, now: string) returns (err: Option<BwError>, ran: seq<string>)
      modifies this
      ensures !old(MayUseVault()) ==> err == Some(NotUnlocked) && ran == [] && logs == old(logs)
      ensures old(MayUseVault()) && !outputDirOk ==> err == Some(OutputDirFailed) && ran == [] && logs == old(logs)
      ensures old(MayUseVault()) && outputDirOk ==>
        ran == ExportArgs(outputPath, format, sessionToken, password)
        && err == (if run.ok then None else Some(CommandFailed("export", run.exitCode)))
      ensures sessionToken == old(sessionToken) && vaultUnlocked == old(vaultUnlocked) && serverURL == old(serverURL)
      ensures old(logs) <= logs
      ensures old(LogsClean()) ==> LogsClean()
    {
      if sessionToken == "" && !vaultUnlocked {
        return Some(NotUnlocked), [];
      }
      if !outputDirOk {
        return Some(OutputDirFailed), [];
      }
      var args := ["export", "--output", outputPath, "--format", format];
      if sessionToken != "" {
        args := args + ["--session", sessionToken];
      }
      if |password| > 0 && password[0] != "" {
        args := args + ["--password", password[0]];
      }
      ran := args;
      var res := Run(args, run, ms, now);
      if !res.ok {
        NoteIfAny("bw export stdout: ", res.stdout, now);
        NoteIfAny("bw export stderr: ", res.stderr, now);
        return Some(CommandFailed("export", res.exitCode)), ran;
      }
      err := None;
    }

    /** Import: the same guard as Export; `ran` is the argument list given to `bw`. */
    method Import(inputPath: string, format: string, run: CliRun, ms: nat, now: string)
      returns (err: Option<BwError>, ran: seq<string>)
      modifies this
      ensures !old(MayUseVault()) ==> err == Some(NotUnlocked) && ran == [] && logs == old(logs)
      ensures old(MayUseVault()) ==>
        ran == ImportArgs(inputPath, format, sessionToken)
        && err == (if run.ok then None else Some(CommandFailed("import", run.exitCode)))
      ensures sessionToken == old(sessionToken) && vaultUnlocked == old(vaultUnlocked) && serverURL == old(serverURL)
      ensures old(logs) <= logs
      ensures old(LogsClean()) ==> LogsClean()
    {
      if sessionToken == "" && !vaultUnlocked {
        return Some(NotUnlocked), [];
      }
      var args := ["import", format, inputPath];
      if sessionToken != "" {
        args := args + ["--session", sessionToken];
      }
      ran := args;
      var res := Run(args, run, ms, now);
      if !res.ok {
        NoteIfAny("bw import stdout: ", res.stdout, now);
        NoteIfAny("bw import stderr: ", res.stderr, now);
        return Some(CommandFailed("import", res.exitCode)), ran;
      }
      err := None;
    }

    /** Logout: success, or the CLI saying there was no login, clears the session. */
    method Logout(run: CliRun, ms: nat, now: string) returns (err: Option<BwError>)
      modifies this
      ensures run.ok ==> err == None
      ensures !run.ok && Contains(TrimSpace(run.stderr), "You are not logged in") ==> err == None
      ensures !run.ok && !Contains(TrimSpace(run.stderr), "You are not logged in") ==>
        err == Some(CommandFailed("logout", run.exitCode))
        && sessionToken == old(sessionToken) && vaultUnlocked == old(vaultUnlocked)
      ensures err == None ==> sessionToken == "" && !vaultUnlocked && !MayUseVault()
      ensures serverURL == old(serverURL)
      ensures old(logs) <= logs
      ensures old(LogsClean()) ==> LogsClean()
    {
      var res := Run(["logout"], run, ms, now);
      if !res.ok {
        var stderr := TrimSpace(res.stderr);
        if Contains(stderr, "You are not logged in") {
          Note("bw logout: already logged out", now);
          sessionToken := "";
          vaultUnlocked := false;
          return None;
        }
        NoteIfAny("bw logout stdout: ", res.stdout, now);
        NoteIfAny("bw logout stderr: ", res.stderr, now);
        return Some(CommandFailed("logout", res.exitCode));
      }
      sessionToken := "";
      vaultUnlocked := false;
      err := None;
    }
  }

  /** A successful logout locks the vault: an export and an import made right after are both refused and run nothing. */
  method LogoutThenUseVault(c: Client, logoutRun: CliRun, exportRun: CliRun, importRun: CliRun,
                            path: string, format: string, ms: nat, now: string)
    returns (logoutErr: Option<BwError>, exportErr: Option<BwError>, exportRan: seq<string>,
             importErr: Option<BwError>, importRan: seq<string>)
    modifies c
    ensures logoutErr == None ==> exportErr == Some(NotUnlocked) && exportRan == []
    ensures logoutErr == None ==> importErr == Some(NotUnlocked) && importRan == []
  {
    logoutErr := c.Logout(logoutRun, ms, now);
    exportErr, exportRan := c.Export(path, format, [], true, exportRun, ms, now);
    importErr, importRan := c.Import(path, format, importRun, ms, now);
  }
}
