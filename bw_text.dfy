/**
 * The text transformations the Bitwarden CLI client applies before anything
 * reaches its execution log: removing ANSI colour sequences, dropping
 * password-prompt lines, masking long token-like runs, and redacting the
 * values of `--session` / `--password` in a logged command line.
 *
 * The three regular expressions of the client are written out as the
 * scanners they denote (leftmost-first, greedy, non-overlapping).
 */
module BitwardenText {
  import opened Strings

  // ---------------------------------------------------------------------
  // ANSI escape sequences: ESC '[' [0-9;]* [a-zA-Z]
  // ---------------------------------------------------------------------

  const Esc: char := '\U{001B}'

  predicate IsCsiParam(c: char) { ('0' <= c <= '9') || c == ';' }

  predicate IsAsciiLetter(c: char) { ('a' <= c <= 'z') || ('A' <= c <= 'Z') }

  /** Number of leading `[0-9;]` characters. */
  function ParamRun(s: string): (n: nat)
    ensures n <= |s|
    ensures n < |s| ==> !IsCsiParam(s[n])
  {
    if s != [] && IsCsiParam(s[0]) then 1 + ParamRun(s[1..]) else 0
  }

  /**
   * Length of the escape sequence at the start of `s`, 0 when none starts
   * there. The parameters and the final letter are disjoint classes, so
   * the greedy `[0-9;]*` has exactly one way to match.
   */
  function CsiLength(s: string): (n: nat)
    ensures n <= |s|
    ensures n > 0 ==> n >= 3 && s[0] == Esc && s[1] == '[' && IsAsciiLetter(s[n - 1])
  {
    if |s| >= 2 && s[0] == Esc && s[1] == '[' then
      var k := 2 + ParamRun(s[2..]);
      if k < |s| && IsAsciiLetter(s[k]) then k + 1 else 0
    else 0
  }

  /** stripANSI: every escape sequence found by a left-to-right scan is removed. */
  function StripAnsi(s: string): (r: string)
    ensures |r| <= |s|
    decreases |s|
  {
    if s == [] then []
    else
      var n := CsiLength(s);
      if n > 0 then StripAnsi(s[n..]) else [s[0]] + StripAnsi(s[1..])
  }

  /** Text without an escape character comes out unchanged. */
  lemma {:induction false} StripAnsiPlain(s: string)
    requires Esc !in s
    ensures StripAnsi(s) == s
  {
    if s != [] {
      assert s[0] in s;
      assert CsiLength(s) == 0;
      assert forall c :: c in s[1..] ==> c in s;
      StripAnsiPlain(s[1..]);
    }
  }

  /** A character other than Esc in front is kept, whatever follows it. */
  lemma StripAnsiKeepsPlainFront(x: char, rest: string)
    requires x != Esc
    ensures StripAnsi([x] + rest) == [x] + StripAnsi(rest)
  {
    var s := [x] + rest;
    assert s[1..] == rest;
    assert CsiLength(s) == 0;
  }

  /** A well-formed escape sequence in front of `rest` disappears entirely. */
  lemma StripAnsiDropsSequence(params: string, letter: char, rest: string)
    requires forall k :: 0 <= k < |params| ==> IsCsiParam(params[k])
    requires IsAsciiLetter(letter)
    ensures StripAnsi([Esc, '['] + params + [letter] + rest) == StripAnsi(rest)
  {
    var s := [Esc, '['] + params + [letter] + rest;
    assert s[2..] == params + ([letter] + rest);
    ParamRunOfParams(params, [letter] + rest);
    assert CsiLength(s) == |params| + 3;
    assert s[|params| + 3..] == rest;
  }

  lemma {:induction false} ParamRunOfParams(params: string, rest: string)
    requires forall k :: 0 <= k < |params| ==> IsCsiParam(params[k])
    requires rest != [] && !IsCsiParam(rest[0])
    ensures ParamRun(params + rest) == |params|
  {
    if params == [] {
      assert params + rest == rest;
    } else {
      assert (params + rest)[1..] == params[1..] + rest;
      ParamRunOfParams(params[1..], rest);
    }
  }

  // ---------------------------------------------------------------------
  // Password-prompt lines, matched case-insensitively anywhere in a line:
  //   master\s*password | password: | input\s+is\s+hidden | \[hidden\]
  //   | \[input\s+is\s+hidden\]
  // ---------------------------------------------------------------------

  /** The `\s` class of Go's regular expressions (RE2): no vertical tab. */
  predicate IsRegexSpace(c: char) {
    c == '\t' || c == '\n' || c == '\U{000C}' || c == '\r' || c == ' '
  }

  /** Drops the leading `\s` characters (the greedy `\s*`). */
  function SkipSpaces(t: string): (r: string)
    ensures |r| <= |t|
    ensures HasSuffix(t, r)
    decreases |t|
  {
    if t != [] && IsRegexSpace(t[0]) then SkipSpaces(t[1..]) else t
  }

  /** `\s+is\s+hidden` at the start of `t`. */
  predicate IsHiddenTail(t: string) {
    var u := SkipSpaces(t);
    |u| < |t| && HasPrefix(u, "is")
    && var v := SkipSpaces(u[2..]);
    |v| < |u[2..]| && HasPrefix(v, "hidden")
  }

  /** One of the prompt alternatives matches at the start of the lower-cased `t`. */
  predicate PromptAt(t: string) {
    (HasPrefix(t, "master") && HasPrefix(SkipSpaces(t[6..]), "password"))
    || HasPrefix(t, "password:")
    || (HasPrefix(t, "input") && IsHiddenTail(t[5..]))
    || HasPrefix(t, "[hidden]")
    || (HasPrefix(t, "[input") && IsHiddenTail(t[6..]) && HasPrefix(TrimmedHidden(t[6..]), "]"))
  }

  /** What follows `\s+is\s+hidden` at the start of `t`. */
  function TrimmedHidden(t: string): string
    requires IsHiddenTail(t)
  {
    SkipSpaces(SkipSpaces(t)[2..])[6..]
  }

  predicate PromptSomewhere(t: string) {
    PromptAt(t) || (t != [] && PromptSomewhere(t[1..]))
  }

  /** The sensitive-output pattern matches the line (case folded over ASCII). */
  predicate IsPromptLine(line: string) {
    PromptSomewhere(ToLowerAscii(line))
  }

  /** The lines that do not match the prompt pattern, in order. */
  function KeptLines(lines: seq<string>): (r: seq<string>)
    ensures |r| <= |lines|
    ensures forall k :: 0 <= k < |r| ==> !IsPromptLine(r[k])
  {
    if lines == [] then []
    else if IsPromptLine(lines[0]) then KeptLines(lines[1..])
    else [lines[0]] + KeptLines(lines[1..])
  }

  /** Dropping lines keeps the others and their order: nothing is dropped when no line matches. */
  lemma {:induction false} KeptLinesAllClean(lines: seq<string>)
    requires forall k :: 0 <= k < |lines| ==> !IsPromptLine(lines[k])
    ensures KeptLines(lines) == lines
  {
    if lines != [] {
      KeptLinesAllClean(lines[1..]);
    }
  }

  // ---------------------------------------------------------------------
  // Token-like runs: [a-zA-Z0-9+/]{64,} becomes "***".
  // ---------------------------------------------------------------------

  const MinTokenLength: nat := 64

  predicate IsTokenChar(c: char) {
    ('a' <= c <= 'z') || ('A' <= c <= 'Z') || ('0' <= c <= '9') || c == '+' || c == '/'
  }

  /** Length of the run of token characters at the start of `s`. */
  function TokenRun(s: string): (n: nat)
    ensures n <= |s|
    ensures n < |s| ==> !IsTokenChar(s[n])
  {
    if s != [] && IsTokenChar(s[0]) then 1 + TokenRun(s[1..]) else 0
  }

  /**
   * The token mask. A scan that fails at the start of a short run also fails
   * inside it (the rest of the run is shorter still), and a greedy match ends
   * where the run ends, so the scan amounts to: a maximal run of 64 or more
   * becomes "***", a shorter run is copied.
   */
  function MaskTokens(s: string): (r: string)
    decreases |s|
  {
    if s == [] then []
    else
      var n := TokenRun(s);
      if n >= MinTokenLength then "***" + MaskTokens(s[n..])
      else if n > 0 then s[..n] + MaskTokens(s[n..])
      else [s[0]] + MaskTokens(s[1..])
  }

  /** No position of `t` starts a run of 64 token characters. */
  predicate NoLongToken(t: string)
    decreases |t|
  {
    t == [] || (TokenRun(t) < MinTokenLength && NoLongToken(t[1..]))
  }

  lemma {:induction false} TokenRunConcat(x: string, y: string)
    requires forall k :: 0 <= k < |x| ==> IsTokenChar(x[k])
    requires y == [] || !IsTokenChar(y[0])
    ensures TokenRun(x + y) == |x|
  {
    if x == [] {
      assert x + y == y;
    } else {
      assert (x + y)[1..] == x[1..] + y;
      TokenRunConcat(x[1..], y);
    }
  }

  lemma {:induction false} NoLongTokenShortRun(x: string, y: string)
    requires forall k :: 0 <= k < |x| ==> IsTokenChar(x[k])
    requires |x| < MinTokenLength
    requires y == [] || !IsTokenChar(y[0])
    requires NoLongToken(y)
    ensures NoLongToken(x + y)
  {
    if x == [] {
      assert x + y == y;
    } else {
      TokenRunConcat(x, y);
      assert (x + y)[1..] == x[1..] + y;
      NoLongTokenShortRun(x[1..], y);
    }
  }

  /** The result of the mask never starts with a token character where the input does not. */
  predicate StartsLike(s: string, r: string) {
    (s == [] || !IsTokenChar(s[0])) ==> (r == [] || !IsTokenChar(r[0]))
  }

  /** After masking, no run of 64 token characters is left anywhere. */
  lemma {:induction false} MaskTokensLeavesNoLongToken(s: string)
    ensures NoLongToken(MaskTokens(s))
    ensures StartsLike(s, MaskTokens(s))
    decreases |s|
  {
    if s != [] {
      var n := TokenRun(s);
      if n >= MinTokenLength {
        var rest := MaskTokens(s[n..]);
        MaskTokensLeavesNoLongToken(s[n..]);
        assert n == |s| || !IsTokenChar(s[n..][0]);
        NoLongTokenShortRun([], rest);
        assert NoLongToken("*" + rest);
        assert ("*" + rest)[1..] == rest;
        assert NoLongToken("**" + rest) by {
          assert ("**" + rest)[1..] == "*" + rest;
        }
        assert ("***" + rest)[1..] == "**" + rest;
        assert MaskTokens(s) == "***" + rest;
      } else if n > 0 {
        var rest := MaskTokens(s[n..]);
        MaskTokensLeavesNoLongToken(s[n..]);
        assert n == |s| || !IsTokenChar(s[n..][0]);
        TokenRunPrefix(s, n);
        NoLongTokenShortRun(s[..n], rest);
      } else {
        MaskTokensLeavesNoLongToken(s[1..]);
        assert ([s[0]] + MaskTokens(s[1..]))[1..] == MaskTokens(s[1..]);
      }
    }
  }

  lemma {:induction false} TokenRunPrefix(s: string, n: nat)
    requires n <= TokenRun(s)
    ensures forall k :: 0 <= k < n ==> IsTokenChar(s[..n][k])
  {
    if n > 0 {
      TokenRunPrefix(s[1..], n - 1);
      assert forall k :: 1 <= k < n ==> s[..n][k] == s[1..][..n - 1][k - 1];
    }
  }

  /** Text without a long token-like run comes out unchanged. */
  lemma {:induction false} MaskTokensKeepsShortRuns(s: string)
    requires NoLongToken(s)
    ensures MaskTokens(s) == s
    decreases |s|
  {
    if s != [] {
      var n := TokenRun(s);
      assert n < MinTokenLength;
      if n > 0 {
        NoLongTokenSuffix(s, n);
        MaskTokensKeepsShortRuns(s[n..]);
        assert MaskTokens(s) == s[..n] + MaskTokens(s[n..]);
        assert s[..n] + s[n..] == s;
      } else {
        NoLongTokenSuffix(s, 1);
        MaskTokensKeepsShortRuns(s[1..]);
        assert MaskTokens(s) == [s[0]] + MaskTokens(s[1..]);
        assert [s[0]] + s[1..] == s;
      }
    }
  }

  lemma {:induction false} NoLongTokenSuffix(t: string, k: nat)
    requires NoLongToken(t) && k <= |t|
    ensures NoLongToken(t[k..])
  {
    if k > 0 {
      NoLongTokenSuffix(t[1..], k - 1);
      assert t[1..][k - 1..] == t[k..];
    }
  }

  lemma {:induction false} NoLongTokenPrefix(t: string, k: nat)
    requires NoLongToken(t) && k <= |t|
    ensures NoLongToken(t[..k])
  {
    if k > 0 {
      TokenRunOfPrefix(t, k);
      NoLongTokenPrefix(t[1..], k - 1);
      assert t[..k][1..] == t[1..][..k - 1];
    }
  }

  lemma {:induction false} TokenRunOfPrefix(t: string, k: nat)
    requires k <= |t|
    ensures TokenRun(t[..k]) <= TokenRun(t)
  {
    if k > 0 && IsTokenChar(t[0]) {
      TokenRunOfPrefix(t[1..], k - 1);
      assert t[..k][1..] == t[1..][..k - 1];
    }
  }

  /** Trimming spaces takes a slice, so it cannot create a long run. */
  lemma TrimSpaceKeepsNoLongToken(t: string)
    requires NoLongToken(t)
    ensures NoLongToken(TrimSpace(t))
  {
    var l := TrimLeftSpace(t);
    NoLongTokenSuffix(t, |t| - |l|);
    assert t[|t| - |l|..] == l;
    var r := TrimRightSpace(l);
    NoLongTokenPrefix(l, |r|);
    assert l[..|r|] == r;
  }

  // ---------------------------------------------------------------------
  // sanitizeBWOutput
  // ---------------------------------------------------------------------

  /**
   * The sanitised form of CLI output: escape sequences removed, prompt lines
   * dropped, long runs masked, surrounding white space trimmed.
   */
  function Sanitized(s: string): string {
    TrimSpace(MaskTokens(Join(KeptLines(Split(StripAnsi(s), '\n')), "\n")))
  }

  /** Nothing token-like of 64 characters or more survives sanitising. */
  lemma SanitizedHidesTokens(s: string)
    ensures NoLongToken(Sanitized(s))
  {
    var m := MaskTokens(Join(KeptLines(Split(StripAnsi(s), '\n')), "\n"));
    MaskTokensLeavesNoLongToken(Join(KeptLines(Split(StripAnsi(s), '\n')), "\n"));
    TrimSpaceKeepsNoLongToken(m);
  }

  /** A one-line prompt is dropped completely. */
  lemma SanitizedDropsPrompt(s: string)
    requires Esc !in s && '\n' !in s
    requires IsPromptLine(s)
    ensures Sanitized(s) == ""
  {
    StripAnsiPlain(s);
    SplitWithoutSeparator(s, '\n');
  }

  /** Ordinary output (no escapes, no prompt line, no long run) is only trimmed. */
  lemma SanitizedKeepsPlainOutput(s: string)
    requires Esc !in s
    requires forall k :: 0 <= k < |Split(s, '\n')| ==> !IsPromptLine(Split(s, '\n')[k])
    requires NoLongToken(s)
    ensures Sanitized(s) == TrimSpace(s)
  {
    StripAnsiPlain(s);
    KeptLinesAllClean(Split(s, '\n'));
    JoinSplit(s, '\n');
    MaskTokensKeepsShortRuns(s);
  }

  lemma {:induction false} SplitWithoutSeparator(s: string, sep: char)
    requires sep !in s
    ensures Split(s, sep) == [s]
  {
    if s != [] {
      assert s[0] in s;
      assert forall c :: c in s[1..] ==> c in s;
      SplitWithoutSeparator(s[1..], sep);
      assert [s[0]] + s[1..] == s;
    }
  }

  /**
   * sanitizeBWOutput: the line filter is the loop of the client, the rest are
   * single library calls.
   */
  method SanitizeBWOutput(s: string) returns (r: string)
    ensures r == Sanitized(s)
  {
    var lines := Split(StripAnsi(s), '\n');
    var cleaned: seq<string> := [];
    var i := 0;
    while i < |lines|
      invariant 0 <= i <= |lines|
      invariant cleaned + KeptLines(lines[i..]) == KeptLines(lines)
    {
      assert lines[i..][0] == lines[i] && lines[i..][1..] == lines[i + 1..];
      if !IsPromptLine(lines[i]) {
        cleaned := cleaned + [lines[i]];
      }
      i := i + 1;
    }
    assert lines[i..] == [];
    assert cleaned == KeptLines(lines);
    r := TrimSpace(MaskTokens(Join(cleaned, "\n")));
  }

  // ---------------------------------------------------------------------
  // redactBWArgs
  // ---------------------------------------------------------------------

  predicate IsSecretFlag(a: string) { a == "--session" || a == "--password" }

  /** How many arguments one step of the redaction scan at `i` covers. */
  function StepLength(args: seq<string>, i: nat): (n: nat)
    requires i < |args|
    ensures 1 <= n && i + n <= |args|
  {
    if IsSecretFlag(args[i]) && i + 1 < |args| then 2 else 1
  }

  /** What one step of the redaction scan at `i` writes in place of those arguments. */
  function StepOutput(args: seq<string>, i: nat): (r: seq<string>)
    requires i < |args|
    ensures |r| == StepLength(args, i)
  {
    if IsSecretFlag(args[i]) && i + 1 < |args| then [args[i], "***"]
    else if HasPrefix(args[i], "--session=") then ["--session=***"]
    else if HasPrefix(args[i], "--password=") then ["--password=***"]
    else [args[i]]
  }

  /** The logged form of a command line: flag values replaced, inline values masked. */
  function Redacted(args: seq<string>): (r: seq<string>)
    ensures |r| == |args|
    decreases |args|
  {
    if args == [] then [] else StepOutput(args, 0) + Redacted(args[StepLength(args, 0)..])
  }

  predicate IsMask(a: string) { a == "***" || a == "--session=***" || a == "--password=***" }

  /** Redaction changes an element only by putting a mask in its place. */
  lemma RedactedOnlyMasks(args: seq<string>)
    ensures forall k :: 0 <= k < |args| ==> Redacted(args)[k] == args[k] || IsMask(Redacted(args)[k])
  {
    forall k | 0 <= k < |args|
      ensures Redacted(args)[k] == args[k] || IsMask(Redacted(args)[k])
    {
      RedactedOnlyMasksAt(args, k);
    }
  }

  lemma {:induction false} RedactedOnlyMasksAt(args: seq<string>, k: nat)
    requires k < |args|
    ensures Redacted(args)[k] == args[k] || IsMask(Redacted(args)[k])
    decreases |args|
  {
    var n := StepLength(args, 0);
    var out := StepOutput(args, 0);
    assert Redacted(args) == out + Redacted(args[n..]);
    if k < n {
      assert Redacted(args)[k] == out[k];
    } else {
      RedactedOnlyMasksAt(args[n..], k - n);
      assert args[n..][k - n] == args[k];
      assert Redacted(args)[k] == Redacted(args[n..])[k - n];
    }
  }

  /** In the logged form, a secret flag with a following element is followed by "***". */
  lemma {:induction false} RedactedHidesFlagValues(args: seq<string>)
    ensures forall k :: 0 <= k < |args| - 1 && IsSecretFlag(Redacted(args)[k]) ==> Redacted(args)[k + 1] == "***"
  {
    if args != [] {
      var r := Redacted(args);
      var n := StepLength(args, 0);
      RedactedHidesFlagValues(args[n..]);
      assert forall k :: n <= k < |args| ==> r[k] == Redacted(args[n..])[k - n];
      if n == 1 {
        assert !IsSecretFlag("--session=***") && !IsSecretFlag("--password=***");
      }
    }
  }

  /** In the logged form, every inline `--session=` / `--password=` value is "***". */
  lemma {:induction false} RedactedHidesInlineValues(args: seq<string>)
    ensures forall k :: 0 <= k < |args| && HasPrefix(Redacted(args)[k], "--session=") ==> Redacted(args)[k] == "--session=***"
    ensures forall k :: 0 <= k < |args| && HasPrefix(Redacted(args)[k], "--password=") ==> Redacted(args)[k] == "--password=***"
  {
    if args != [] {
      var r := Redacted(args);
      var n := StepLength(args, 0);
      RedactedHidesInlineValues(args[n..]);
      assert forall k :: n <= k < |args| ==> r[k] == Redacted(args[n..])[k - n];
      if n == 2 {
        assert "--password"[2] != "--session="[2] && "--session"[2] != "--password="[2];
        assert !HasPrefix("***", "--session=") && !HasPrefix("***", "--password=");
      } else {
        assert "--session=***"[2] != "--password="[2] && "--password=***"[2] != "--session="[2];
      }
    }
  }

  /** The scan restarted at `i` begins with the step at `i`. */
  lemma RedactedFrom(args: seq<string>, i: nat)
    requires i < |args|
    ensures Redacted(args[i..]) == StepOutput(args, i) + Redacted(args[i + StepLength(args, i)..])
  {
    var rest := args[i..];
    assert rest[0] == args[i];
    assert rest[StepLength(args, i)..] == args[i + StepLength(args, i)..];
  }

  /** The loop's account of the redaction advances by one step. */
  lemma RedactedStep(args: seq<string>, i: nat, done: seq<string>)
    requires i < |args| && Redacted(args) == done + Redacted(args[i..])
    ensures Redacted(args) == (done + StepOutput(args, i)) + Redacted(args[i + StepLength(args, i)..])
  {
    RedactedFrom(args, i);
    AppendAssoc(done, StepOutput(args, i), Redacted(args[i + StepLength(args, i)..]));
  }

  lemma AppendAssoc(a: seq<string>, b: seq<string>, c: seq<string>)
    ensures a + (b + c) == (a + b) + c
  {
  }

  /** One step of redactBWArgs on the copy, with `done` the part already rewritten. */
  method RedactAt(a: array<string>, i: nat, ghost args: seq<string>, ghost done: seq<string>) returns (next: nat)
    requires |done| == i < a.Length == |args|
    requires a[..] == done + args[i..]
    modifies a
    ensures next == i + StepLength(args, i)
    ensures a[..] == (done + StepOutput(args, i)) + args[next..]
  {
    ghost var before := a[..];
    assert a[i] == args[i];
    if IsSecretFlag(a[i]) && i + 1 < a.Length {
      a[i + 1] := "***";
      assert a[..] == before[i + 1 := "***"];
      next := i + 2;
    } else if HasPrefix(a[i], "--session=") {
      a[i] := "--session=***";
      assert a[..] == before[i := "--session=***"];
      next := i + 1;
    } else if HasPrefix(a[i], "--password=") {
      a[i] := "--password=***";
      assert a[..] == before[i := "--password=***"];
      next := i + 1;
    } else {
      next := i + 1;
    }
  }

  /**
   * redactBWArgs: a copy of the arguments rewritten in place, the index
   * jumping over a value it has just masked.
   */
  method RedactBWArgs(args: seq<string>) returns (redacted: seq<string>)
    ensures redacted == Redacted(args)
  {
    var a := new string[|args|](k requires 0 <= k < |args| => args[k]);
    ghost var done: seq<string> := [];
    var i := 0;
    while i < a.Length
      invariant 0 <= i <= a.Length == |args|
      invariant |done| == i
      invariant a[..] == done + args[i..]
      invariant Redacted(args) == done + Redacted(args[i..])
    {
      RedactedStep(args, i, done);
      var next := RedactAt(a, i, args, done);
      done := done + StepOutput(args, i);
      i := next;
    }
    assert args[i..] == [];
    redacted := a[..];
    assert redacted == done;
  }
}
