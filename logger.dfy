/**
 * internal/logger/logger.go: the text handler behind every log line. A handler has a
 * minimum level, an optional module name and preset attributes; a line is the time,
 * the level, the module in brackets, the message, then " key=value" per attribute.
 * The time is given already formatted, and a non-string attribute value already
 * printed (%v is not modelled).
 */
module Logger {
  import opened Wrappers
  import opened Strings

  /** slog's levels. */
  const LevelDebug: int := -4
  const LevelInfo: int := 0
  const LevelWarn: int := 4
  const LevelError: int := 8

  /** slog.Level.String: the name of the level at or below, with the distance to it when not 0 ("INFO+2"). */
  function LevelString(l: int): (r: string)
    ensures l == LevelDebug ==> r == "DEBUG"
    ensures l == LevelInfo ==> r == "INFO"
    ensures l == LevelWarn ==> r == "WARN"
    ensures l == LevelError ==> r == "ERROR"
  {
    var (base, offset) :=
      if l < LevelInfo then ("DEBUG", l - LevelDebug)
      else if l < LevelWarn then ("INFO", l - LevelInfo)
      else if l < LevelError then ("WARN", l - LevelWarn)
      else ("ERROR", l - LevelError);
    if offset == 0 then base else base + SignedToString(offset)
  }

  /** An attribute value: a string (printed with %q) or anything else (printed with %v, here given as text). */
  datatype Value = StringValue(s: string) | OtherValue(printed: string)

  datatype Attr = Attr(key: string, value: Value)

  datatype Handler = Handler(level: int, moduleName: string, attrs: seq<Attr>)

  datatype Record = Record(time: string, level: int, message: string, attrs: seq<Attr>)

  /** Enabled: a record is written exactly when its level is at least the handler's. */
  predicate Enabled(h: Handler, level: int) {
    level >= h.level
  }

  /** Module(name): a handler for that module that writes every level from Debug up. */
  function ModuleHandler(name: string): Handler {
    Handler(LevelDebug, name, [])
  }

  /** Init(level): the global handler, without a module or attributes. */
  function Init(level: int): Handler {
    Handler(level, "", [])
  }

  /** Get: the global handler, initialised at Info on first use. */
  function Get(global: Option<Handler>): (r: Handler)
    ensures global.Some? ==> r == global.value
    ensures global.None? ==> r.level == LevelInfo && r.moduleName == "" && r.attrs == []
  {
    match global
    case Some(h) => h
    case None => Init(LevelInfo)
  }

  /** A module handler writes every level from Debug up; the lazily made global handler drops Debug and writes Info. */
  lemma ModuleHandlersWriteEverything(name: string, level: int)
    requires level >= LevelDebug
    ensures Enabled(ModuleHandler(name), level)
    ensures !Enabled(Get(None), LevelDebug) && Enabled(Get(None), LevelInfo)
  {
  }

  /** The escape of one character inside %q's quotes (printable ASCII and the common control characters). */
  function EscapeChar(c: char): string {
    if c == '"' then "\\\""
    else if c == '\\' then "\\\\"
    else if c == '\n' then "\\n"
    else if c == '\t' then "\\t"
    else if c == '\r' then "\\r"
    else [c]
  }

  function Escape(s: string): string {
    if s == [] then [] else Escape(s[..|s| - 1]) + EscapeChar(s[|s| - 1])
  }

  /** %q of a string. */
  function Quote(s: string): (r: string)
    ensures |r| >= 2 && r[0] == '"' && r[|r| - 1] == '"'
  {
    "\"" + Escape(s) + "\""
  }

  /** The character a backslash escape stands for, if the escape is known. */
  function UnescapeCode(c: char): Option<char> {
    if c == 'n' then Some('\n') else if c == 't' then Some('\t') else if c == 'r' then Some('\r')
    else if c == '"' || c == '\\' then Some(c) else None
  }

  /** Reading an escaped body back; None on a bare quote or a dangling or unknown escape. */
  function Unescape(t: string): Option<string>
    decreases |t|
  {
    if t == [] then Some([])
    else if t[0] == '"' then None
    else if t[0] != '\\' then
      match Unescape(t[1..])
      case None => None
      case Some(rest) => Some([t[0]] + rest)
    else if |t| < 2 then None
    else
      match UnescapeCode(t[1])
      case None => None
      case Some(ch) =>
        match Unescape(t[2..])
        case None => None
        case Some(rest) => Some([ch] + rest)
  }

  lemma UnescapeEscapeChar(c: char)
    ensures Unescape(EscapeChar(c)) == Some([c])
  {
    var e := EscapeChar(c);
    if c == '"' || c == '\\' || c == '\n' || c == '\t' || c == '\r' {
      var code := if c == '\n' then 'n' else if c == '\t' then 't' else if c == '\r' then 'r' else c;
      assert e == ['\\', code];
      assert e[2..] == [];
      var rest := Unescape(e[2..]).value;
      assert rest == [] && [c] + rest == [c];
    } else {
      assert e == [c] && e[1..] == [];
      var rest := Unescape(e[1..]).value;
      assert rest == [] && [c] + rest == [c];
    }
  }

  lemma {:induction false} UnescapeAppend(body: string, c: char)
    requires Unescape(body).Some?
    ensures Unescape(body + EscapeChar(c)) == Some(Unescape(body).value + [c])
    decreases |body|
  {
    if body == [] {
      assert body + EscapeChar(c) == EscapeChar(c);
      UnescapeEscapeChar(c);
      assert Unescape(body).value + [c] == [c];
    } else if body[0] != '\\' {
      var t := body + EscapeChar(c);
      assert t[0] == body[0] && t[1..] == body[1..] + EscapeChar(c);
      UnescapeAppend(body[1..], c);
      var rest := Unescape(body[1..]).value;
      assert Unescape(t) == Some([body[0]] + (rest + [c]));
      assert [body[0]] + (rest + [c]) == ([body[0]] + rest) + [c];
    } else {
      var t := body + EscapeChar(c);
      assert |body| >= 2;
      assert t[0] == '\\' && t[1] == body[1] && t[2..] == body[2..] + EscapeChar(c);
      UnescapeAppend(body[2..], c);
      var rest := Unescape(body[2..]).value;
      var ch := Unescape(body).value[0];
      assert Unescape(body).value == [ch] + rest;
      assert Unescape(t) == Some([ch] + (rest + [c]));
      assert [ch] + (rest + [c]) == ([ch] + rest) + [c];
    }
  }

  /** %q loses nothing: the quoted body reads back as the original string. */
  lemma {:induction false} EscapeRoundTrip(s: string)
    ensures Unescape(Escape(s)) == Some(s)
  {
    if s != [] {
      EscapeRoundTrip(s[..|s| - 1]);
      UnescapeAppend(Escape(s[..|s| - 1]), s[|s| - 1]);
      assert s[..|s| - 1] + [s[|s| - 1]] == s;
    }
  }

  /** formatAttr: key=%q for a string value, key=%v otherwise. */
  function FormatAttr(a: Attr): (r: string)
    ensures HasPrefix(r, a.key + "=")
  {
    var v := match a.value
      case StringValue(s) => Quote(s)
      case OtherValue(p) => p;
    var r := a.key + "=" + v;
    assert r[..|a.key + "="|] == a.key + "=";
    r
  }

  /** " key=value" for each attribute, in order. */
  function AttrsText(attrs: seq<Attr>): string {
    if attrs == [] then "" else AttrsText(attrs[..|attrs| - 1]) + " " + FormatAttr(attrs[|attrs| - 1])
  }

  lemma AttrsTextSnoc(s: seq<Attr>, x: Attr)
    ensures AttrsText(s + [x]) == AttrsText(s) + " " + FormatAttr(x)
  {
    assert (s + [x])[..|s|] == s;
  }

  /** The text of a list of attributes is the text of its parts, in order. */
  lemma {:induction false} AttrsTextAppend(a: seq<Attr>, b: seq<Attr>)
    ensures AttrsText(a + b) == AttrsText(a) + AttrsText(b)
  {
    if b == [] {
      assert a + b == a;
    } else {
      var init, x := b[..|b| - 1], b[|b| - 1];
      assert b == init + [x];
      assert a + b == (a + init) + [x];
      AttrsTextAppend(a, init);
      AttrsTextSnoc(a + init, x);
      AttrsTextSnoc(init, x);
    }
  }

  /** The line's head: time, level, "[module]" when there is a module, message. */
  function Header(h: Handler, r: Record): string {
    if h.moduleName != "" then r.time + " " + LevelString(r.level) + " [" + h.moduleName + "] " + r.message
    else r.time + " " + LevelString(r.level) + " " + r.message
  }

  /** The whole line Handle writes (before its newline). */
  function Line(h: Handler, r: Record): string {
    Header(h, r) + AttrsText(h.attrs) + AttrsText(r.attrs)
  }

  /** The `output += " " + formatAttr(attr)` loop over one list of attributes. */
  method AppendAttrs(output: string, attrs: seq<Attr>) returns (r: string)
    ensures r == output + AttrsText(attrs)
  {
    r := output;
    for i := 0 to |attrs|
      invariant r == output + AttrsText(attrs[..i])
    {
      assert attrs[..i + 1] == attrs[..i] + [attrs[i]];
      AttrsTextSnoc(attrs[..i], attrs[i]);
      r := r + " " + FormatAttr(attrs[i]);
    }
    assert attrs[..|attrs|] == attrs;
  }

  /** Handle: the header, then the preset attributes, then the record's, each appended in turn. */
  method Handle(h: Handler, r: Record) returns (output: string)
    ensures output == Line(h, r)
  {
    if h.moduleName != "" {
      output := r.time + " " + LevelString(r.level) + " [" + h.moduleName + "] " + r.message;
    } else {
      output := r.time + " " + LevelString(r.level) + " " + r.message;
    }
    output := AppendAttrs(output, h.attrs);
    output := AppendAttrs(output, r.attrs);
  }

  /** WithAttrs: a new handler with the same level and module and the attributes old ++ new; `h` itself is a value and stays as it was. */
  function WithAttrs(h: Handler, attrs: seq<Attr>): (r: Handler)
    ensures r.level == h.level && r.moduleName == h.moduleName
    ensures |r.attrs| == |h.attrs| + |attrs| && r.attrs[..|h.attrs|] == h.attrs && r.attrs[|h.attrs|..] == attrs
  {
    Handler(h.level, h.moduleName, h.attrs + attrs)
  }

  /** Preset attributes print exactly as if the record carried them first. */
  lemma WithAttrsActsLikeLeadingAttrs(h: Handler, attrs: seq<Attr>, r: Record)
    ensures Line(WithAttrs(h, attrs), r) == Line(h, r.(attrs := attrs + r.attrs))
  {
    AttrsTextAppend(h.attrs, attrs);
    AttrsTextAppend(attrs, r.attrs);
  }

  /** WithGroup: groups are ignored; the same handler is returned. */
  function WithGroup(h: Handler, name: string): Handler {
    h
  }

  /** A group changes neither what is enabled nor any line written. */
  lemma GroupsChangeNothing(h: Handler, name: string, r: Record)
    ensures Line(WithGroup(h, name), r) == Line(h, r)
    ensures Enabled(WithGroup(h, name), r.level) == Enabled(h, r.level)
  {
  }
}
