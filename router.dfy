/**
 * cmd/server/router.go: the Gin mode chosen from APP_ENV, and how a request that no
 * route matches is answered (the single-page-app fallback).
 */
module Router {
  import opened Strings
  import Config

  /** Debug mode with the default middleware (access log and recovery), or release mode with recovery only. */
  datatype Mode = DebugWithAccessLog | ReleaseWithRecovery

  /** setupRouter's choice: debug exactly for APP_ENV "dev". */
  function ModeFor(appEnv: string): (m: Mode)
    ensures m == DebugWithAccessLog <==> appEnv == "dev"
  {
    if appEnv == "dev" then DebugWithAccessLog else ReleaseWithRecovery
  }

  /** Without APP_ENV the server runs in release mode. */
  lemma DefaultIsRelease(env: map<string, string>)
    requires "APP_ENV" !in env
    ensures ModeFor(Config.Load(env).appEnv) == ReleaseWithRecovery
  {
  }

  /** filepath.Ext: the suffix from the last "." of the last path element, or "" when that element has none. */
  function Ext(path: string): (r: string)
    ensures r == "" || (r[0] == '.' && HasSuffix(path, r) && '/' !in r)
    ensures r != "" <==> exists i :: 0 <= i < |path| && path[i] == '.' && '/' !in path[i..]
  {
    if path == [] then ""
    else
      var last := path[|path| - 1];
      var init := path[..|path| - 1];
      if last == '/' then
        assert forall i :: 0 <= i < |path| ==> path[i..][|path| - 1 - i] == '/';
        ""
      else if last == '.' then "."
      else
        var e := Ext(init);
        assert forall i :: 0 <= i < |init| ==> path[i..] == init[i..] + [last];
        if e == "" then "" else e + [last]
  }

  /** The NoRoute answers. */
  datatype Fallback =
    | ApiNotFound    // 404 with {"error": "Not found"}
    | AssetNotFound  // bare 404
    | ServeIndex     // ./web/dist/index.html

  /** The NoRoute handler: API paths first, then paths naming a file, else the app's index page. */
  function NoRoute(path: string): (r: Fallback)
    ensures r == ApiNotFound <==> HasPrefix(path, "/api/")
    ensures r == AssetNotFound <==> !HasPrefix(path, "/api/") && Ext(path) != ""
    ensures r == ServeIndex <==> !HasPrefix(path, "/api/") && Ext(path) == ""
  {
    if HasPrefix(path, "/api/") then ApiNotFound
    else if Ext(path) != "" then AssetNotFound
    else ServeIndex
  }

  /** A last element ending in "." and dot-free, slash-free text gives exactly that extension. */
  lemma {:induction false} ExtOfDottedName(p: string, e: string)
    requires '.' !in e && '/' !in e
    ensures Ext(p + "." + e) == "." + e
  {
    if e != [] {
      var init := e[..|e| - 1];
      assert p + "." + e == (p + "." + init) + [e[|e| - 1]];
      ExtOfDottedName(p, init);
    }
  }

  /** A dot-free last element has no extension, whatever dots come before its "/". */
  lemma {:induction false} ExtOfPlainElement(p: string, e: string)
    requires '.' !in e && '/' !in e
    ensures Ext(p + "/" + e) == ""
  {
    if e != [] {
      var init := e[..|e| - 1];
      assert p + "/" + e == (p + "/" + init) + [e[|e| - 1]];
      ExtOfPlainElement(p, init);
    }
  }

  /** Any path under "/api/" is an API 404, even one that names a file. */
  lemma ApiPathsComeFirst(rest: string)
    ensures NoRoute("/api/" + rest) == ApiNotFound
  {
    assert ("/api/" + rest)[..5] == "/api/";
  }

  /** "/api" without the slash, and any path whose last element has no dot, is served the app's index page. */
  lemma AppRoutesServeIndex(p: string, e: string)
    requires '.' !in e && '/' !in e && !HasPrefix(p + "/" + e, "/api/")
    ensures NoRoute(p + "/" + e) == ServeIndex
    ensures NoRoute("/api") == ServeIndex
  {
    ExtOfPlainElement(p, e);
    assert Ext("/api") == "" by {
      ExtOfPlainElement("", "api");
      assert "" + "/" + "api" == "/api";
    }
  }

  /** Outside "/api/", a last element with a dot is a bare 404. */
  lemma FilePathsAreNotFound(p: string, e: string)
    requires '.' !in e && '/' !in e && !HasPrefix(p + "." + e, "/api/")
    ensures NoRoute(p + "." + e) == AssetNotFound
  {
    ExtOfDottedName(p, e);
  }
}
