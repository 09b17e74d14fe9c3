/**
 * internal/webdav/client.go and upload.go: the WebDAV client's base URL, the request
 * URLs it builds, the status codes it accepts, and how a PROPFIND reply becomes a file
 * list. The HTTP exchange is an input: a transport/read/parse failure, or the status
 * and the parsed `<response>` elements (their times already parsed).
 */
module WebDAV {
  import opened Wrappers
  import opened Strings

  datatype Client = Client(baseURL: string, username: string, password: string)

  /** NewClient: one trailing "/" is removed from the base URL; the credentials are kept as given. */
  function NewClient(baseURL: string, username: string, password: string): (c: Client)
    ensures HasSuffix(baseURL, "/") ==> baseURL == c.baseURL + "/"
    ensures !HasSuffix(baseURL, "/") ==> c.baseURL == baseURL
    ensures c.username == username && c.password == password
  {
    Client(TrimSuffix(baseURL, "/"), username, password)
  }

  /** Only one slash goes: a base URL ending in "//" keeps one, and a trimmed URL is trimmed no further. */
  lemma NewClientTrimsOneSlash(base: string, username: string, password: string)
    ensures NewClient(base + "//", username, password).baseURL == base + "/"
    ensures !HasSuffix(base, "/") ==> NewClient(NewClient(base + "/", username, password).baseURL, username, password).baseURL == base
  {
    assert (base + "//")[..|base + "//"| - 1] == base + "/";
    assert (base + "/")[..|base + "/"| - 1] == base;
  }

  /** The three requests the client makes. */
  datatype Operation = Upload | Delete | List

  /** The status codes each request accepts: PUT 200/201/204, DELETE 200/204, PROPFIND 207/200. */
  function AcceptedStatuses(op: Operation): set<int> {
    match op
    case Upload => {200, 201, 204}
    case Delete => {200, 204}
    case List => {207, 200}
  }

  /** The status check after a request: no error exactly for an accepted status, else one naming the status. */
  function CheckStatus(op: Operation, status: int): (r: Option<string>)
    ensures r.None? <==> status in AcceptedStatuses(op)
    ensures r.Some? ==> HasSuffix(r.value, IntToString(status))
  {
    if status in AcceptedStatuses(op) then None
    else
      var prefix := match op
        case Upload => "upload failed with status: "
        case Delete => "delete failed with status: "
        case List => "list failed with status: ";
      Some(prefix + IntToString(status))
  }

  /** 201 Created counts only for an upload and 207 Multi-Status only for a listing; 200 counts for all three. */
  lemma StatusSetsDiffer()
    ensures CheckStatus(Upload, 201).None? && CheckStatus(Delete, 201).Some? && CheckStatus(List, 201).Some?
    ensures CheckStatus(List, 207).None? && CheckStatus(Upload, 207).Some? && CheckStatus(Delete, 207).Some?
    ensures CheckStatus(Upload, 204).None? && CheckStatus(Delete, 204).None? && CheckStatus(List, 204).Some?
    ensures forall op: Operation :: CheckStatus(op, 200).None?
  {
  }

  /** The PUT URL: base URL, "/", and the remote path as given. */
  function UploadURL(c: Client, remotePath: string): string {
    c.baseURL + "/" + remotePath
  }

  /** The PROPFIND and DELETE URL: base URL, "/", and the remote path without one leading "/". */
  function ResourceURL(c: Client, remotePath: string): string {
    c.baseURL + "/" + TrimPrefix(remotePath, "/")
  }

  /** The upload URL keeps a leading "/" of the remote path (giving "//"), where listing and deleting drop it. */
  lemma UploadKeepsLeadingSlash(c: Client, p: string)
    ensures !HasPrefix(p, "/") ==> UploadURL(c, p) == ResourceURL(c, p)
    ensures UploadURL(c, "/" + p) == c.baseURL + "//" + p
    ensures ResourceURL(c, "/" + p) == c.baseURL + "/" + p
  {
    assert ("/" + p)[..1] == "/";
  }

  /** One `<response>` of a PROPFIND reply. */
  datatype PropResponse = PropResponse(href: string, displayName: string, isCollection: bool, modTime: int)

  datatype PropfindReply = PropfindReply(status: int, responses: seq<PropResponse>)

  datatype FileInfo = FileInfo(name: string, modTime: int, isDir: bool)

  /** The last "/"-separated segment of an href. */
  function LastSegment(href: string): (r: string)
    ensures '/' !in r
  {
    var parts := Split(href, '/');
    parts[|parts| - 1]
  }

  /** An entry's name: its display name, or else the last segment of its href. */
  function EntryName(displayName: string, href: string): (r: string)
    ensures displayName != "" ==> r == displayName
    ensures displayName == "" ==> '/' !in r
  {
    if displayName != "" then displayName else LastSegment(href)
  }

  /**
   * The test that skips the listed collection itself, as written: an empty href, or one
   * that ends with the request path. An empty request path is a suffix of every href.
   */
  predicate IsSelfAsWritten(href: string, requestPath: string) {
    HasSuffix(href, requestPath) || href == ""
  }

  /** The test as intended: an empty request path (the root) skips only an empty href. */
  predicate IsSelf(href: string, requestPath: string) {
    (requestPath != "" && HasSuffix(href, requestPath)) || href == ""
  }

  predicate Skipped(href: string, requestPath: string, corrected: bool) {
    if corrected then IsSelf(href, requestPath) else IsSelfAsWritten(href, requestPath)
  }

  /** The file list built from the responses, in reply order, with "/" trimmed off each href. */
  function Entries(rs: seq<PropResponse>, requestPath: string, corrected: bool): (r: seq<FileInfo>)
    ensures |r| <= |rs|
  {
    if rs == [] then []
    else
      var before := Entries(rs[..|rs| - 1], requestPath, corrected);
      var resp := rs[|rs| - 1];
      var href := TrimSuffix(resp.href, "/");
      if Skipped(href, requestPath, corrected) then before
      else before + [FileInfo(EntryName(resp.displayName, href), resp.modTime, resp.isCollection)]
  }

  /** ListFiles' outcome for a reply: the transport error, the status error, or the entries. */
  function Listing(remotePath: string, reply: Result<PropfindReply, string>, corrected: bool): Result<seq<FileInfo>, string> {
    match reply
    case Err(e) => Err(e)
    case Ok(rep) =>
      match CheckStatus(List, rep.status)
      case Some(e) => Err(e)
      case None => Ok(Entries(rep.responses, TrimPrefix(remotePath, "/"), corrected))
  }

  /** ListFiles as written: the loop over the responses of an accepted reply. */
  method ListFiles(c: Client, remotePath: string, reply: Result<PropfindReply, string>)
    returns (r: Result<seq<FileInfo>, string>)
    ensures r == Listing(remotePath, reply, false)
  {
    if reply.Err? {
      return Err(reply.error);
    }
    var statusErr := CheckStatus(List, reply.value.status);
    if statusErr.Some? {
      return Err(statusErr.value);
    }
    var rs := reply.value.responses;
    var requestPath := TrimPrefix(remotePath, "/");
    var files: seq<FileInfo> := [];
    for i := 0 to |rs|
      invariant files == Entries(rs[..i], requestPath, false)
    {
      assert rs[..i + 1][..i] == rs[..i];
      var href := TrimSuffix(rs[i].href, "/");
      if HasSuffix(href, requestPath) || href == "" {
        continue;
      }
      var name := rs[i].displayName;
      if name == "" {
        name := LastSegment(href);
      }
      files := files + [FileInfo(name, rs[i].modTime, rs[i].isCollection)];
    }
    assert rs[..|rs|] == rs;
    r := Ok(files);
  }

  /** As written, a listing of the root ("" or "/") is empty whatever the server replies. */
  lemma {:induction false} RootListingIsEmptyAsWritten(rs: seq<PropResponse>, remotePath: string)
    requires remotePath == "" || remotePath == "/"
    ensures Listing(remotePath, Ok(PropfindReply(207, rs)), false) == Ok([])
  {
    assert TrimPrefix(remotePath, "/") == "";
    EntriesAllSkippedAtRoot(rs);
  }

  /** As written, whatever the reply at the root, a listing that succeeds holds no file. */
  lemma RootListingNeverListsFiles(remotePath: string, reply: Result<PropfindReply, string>)
    requires remotePath == "" || remotePath == "/"
    ensures Listing(remotePath, reply, false).Ok? ==> Listing(remotePath, reply, false).value == []
  {
    assert TrimPrefix(remotePath, "/") == "";
    if reply.Ok? {
      EntriesAllSkippedAtRoot(reply.value.responses);
    }
  }

  lemma {:induction false} EntriesAllSkippedAtRoot(rs: seq<PropResponse>)
    ensures Entries(rs, "", false) == []
  {
    if rs != [] {
      EntriesAllSkippedAtRoot(rs[..|rs| - 1]);
      assert HasSuffix(TrimSuffix(rs[|rs| - 1].href, "/"), "");
    }
  }

  /** Corrected, every response of a root listing whose href is not just "/" is listed, as the last entry for the last response. */
  lemma CorrectedRootListingKeepsFiles(rs: seq<PropResponse>, resp: PropResponse)
    requires TrimSuffix(resp.href, "/") != ""
    ensures var listed := Entries(rs + [resp], "", true);
      listed != [] && listed[|listed| - 1] == FileInfo(EntryName(resp.displayName, TrimSuffix(resp.href, "/")), resp.modTime, resp.isCollection)
  {
    assert (rs + [resp])[..|rs|] == rs;
  }

  /** Away from the root the correction changes nothing. */
  lemma {:induction false} CorrectionOnlyAffectsRoot(rs: seq<PropResponse>, requestPath: string)
    requires requestPath != ""
    ensures Entries(rs, requestPath, true) == Entries(rs, requestPath, false)
  {
    if rs != [] {
      CorrectionOnlyAffectsRoot(rs[..|rs| - 1], requestPath);
    }
  }
}
