/**
 * internal/handler/server.go: the `enabled` list filter, the fields a new server
 * needs, and how an update request is merged into the stored server. The
 * database is an input: `stored` maps ids to records.
 */
module ServerHandler {
  import opened Wrappers
  import opened Strings
  import opened ServerModel

  datatype ServerError =
    | InvalidID               // 400 "Invalid ID"
    | NotFound               // 404
    | ClientSecretRequired   // 400
    | MasterPasswordRequired // 400

  /** What an update writes: the enabled flag alone, or the merged record. */
  datatype ServerUpdate =
    | SetEnabled(id: nat, enabled: bool)
    | Replace(id: nat, record: ServerConfig)

  /** The `enabled` query parameter (Gin reads a missing one as ""): no filter, or exactly "true". */
  function EnabledFilter(query: string): (r: Option<bool>)
    ensures r.None? <==> query == ""
    ensures r == Some(true) <==> query == "true"
  {
    if query != "" then Some(query == "true") else None
  }

  /** Any other spelling of a true value filters for disabled servers. */
  lemma EnabledFilterIsCaseSensitive()
    ensures EnabledFilter("True") == Some(false)
    ensures EnabledFilter("1") == Some(false)
    ensures EnabledFilter("false") == Some(false)
  {
    assert "True"[0] != "true"[0];
    assert |"1"| != |"true"|;
    assert "false"[0] != "true"[0];
  }

  /** GetServer: the id must be a base-10 number of at most 32 bits, and the server must exist. */
  function GetServer(idParam: string, stored: map<nat, ServerConfig>): (r: Result<ServerResponse, ServerError>)
    ensures r == Err(InvalidID) <==> ParseUint32(idParam).None?
    ensures r.Ok? ==> (ParseUint32(idParam).value in stored
                       && r.value == ToResponse(stored[ParseUint32(idParam).value]))
  {
    match ParseUint32(idParam)
    case None => Err(InvalidID)
    case Some(id) => if id in stored then Ok(ToResponse(stored[id])) else Err(NotFound)
  }

  /** A printed id is accepted exactly when it fits in 32 bits; a sign or an empty id is refused. */
  lemma GetServerAcceptsExactly32BitIds(n: nat, stored: map<nat, ServerConfig>)
    ensures GetServer(NatToString(n), stored) == Err(InvalidID) <==> n > MaxUint32
    ensures n <= MaxUint32 && n in stored ==> GetServer(NatToString(n), stored) == Ok(ToResponse(stored[n]))
    ensures GetServer("+" + NatToString(n), stored) == Err(InvalidID)
    ensures GetServer("", stored) == Err(InvalidID)
  {
    DigitsValueOfNatToString(n);
    assert !IsDigit(("+" + NatToString(n))[0]);
  }

  /** CreateServer: the client secret, then the master password, must be given; a new server is enabled. */
  method CreateServer(req: ServerRequest) returns (r: Result<ServerConfig, ServerError>)
    ensures req.clientSecret == "" ==> r == Err(ClientSecretRequired)
    ensures req.clientSecret != "" && req.masterPassword == "" ==> r == Err(MasterPasswordRequired)
    ensures r.Ok? <==> req.clientSecret != "" && req.masterPassword != ""
    ensures r.Ok? ==> r.value == ServerConfig(0, req.name, req.serverURL, req.clientID,
      req.clientSecret, req.masterPassword, req.isOfficial, true)
  {
    if req.clientSecret == "" {
      return Err(ClientSecretRequired);
    }
    if req.masterPassword == "" {
      return Err(MasterPasswordRequired);
    }
    r := Ok(ServerConfig(0, req.name, req.serverURL, req.clientID, req.clientSecret,
      req.masterPassword, req.isOfficial, true));
  }

  /** The front end's enable switch sends only `enabled`. */
  predicate IsToggleOnly(req: ServerRequest) {
    req.enabled.Some? && req.name == "" && req.serverURL == "" && req.clientID == ""
  }

  /**
   * The record a full update stores: name, URL, client id and the official flag from
   * the request, `enabled` only when the request has it, and the two secrets kept
   * when the request leaves them empty.
   */
  function Merged(existing: ServerConfig, req: ServerRequest): ServerConfig {
    existing.(
      name := req.name, serverURL := req.serverURL, clientID := req.clientID, isOfficial := req.isOfficial,
      enabled := req.enabled.GetOr(existing.enabled),
      clientSecret := if req.clientSecret != "" then req.clientSecret else existing.clientSecret,
      masterPassword := if req.masterPassword != "" then req.masterPassword else existing.masterPassword)
  }

  /**
   * UpdateServer: the id must parse; a toggle-only request writes `enabled` without
   * reading the record; otherwise the record must exist and is overwritten field by field.
   */
  method UpdateServer(idParam: string, req: ServerRequest, stored: map<nat, ServerConfig>)
    returns (r: Result<ServerUpdate, ServerError>)
    ensures ParseUint32(idParam).None? ==> r == Err(InvalidID)
    ensures ParseUint32(idParam).Some? && IsToggleOnly(req) ==>
      r == Ok(SetEnabled(ParseUint32(idParam).value, req.enabled.value))
    ensures ParseUint32(idParam).Some? && !IsToggleOnly(req) ==>
      r == if ParseUint32(idParam).value in stored
           then Ok(Replace(ParseUint32(idParam).value, Merged(stored[ParseUint32(idParam).value], req)))
           else Err(NotFound)
  {
    var id := ParseUint32(idParam);
    if id.None? {
      return Err(InvalidID);
    }
    if req.enabled.Some? && req.name == "" && req.serverURL == "" && req.clientID == "" {
      return Ok(SetEnabled(id.value, req.enabled.value));
    }
    if id.value !in stored {
      return Err(NotFound);
    }
    var existing := stored[id.value];
    existing := existing.(name := req.name, serverURL := req.serverURL);
    existing := existing.(clientID := req.clientID, isOfficial := req.isOfficial);
    if req.enabled.Some? {
      existing := existing.(enabled := req.enabled.value);
    }
    if req.clientSecret != "" {
      existing := existing.(clientSecret := req.clientSecret);
    }
    if req.masterPassword != "" {
      existing := existing.(masterPassword := req.masterPassword);
    }
    r := Ok(Replace(id.value, existing));
  }

  /** Sending the same update twice stores the same record as sending it once. */
  lemma MergeIdempotent(existing: ServerConfig, req: ServerRequest)
    ensures Merged(Merged(existing, req), req) == Merged(existing, req)
  {
  }

  /** Re-submitting the public fields of a stored server, without secrets or `enabled`, changes nothing. */
  lemma ResubmitResponseChangesNothing(existing: ServerConfig)
    ensures var resp := ToResponse(existing);
      Merged(existing, ServerRequest(resp.name, resp.serverURL, resp.clientID, "", "", resp.isOfficial, None)) == existing
  {
  }

  /** A created server, merged with the request that created it, is unchanged. */
  lemma CreateThenSameUpdateIsStable(req: ServerRequest, created: ServerConfig)
    requires req.clientSecret != "" && req.masterPassword != "" && req.enabled != Some(false)
    requires created == ServerConfig(0, req.name, req.serverURL, req.clientID,
      req.clientSecret, req.masterPassword, req.isOfficial, true)
    ensures Merged(created, req) == created
  {
  }
}
