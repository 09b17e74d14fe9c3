/**
 * internal/model/server.go: a Bitwarden server configuration, its save/load hooks
 * and the response that hides its secrets. Timestamps are not modelled.
 */
module ServerModel {
  import opened Wrappers
  import opened Crypto
  import opened SecretFields

  datatype ServerConfig = ServerConfig(
    id: nat,
    name: string,
    serverURL: string,
    clientID: string,
    clientSecret: string,
    masterPassword: string,
    isOfficial: bool,
    enabled: bool)

  /** ServerResponse has no field for the client secret or the master password. */
  datatype ServerResponse = ServerResponse(
    id: nat,
    name: string,
    serverURL: string,
    clientID: string,
    isOfficial: bool,
    enabled: bool)

  /** ServerRequest: the body of a create or update; a missing `enabled` is None. */
  datatype ServerRequest = ServerRequest(
    name: string,
    serverURL: string,
    clientID: string,
    clientSecret: string,
    masterPassword: string,
    isOfficial: bool,
    enabled: Option<bool>)

  /** The credential fields the hooks visit, in the order they visit them. */
  function Credentials(s: ServerConfig): (r: seq<string>)
    ensures |r| == 3 && r[0] == s.clientID && r[1] == s.clientSecret && r[2] == s.masterPassword
  {
    [s.clientID, s.clientSecret, s.masterPassword]
  }

  /** Two configurations that differ at most in their credential fields. */
  predicate SameExceptCredentials(a: ServerConfig, b: ServerConfig) {
    a.id == b.id && a.name == b.name && a.serverURL == b.serverURL
    && a.isOfficial == b.isOfficial && a.enabled == b.enabled
  }

  /** BeforeSave: encrypts each credential that is non-empty and not yet prefixed, stopping at the first error. */
  method BeforeSave(kr: Keyring, s: ServerConfig) returns (r: ServerConfig, err: Option<CryptoError>)
    ensures Outcome(Credentials(r), err) == SealFields(kr, Credentials(s))
    ensures SameExceptCredentials(r, s)
  {
    SealFieldsStep(kr, s.clientID, [s.clientSecret, s.masterPassword]);
    SealFieldsStep(kr, s.clientSecret, [s.masterPassword]);
    SealFieldsStep(kr, s.masterPassword, []);
    r := s;
    var clientID, eclientID := SealField(kr, r.clientID);
    if eclientID.Some? {
      err := eclientID;
      return;
    }
    r := r.(clientID := clientID);
    var clientSecret, eclientSecret := SealField(kr, r.clientSecret);
    if eclientSecret.Some? {
      err := eclientSecret;
      return;
    }
    r := r.(clientSecret := clientSecret);
    var masterPassword, emasterPassword := SealField(kr, r.masterPassword);
    if emasterPassword.Some? {
      err := emasterPassword;
      return;
    }
    r := r.(masterPassword := masterPassword);
    err := None;
  }

  /** AfterFind: decrypts each non-empty credential, stopping at the first error. */
  method AfterFind(kr: Keyring, s: ServerConfig) returns (r: ServerConfig, err: Option<CryptoError>)
    ensures Outcome(Credentials(r), err) == OpenFields(kr, Credentials(s))
    ensures SameExceptCredentials(r, s)
  {
    OpenFieldsStep(kr, s.clientID, [s.clientSecret, s.masterPassword]);
    OpenFieldsStep(kr, s.clientSecret, [s.masterPassword]);
    OpenFieldsStep(kr, s.masterPassword, []);
    r := s;
    var clientID, eclientID := OpenField(kr, r.clientID);
    if eclientID.Some? {
      err := eclientID;
      return;
    }
    r := r.(clientID := clientID);
    var clientSecret, eclientSecret := OpenField(kr, r.clientSecret);
    if eclientSecret.Some? {
      err := eclientSecret;
      return;
    }
    r := r.(clientSecret := clientSecret);
    var masterPassword, emasterPassword := OpenField(kr, r.masterPassword);
    if emasterPassword.Some? {
      err := emasterPassword;
      return;
    }
    r := r.(masterPassword := masterPassword);
    err := None;
  }

  /** ToResponse: copies the public fields and the client id as stored. */
  function ToResponse(s: ServerConfig): (r: ServerResponse)
    ensures r.id == s.id && r.name == s.name && r.serverURL == s.serverURL
    ensures r.clientID == s.clientID && r.isOfficial == s.isOfficial && r.enabled == s.enabled
  {
    ServerResponse(s.id, s.name, s.serverURL, s.clientID, s.isOfficial, s.enabled)
  }

  /** The response does not depend on the client secret or the master password. */
  lemma ResponseHidesSecrets(s: ServerConfig, secret: string, password: string)
    ensures ToResponse(s.(clientSecret := secret, masterPassword := password)) == ToResponse(s)
  {
  }
}
