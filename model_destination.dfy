/**
 * internal/model/destination.go: a backup destination (local directory, WebDAV,
 * S3 or another Bitwarden server), its save/load hooks and the response that
 * masks or drops its secrets. Timestamps are not modelled.
 */
module DestinationModel {
  import opened Wrappers
  import opened Crypto
  import opened SecretFields
  import ServerModel

  datatype BackupDestination = BackupDestination(
    id: nat,
    name: string,
    destType: string,
    localPath: string,
    webdavURL: string,
    webdavUsername: string,
    webdavPassword: string,
    webdavPath: string,
    s3Endpoint: string,
    s3Region: string,
    s3Bucket: string,
    s3AccessKey: string,
    s3SecretKey: string,
    s3Path: string,
    targetServerID: Option<nat>,
    /** The preloaded target server, when the query joined it. */
    targetServer: Option<ServerModel.ServerConfig>,
    encrypted: bool,
    encryptionPassword: string,
    /** 0 means keep every backup. */
    maxBackupCount: int,
    enabled: bool)

  /** DestinationResponse: no WebDAV password, no S3 secret key, no encryption password. */
  datatype DestinationResponse = DestinationResponse(
    id: nat,
    name: string,
    destType: string,
    localPath: string,
    webdavURL: string,
    webdavUsername: string,
    webdavPath: string,
    s3Endpoint: string,
    s3Region: string,
    s3Bucket: string,
    s3AccessKey: string,
    s3Path: string,
    targetServerID: Option<nat>,
    encrypted: bool,
    maxBackupCount: int,
    enabled: bool,
    displayPath: string,
    typeLabel: string)

  /** The secret fields the hooks visit, in the order they visit them. */
  function Secrets(d: BackupDestination): (r: seq<string>)
    ensures |r| == 4 && r[0] == d.webdavPassword && r[1] == d.s3AccessKey
    ensures r[2] == d.s3SecretKey && r[3] == d.encryptionPassword
  {
    [d.webdavPassword, d.s3AccessKey, d.s3SecretKey, d.encryptionPassword]
  }

  /** Replaces the four secret fields and nothing else. */
  function WithSecrets(d: BackupDestination, v: seq<string>): (r: BackupDestination)
    requires |v| == 4
    ensures Secrets(r) == v
  {
    d.(webdavPassword := v[0], s3AccessKey := v[1], s3SecretKey := v[2], encryptionPassword := v[3])
  }

  /** BeforeSave: encrypts each secret that is non-empty and not yet prefixed, stopping at the first error. */
  method BeforeSave(kr: Keyring, d: BackupDestination) returns (r: BackupDestination, err: Option<CryptoError>)
    ensures Outcome(Secrets(r), err) == SealFields(kr, Secrets(d))
    ensures r == WithSecrets(d, Secrets(r))
  {
    SealFour(kr, d.webdavPassword, d.s3AccessKey, d.s3SecretKey, d.encryptionPassword);
    r := d;
    var webdavPassword, ewebdavPassword := SealField(kr, r.webdavPassword);
    if ewebdavPassword.Some? {
      err := ewebdavPassword;
      return;
    }
    r := r.(webdavPassword := webdavPassword);
    var s3AccessKey, es3AccessKey := SealField(kr, r.s3AccessKey);
    if es3AccessKey.Some? {
      err := es3AccessKey;
      return;
    }
    r := r.(s3AccessKey := s3AccessKey);
    var s3SecretKey, es3SecretKey := SealField(kr, r.s3SecretKey);
    if es3SecretKey.Some? {
      err := es3SecretKey;
      return;
    }
    r := r.(s3SecretKey := s3SecretKey);
    var encryptionPassword, eencryptionPassword := SealField(kr, r.encryptionPassword);
    if eencryptionPassword.Some? {
      err := eencryptionPassword;
      return;
    }
    r := r.(encryptionPassword := encryptionPassword);
    err := None;
  }

  /** AfterFind: decrypts each non-empty secret, stopping at the first error. */
  method AfterFind(kr: Keyring, d: BackupDestination) returns (r: BackupDestination, err: Option<CryptoError>)
    ensures Outcome(Secrets(r), err) == OpenFields(kr, Secrets(d))
    ensures r == WithSecrets(d, Secrets(r))
  {
    OpenFour(kr, d.webdavPassword, d.s3AccessKey, d.s3SecretKey, d.encryptionPassword);
    r := d;
    var webdavPassword, ewebdavPassword := OpenField(kr, r.webdavPassword);
    if ewebdavPassword.Some? {
      err := ewebdavPassword;
      return;
    }
    r := r.(webdavPassword := webdavPassword);
    var s3AccessKey, es3AccessKey := OpenField(kr, r.s3AccessKey);
    if es3AccessKey.Some? {
      err := es3AccessKey;
      return;
    }
    r := r.(s3AccessKey := s3AccessKey);
    var s3SecretKey, es3SecretKey := OpenField(kr, r.s3SecretKey);
    if es3SecretKey.Some? {
      err := es3SecretKey;
      return;
    }
    r := r.(s3SecretKey := s3SecretKey);
    var encryptionPassword, eencryptionPassword := OpenField(kr, r.encryptionPassword);
    if eencryptionPassword.Some? {
      err := eencryptionPassword;
      return;
    }
    r := r.(encryptionPassword := encryptionPassword);
    err := None;
  }

  /** maskSensitiveField: short values become "****"; longer ones keep their first and last four characters. */
  function MaskSensitiveField(s: string): (r: string)
    ensures |s| <= 8 ==> r == "****"
    ensures |s| > 8 ==> |r| == 12 && r[..4] == s[..4] && r[4..8] == "****" && r[8..] == s[|s| - 4..]
  {
    if |s| <= 8 then "****" else s[..4] + "****" + s[|s| - 4..]
  }

  /** The mask reveals nothing beyond the length class and the first and last four characters. */
  lemma MaskRevealsOnlyEnds(a: string, b: string)
    requires (|a| <= 8 && |b| <= 8) || (|a| > 8 && |b| > 8 && a[..4] == b[..4] && a[|a| - 4..] == b[|b| - 4..])
    ensures MaskSensitiveField(a) == MaskSensitiveField(b)
  {
  }

  /** GetDisplayPath: where the destination writes, by type; unknown types show nothing. */
  function GetDisplayPath(d: BackupDestination): (r: string)
    ensures d.destType == "local" ==> r == d.localPath
    ensures d.destType == "webdav" ==> r == d.webdavURL + d.webdavPath
    ensures d.destType == "s3" ==> r == "s3://" + d.s3Bucket + d.s3Path
    ensures d.destType == "server" && d.targetServer.Some? ==>
      r == d.targetServer.value.name + " · " + d.targetServer.value.serverURL
    ensures d.destType == "server" && d.targetServer.None? ==> r == "目标服务器"
    ensures d.destType !in {"local", "webdav", "s3", "server"} ==> r == ""
  {
    match d.destType
    case "local" => d.localPath
    case "webdav" => d.webdavURL + d.webdavPath
    case "s3" => "s3://" + d.s3Bucket + d.s3Path
    case "server" =>
      if d.targetServer.Some? then d.targetServer.value.name + " · " + d.targetServer.value.serverURL
      else "目标服务器"
    case _ => ""
  }

  /** GetTypeLabel: a fixed label for the four known types, the raw type otherwise. */
  function GetTypeLabel(d: BackupDestination): (r: string)
    ensures d.destType == "local" ==> r == "本地存储"
    ensures d.destType == "webdav" ==> r == "WebDAV"
    ensures d.destType == "s3" ==> r == "S3"
    ensures d.destType == "server" ==> r == "服务器"
    ensures d.destType !in {"local", "webdav", "s3", "server"} ==> r == d.destType
  {
    var labels := map["local" := "本地存储", "webdav" := "WebDAV", "s3" := "S3", "server" := "服务器"];
    if d.destType in labels then labels[d.destType] else d.destType
  }

  /** ToResponse: the public fields, the S3 access key masked when non-empty, the display path and the label. */
  function ToResponse(d: BackupDestination): (r: DestinationResponse)
    ensures r.s3AccessKey == "" <==> d.s3AccessKey == ""
    ensures d.s3AccessKey != "" ==> r.s3AccessKey == MaskSensitiveField(d.s3AccessKey)
    ensures r.id == d.id && r.name == d.name && r.destType == d.destType && r.enabled == d.enabled
    ensures r.maxBackupCount == d.maxBackupCount && r.encrypted == d.encrypted
    ensures r.displayPath == GetDisplayPath(d) && r.typeLabel == GetTypeLabel(d)
  {
    var masked := if d.s3AccessKey != "" then MaskSensitiveField(d.s3AccessKey) else "";
    DestinationResponse(d.id, d.name, d.destType, d.localPath, d.webdavURL, d.webdavUsername,
      d.webdavPath, d.s3Endpoint, d.s3Region, d.s3Bucket, masked, d.s3Path, d.targetServerID,
      d.encrypted, d.maxBackupCount, d.enabled, GetDisplayPath(d), GetTypeLabel(d))
  }

  /** The response does not depend on the WebDAV password, the S3 secret key or the encryption password. */
  lemma ResponseHidesSecrets(d: BackupDestination, webdavPassword: string, s3SecretKey: string, encryptionPassword: string)
    ensures ToResponse(d.(webdavPassword := webdavPassword, s3SecretKey := s3SecretKey,
      encryptionPassword := encryptionPassword)) == ToResponse(d)
  {
  }

  /** Nor on the target server's credentials, which only its name and URL reach through the display path. */
  lemma ResponseHidesTargetCredentials(d: BackupDestination, clientID: string, clientSecret: string, masterPassword: string)
    requires d.targetServer.Some?
    ensures var t := d.targetServer.value;
      ToResponse(d.(targetServer := Some(t.(clientID := clientID, clientSecret := clientSecret,
        masterPassword := masterPassword)))) == ToResponse(d)
  {
  }
}
