/**
 * internal/database/response.go: the older response shapes of the database
 * package, which show masked secrets rather than dropping them. Timestamps are
 * not modelled.
 */
module DatabaseResponse {
  import opened Wrappers
  import ServerModel
  import DestinationModel

  datatype ServerConfigResponse = ServerConfigResponse(
    id: nat,
    name: string,
    serverURL: string,
    clientID: string,
    clientSecret: string,
    masterPassword: string,
    isOfficial: bool,
    enabled: bool)

  /** Has no S3 fields at all. */
  datatype BackupDestinationResponse = BackupDestinationResponse(
    id: nat,
    name: string,
    destType: string,
    typeLabel: string,
    displayPath: string,
    localPath: string,
    webdavURL: string,
    webdavUsername: string,
    webdavPassword: string,
    webdavPath: string,
    targetServerID: Option<nat>,
    encrypted: bool,
    encryptionPassword: string,
    enabled: bool)

  /** maskSensitive: "" stays "", short values become "****", longer ones keep four characters at each end. */
  function MaskSensitive(s: string): (r: string)
    ensures r == "" <==> s == ""
    ensures 0 < |s| <= 8 ==> r == "****"
    ensures |s| > 8 ==> |r| == 12 && r[..4] == s[..4] && r[4..8] == "****" && r[8..] == s[|s| - 4..]
  {
    if s == "" then ""
    else if |s| <= 8 then "****"
    else s[..4] + "****" + s[|s| - 4..]
  }

  /** Masking reveals only whether the value is empty, short or long, and the four characters at each end of a long one. */
  lemma MaskRevealsOnlyEnds(a: string, b: string)
    requires (a == "" && b == "") || (0 < |a| <= 8 && 0 < |b| <= 8)
      || (|a| > 8 && |b| > 8 && a[..4] == b[..4] && a[|a| - 4..] == b[|b| - 4..])
    ensures MaskSensitive(a) == MaskSensitive(b)
  {
  }

  /** The two masking functions agree on every non-empty value; only "" differs ("" versus "****"). */
  lemma MaskFunctionsAgree(s: string)
    ensures s != "" ==> MaskSensitive(s) == DestinationModel.MaskSensitiveField(s)
    ensures MaskSensitive("") == "" && DestinationModel.MaskSensitiveField("") == "****"
  {
  }

  function ServerConfigToResponse(s: ServerModel.ServerConfig): (r: ServerConfigResponse)
    ensures r.clientID == MaskSensitive(s.clientID) && r.clientSecret == MaskSensitive(s.clientSecret)
    ensures r.masterPassword == MaskSensitive(s.masterPassword)
    ensures r.id == s.id && r.name == s.name && r.serverURL == s.serverURL
    ensures r.isOfficial == s.isOfficial && r.enabled == s.enabled
  {
    ServerConfigResponse(s.id, s.name, s.serverURL, MaskSensitive(s.clientID),
      MaskSensitive(s.clientSecret), MaskSensitive(s.masterPassword), s.isOfficial, s.enabled)
  }

  /** getDestinationTypeInfo: the label and the display path. */
  function TypeInfo(d: DestinationModel.BackupDestination): (r: (string, string))
    ensures d.destType == "local" ==> r == ("本地存储", d.localPath)
    ensures d.destType == "webdav" ==> r == ("WebDAV", d.webdavURL + d.webdavPath)
    ensures d.destType == "s3" ==> r == ("S3 对象存储", "s3://" + d.s3Bucket + d.s3Path)
    ensures d.destType == "server" ==> r == ("目标服务器", "N/A")
    ensures d.destType !in {"local", "webdav", "s3", "server"} ==> r == (d.destType, "N/A")
  {
    match d.destType
    case "local" => ("本地存储", d.localPath)
    case "webdav" =>
      assert d.webdavURL + "" == d.webdavURL;
      var path := d.webdavURL;
      var path := if d.webdavPath != "" then path + d.webdavPath else path;
      ("WebDAV", path)
    case "s3" =>
      assert "s3://" + d.s3Bucket + "" == "s3://" + d.s3Bucket;
      var path := "s3://" + d.s3Bucket;
      var path := if d.s3Path != "" then path + d.s3Path else path;
      ("S3 对象存储", path)
    case "server" => ("目标服务器", "N/A")
    case _ => (d.destType, "N/A")
  }

  /**
   * For local, WebDAV and S3 destinations this display path equals the model's
   * GetDisplayPath; for server destinations and unknown types the two differ.
   */
  lemma DisplayPathsAgreeOnFileTypes(d: DestinationModel.BackupDestination)
    ensures d.destType in {"local", "webdav", "s3"} ==> TypeInfo(d).1 == DestinationModel.GetDisplayPath(d)
    ensures d.destType == "server" ==> TypeInfo(d).1 != DestinationModel.GetDisplayPath(d)
  {
    if d.destType == "server" {
      var p := DestinationModel.GetDisplayPath(d);
      if d.targetServer.Some? {
        var t := d.targetServer.value;
        assert p == t.name + " · " + t.serverURL;
        assert p[|t.name| + 1] == '·';
        assert '·' !in "N/A";
      }
    }
  }

  function BackupDestinationToResponse(d: DestinationModel.BackupDestination): (r: BackupDestinationResponse)
    ensures r.webdavPassword == MaskSensitive(d.webdavPassword)
    ensures r.encryptionPassword == MaskSensitive(d.encryptionPassword)
    ensures (r.typeLabel, r.displayPath) == TypeInfo(d)
    ensures r.id == d.id && r.name == d.name && r.destType == d.destType && r.enabled == d.enabled
  {
    var info := TypeInfo(d);
    BackupDestinationResponse(d.id, d.name, d.destType, info.0, info.1, d.localPath, d.webdavURL,
      d.webdavUsername, MaskSensitive(d.webdavPassword), d.webdavPath, d.targetServerID,
      d.encrypted, MaskSensitive(d.encryptionPassword), d.enabled)
  }

  /** The S3 access and secret keys never reach this response. */
  lemma DestinationResponseHidesS3Keys(d: DestinationModel.BackupDestination, accessKey: string, secretKey: string)
    ensures BackupDestinationToResponse(d.(s3AccessKey := accessKey, s3SecretKey := secretKey))
      == BackupDestinationToResponse(d)
  {
  }
}
