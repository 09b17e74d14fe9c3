/**
 * internal/provider/registry.go and interface.go: the type-keyed registry of backup
 * providers and the context a backup is given. A provider is identified by its kind;
 * what it does is modelled in the per-provider modules.
 */
module ProviderRegistry {
  import opened Wrappers
  import DestinationModel

  /** The four built-in providers. */
  datatype Kind = LocalKind | WebDAVKind | ServerKind | S3Kind

  /** Type(): the key each provider is registered under. */
  function TypeName(k: Kind): (r: string)
    ensures r in {"local", "webdav", "server", "s3"}
  {
    match k
    case LocalKind => "local"
    case WebDAVKind => "webdav"
    case ServerKind => "server"
    case S3Kind => "s3"
  }

  /** No two providers share a key. */
  lemma TypeNamesDistinct(k1: Kind, k2: Kind)
    ensures TypeName(k1) == TypeName(k2) <==> k1 == k2
  {
  }

  /** The providers that also implement RetentionProvider (Cleanup): all but the server provider. */
  predicate HasRetention(k: Kind) {
    k != ServerKind
  }

  /** BackupContext: what a provider's Backup receives. */
  datatype BackupContext = BackupContext(sourceFile: string, taskName: string, timestamp: string,
                                         destination: DestinationModel.BackupDestination)

  /** The lookup Get performs. */
  function Lookup(providers: map<string, Kind>, providerType: string): (r: Result<Kind, string>)
    ensures r.Ok? <==> providerType in providers
    ensures r.Err? ==> r.error == "unknown provider type: " + providerType
  {
    if providerType in providers then Ok(providers[providerType]) else Err("unknown provider type: " + providerType)
  }

  /** After registering a provider, looking up its type finds it, and every other type is looked up as before. */
  lemma LookupAfterRegister(providers: map<string, Kind>, k: Kind, t: string)
    ensures Lookup(providers[TypeName(k) := k], TypeName(k)) == Ok(k)
    ensures t != TypeName(k) ==> Lookup(providers[TypeName(k) := k], t) == Lookup(providers, t)
  {
  }

  /** The default registry: the four built-in providers under their own types. */
  function DefaultProviders(): (m: map<string, Kind>)
    ensures m.Keys == {"local", "webdav", "server", "s3"}
    ensures forall t :: t in m ==> TypeName(m[t]) == t
  {
    map["local" := LocalKind, "webdav" := WebDAVKind, "server" := ServerKind, "s3" := S3Kind]
  }

  /** Every kind of provider is in the default registry. */
  lemma DefaultHasEveryKind(k: Kind)
    ensures Lookup(DefaultProviders(), TypeName(k)) == Ok(k)
  {
  }

  class Registry {
    var providers: map<string, Kind>

    constructor ()
      ensures providers == map[]
    {
      providers := map[];
    }

    /** Register: store the provider under its type, replacing any earlier one. */
    method Register(p: Kind)
      modifies this
      ensures providers == old(providers)[TypeName(p) := p]
    {
      providers := providers[TypeName(p) := p];
    }

    /** Get: the registered provider, or "unknown provider type: <t>". */
    method Get(providerType: string) returns (r: Result<Kind, string>)
      ensures r == Lookup(providers, providerType)
    {
      if providerType !in providers {
        return Err("unknown provider type: " + providerType);
      }
      r := Ok(providers[providerType]);
    }

    /** Types: every registered key exactly once, in the map's (unspecified) iteration order. */
    method Types() returns (types: seq<string>)
      ensures |types| == |providers|
      ensures forall t :: t in types <==> t in providers
      ensures forall i, j :: 0 <= i < j < |types| ==> types[i] != types[j]
    {
      types := [];
      var remaining := providers.Keys;
      while remaining != {}
        invariant remaining <= providers.Keys
        invariant forall t :: t in types <==> t in providers && t !in remaining
        invariant forall i, j :: 0 <= i < j < |types| ==> types[i] != types[j]
        invariant |types| + |remaining| == |providers.Keys|
        decreases remaining
      {
        var t :| t in remaining;
        types := types + [t];
        remaining := remaining - {t};
      }
    }
  }

  /** GetRegistry's first call: a registry holding the four built-in providers. */
  method NewDefaultRegistry() returns (r: Registry)
    ensures fresh(r)
    ensures r.providers == DefaultProviders()
  {
    r := new Registry();
    r.Register(LocalKind);
    r.Register(WebDAVKind);
    r.Register(ServerKind);
    r.Register(S3Kind);
  }
}
