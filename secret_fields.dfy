/**
 * The field-by-field pattern shared by the GORM hooks of internal/model/server.go
 * and internal/model/destination.go. BeforeSave visits the secret fields in
 * declaration order and encrypts each one that is non-empty and not yet
 * prefixed; AfterFind decrypts each non-empty one. Both stop at the first error
 * and leave the fields after it as they were.
 */
module SecretFields {
  import opened Wrappers
  import opened Crypto

  /** BeforeSave's test: a value is encrypted only when it is non-empty and not yet prefixed. */
  predicate NeedsSealing(v: string) {
    v != "" && !IsEncrypted(v)
  }

  /** One field of BeforeSave. */
  function SealOne(kr: Keyring, v: string): (r: Result<string, CryptoError>)
    ensures !NeedsSealing(v) ==> r == Ok(v)
    ensures r.Ok? ==> !NeedsSealing(r.value)
  {
    if NeedsSealing(v) then Encrypt(kr, v) else Ok(v)
  }

  /** One field of AfterFind. */
  function OpenOne(kr: Keyring, v: string): (r: Result<string, CryptoError>)
    ensures v == "" ==> r == Ok("")
  {
    if v != "" then Decrypt(kr, v) else Ok(v)
  }

  /** One `if v != "" && !IsEncrypted(v) { v, err = Encrypt(v) }` block of BeforeSave. */
  method SealField(kr: Keyring, v: string) returns (nv: string, err: Option<CryptoError>)
    ensures err.None? <==> SealOne(kr, v).Ok?
    ensures err.None? ==> SealOne(kr, v) == Ok(nv)
    ensures err.Some? ==> SealOne(kr, v) == Err(err.value)
  {
    nv := v;
    err := None;
    if v != "" && !IsEncrypted(v) {
      var e := Encrypt(kr, v);
      if e.Err? {
        err := Some(e.error);
        return;
      }
      nv := e.value;
    }
  }

  /** One `if v != "" { v, err = Decrypt(v) }` block of AfterFind. */
  method OpenField(kr: Keyring, v: string) returns (nv: string, err: Option<CryptoError>)
    ensures err.None? <==> OpenOne(kr, v).Ok?
    ensures err.None? ==> OpenOne(kr, v) == Ok(nv)
    ensures err.Some? ==> OpenOne(kr, v) == Err(err.value)
  {
    nv := v;
    err := None;
    if v != "" {
      var x := Decrypt(kr, v);
      if x.Err? {
        err := Some(x.error);
        return;
      }
      nv := x.value;
    }
  }

  /** The fields after a hook ran, and the error it returned (None for nil). */
  datatype Outcome = Outcome(values: seq<string>, err: Option<CryptoError>)

  /** BeforeSave over the secret fields in order. */
  function SealFields(kr: Keyring, vs: seq<string>): (r: Outcome)
    ensures |r.values| == |vs|
  {
    if vs == [] then Outcome([], None)
    else match SealOne(kr, vs[0])
      case Err(e) => Outcome(vs, Some(e))
      case Ok(v) =>
        var rest := SealFields(kr, vs[1..]);
        Outcome([v] + rest.values, rest.err)
  }

  /**
   * BeforeSave succeeds iff every field it visits can be sealed; it then holds each
   * field's sealed form, and a field that needed nothing is never changed.
   */
  lemma {:induction false} SealFieldsMeaning(kr: Keyring, vs: seq<string>)
    ensures SealFields(kr, vs).err.None? <==> forall i :: 0 <= i < |vs| ==> SealOne(kr, vs[i]).Ok?
    ensures SealFields(kr, vs).err.None? ==>
      forall i :: 0 <= i < |vs| ==> SealOne(kr, vs[i]) == Ok(SealFields(kr, vs).values[i])
    ensures forall i :: 0 <= i < |vs| && !NeedsSealing(vs[i]) ==> SealFields(kr, vs).values[i] == vs[i]
  {
    if vs != [] {
      SealFieldsMeaning(kr, vs[1..]);
      assert forall i :: 1 <= i < |vs| ==> vs[i] == vs[1..][i - 1];
    }
  }

  /** AfterFind over the secret fields in order. */
  function OpenFields(kr: Keyring, vs: seq<string>): (r: Outcome)
    ensures |r.values| == |vs|
  {
    if vs == [] then Outcome([], None)
    else match OpenOne(kr, vs[0])
      case Err(e) => Outcome(vs, Some(e))
      case Ok(v) =>
        var rest := OpenFields(kr, vs[1..]);
        Outcome([v] + rest.values, rest.err)
  }

  /** AfterFind succeeds iff every field can be opened; it then holds each opened value; empty fields stay empty. */
  lemma {:induction false} OpenFieldsMeaning(kr: Keyring, vs: seq<string>)
    ensures OpenFields(kr, vs).err.None? <==> forall i :: 0 <= i < |vs| ==> OpenOne(kr, vs[i]).Ok?
    ensures OpenFields(kr, vs).err.None? ==>
      forall i :: 0 <= i < |vs| ==> OpenOne(kr, vs[i]) == Ok(OpenFields(kr, vs).values[i])
    ensures forall i :: 0 <= i < |vs| && vs[i] == "" ==> OpenFields(kr, vs).values[i] == ""
  {
    if vs != [] {
      OpenFieldsMeaning(kr, vs[1..]);
      assert forall i :: 1 <= i < |vs| ==> vs[i] == vs[1..][i - 1];
    }
  }

  /** SealFields on one field followed by the rest, written out. */
  lemma SealFieldsStep(kr: Keyring, v: string, rest: seq<string>)
    ensures SealFields(kr, [v] + rest) ==
      if SealOne(kr, v).Err? then Outcome([v] + rest, Some(SealOne(kr, v).error))
      else Outcome([SealOne(kr, v).value] + SealFields(kr, rest).values, SealFields(kr, rest).err)
  {
    assert ([v] + rest)[1..] == rest;
  }

  /** OpenFields on one field followed by the rest, written out. */
  lemma OpenFieldsStep(kr: Keyring, v: string, rest: seq<string>)
    ensures OpenFields(kr, [v] + rest) ==
      if OpenOne(kr, v).Err? then Outcome([v] + rest, Some(OpenOne(kr, v).error))
      else Outcome([OpenOne(kr, v).value] + OpenFields(kr, rest).values, OpenFields(kr, rest).err)
  {
    assert ([v] + rest)[1..] == rest;
  }

  /** SealFields on exactly four fields, unrolled. */
  lemma SealFour(kr: Keyring, a: string, b: string, c: string, d: string)
    ensures SealFields(kr, [a, b, c, d]) ==
      if SealOne(kr, a).Err? then Outcome([a, b, c, d], Some(SealOne(kr, a).error))
      else if SealOne(kr, b).Err? then Outcome([SealOne(kr, a).value, b, c, d], Some(SealOne(kr, b).error))
      else if SealOne(kr, c).Err? then
        Outcome([SealOne(kr, a).value, SealOne(kr, b).value, c, d], Some(SealOne(kr, c).error))
      else if SealOne(kr, d).Err? then
        Outcome([SealOne(kr, a).value, SealOne(kr, b).value, SealOne(kr, c).value, d], Some(SealOne(kr, d).error))
      else Outcome([SealOne(kr, a).value, SealOne(kr, b).value, SealOne(kr, c).value, SealOne(kr, d).value], None)
  {
    SealFieldsStep(kr, a, [b, c, d]);
    SealFieldsStep(kr, b, [c, d]);
    SealFieldsStep(kr, c, [d]);
    SealFieldsStep(kr, d, []);
  }

  /** OpenFields on exactly four fields, unrolled. */
  lemma OpenFour(kr: Keyring, a: string, b: string, c: string, d: string)
    ensures OpenFields(kr, [a, b, c, d]) ==
      if OpenOne(kr, a).Err? then Outcome([a, b, c, d], Some(OpenOne(kr, a).error))
      else if OpenOne(kr, b).Err? then Outcome([OpenOne(kr, a).value, b, c, d], Some(OpenOne(kr, b).error))
      else if OpenOne(kr, c).Err? then
        Outcome([OpenOne(kr, a).value, OpenOne(kr, b).value, c, d], Some(OpenOne(kr, c).error))
      else if OpenOne(kr, d).Err? then
        Outcome([OpenOne(kr, a).value, OpenOne(kr, b).value, OpenOne(kr, c).value, d], Some(OpenOne(kr, d).error))
      else Outcome([OpenOne(kr, a).value, OpenOne(kr, b).value, OpenOne(kr, c).value, OpenOne(kr, d).value], None)
  {
    OpenFieldsStep(kr, a, [b, c, d]);
    OpenFieldsStep(kr, b, [c, d]);
    OpenFieldsStep(kr, c, [d]);
    OpenFieldsStep(kr, d, []);
  }

  /**
   * When field k is the first whose encryption fails, the hook returns that error,
   * the fields before k are encrypted and k and everything after it is unchanged.
   */
  lemma {:induction false} SealFieldsStopsAtFirstError(kr: Keyring, vs: seq<string>, k: nat)
    requires k < |vs| && SealOne(kr, vs[k]).Err?
    requires forall i :: 0 <= i < k ==> SealOne(kr, vs[i]).Ok?
    ensures SealFields(kr, vs).err == Some(SealOne(kr, vs[k]).error)
    ensures forall i :: 0 <= i < k ==> SealOne(kr, vs[i]) == Ok(SealFields(kr, vs).values[i])
    ensures SealFields(kr, vs).values[k..] == vs[k..]
    decreases k
  {
    if k > 0 {
      assert SealOne(kr, vs[0]).Ok?;
      SealFieldsStopsAtFirstError(kr, vs[1..], k - 1);
      var rest := SealFields(kr, vs[1..]);
      assert SealFields(kr, vs).values == [SealOne(kr, vs[0]).value] + rest.values;
      forall i | 1 <= i < k
        ensures SealOne(kr, vs[i]) == Ok(SealFields(kr, vs).values[i])
      {
        assert vs[i] == vs[1..][i - 1];
      }
      assert SealFields(kr, vs).values[k..] == rest.values[k - 1..];
      assert vs[1..][k - 1..] == vs[k..];
    }
  }

  /** Saving a second time changes nothing: every secret is already empty or prefixed. */
  lemma {:induction false} SealFieldsIdempotent(kr: Keyring, vs: seq<string>)
    requires SealFields(kr, vs).err.None?
    ensures SealFields(kr, SealFields(kr, vs).values) == SealFields(kr, vs)
  {
    var once := SealFields(kr, vs).values;
    if vs != [] {
      SealFieldsIdempotent(kr, vs[1..]);
      assert once == [SealOne(kr, vs[0]).value] + SealFields(kr, vs[1..]).values;
      assert once[1..] == SealFields(kr, vs[1..]).values;
    }
  }

  /**
   * Loading what was saved gives the original secrets back, provided none of them
   * already looked encrypted (a plaintext starting with "enc:v1:" is stored as is,
   * and AfterFind would then try to decrypt it).
   */
  lemma {:induction false} OpenSealRoundTrip(kr: Keyring, vs: seq<string>)
    requires Lawful(kr.prims)
    requires SealFields(kr, vs).err.None?
    requires forall i :: 0 <= i < |vs| ==> !IsEncrypted(vs[i])
    ensures OpenFields(kr, SealFields(kr, vs).values) == Outcome(vs, None)
  {
    if vs != [] {
      var once := SealFields(kr, vs).values;
      if vs[0] != "" {
        DecryptEncrypt(kr, vs[0]);
      }
      assert OpenOne(kr, once[0]) == Ok(vs[0]);
      OpenSealRoundTrip(kr, vs[1..]);
      assert once[1..] == SealFields(kr, vs[1..]).values;
      assert vs == [vs[0]] + vs[1..];
    }
  }
}
