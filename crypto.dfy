/**
 * internal/crypto/crypto.go: field encryption with AES-256-GCM behind the
 * "enc:v1:" prefix. The cipher, base64 and the random source are abstract: a
 * `Primitives` value supplies them, and `Lawful` states the only facts the
 * framing relies on (Open inverts Seal, decoding inverts encoding, the random
 * source yields a full nonce).
 */
module Crypto {
  import opened Wrappers
  import opened Strings

  /** Raw bytes; the model uses one character per byte. */
  type Bytes = seq<char>

  const EncryptedPrefix: string := "enc:v1:"

  datatype CryptoError =
    | KeyNotSet            // ErrEncryptionKeyNotSet
    | InvalidCiphertext    // ErrInvalidCiphertext
    | RandomSourceFailed   // io.ReadFull(rand.Reader, nonce) failed
    | Base64Error          // base64.StdEncoding.DecodeString failed
    | OpenFailed           // gcm.Open rejected the tag

  datatype Primitives = Primitives(
    nonceSize: nat,
    /** gcm.Seal(nil, nonce, plaintext, nil) under a key: ciphertext and tag. */
    seal: (Bytes, Bytes, Bytes) -> Bytes,
    /** gcm.Open(nil, nonce, sealed, nil) under a key. */
    open: (Bytes, Bytes, Bytes) -> Option<Bytes>,
    /** base64.StdEncoding.EncodeToString / DecodeString. */
    encode: Bytes -> string,
    decode: string -> Option<Bytes>,
    /** What rand.Reader yields when a nonce is drawn to encrypt this plaintext; None is a read error. */
    drawNonce: Bytes -> Option<Bytes>)

  ghost predicate Lawful(p: Primitives) {
    && (forall k, n, m :: p.open(k, n, p.seal(k, n, m)) == Some(m))
    && (forall b :: p.decode(p.encode(b)) == Some(b))
    && (forall m :: p.drawNonce(m).Some? ==> |p.drawNonce(m).value| == p.nonceSize)
  }

  /** The global encryption key with the primitives it is used with; an empty key is "not set". */
  datatype Keyring = Keyring(key: Bytes, prims: Primitives)

  predicate KeySet(kr: Keyring) { |kr.key| > 0 }

  /** IsEncrypted: the prefix marks a value as already encrypted. */
  predicate IsEncrypted(s: string) {
    HasPrefix(s, EncryptedPrefix)
  }

  /** Encrypt: the key check first, then "" stays "", otherwise prefix + base64(nonce ‖ sealed). */
  function Encrypt(kr: Keyring, plaintext: string): (r: Result<string, CryptoError>)
    ensures !KeySet(kr) ==> r == Err(KeyNotSet)
    ensures KeySet(kr) && plaintext == "" ==> r == Ok("")
    ensures r.Ok? && plaintext != "" ==> IsEncrypted(r.value)
    ensures r.Err? ==> r.error == KeyNotSet || r.error == RandomSourceFailed
    ensures KeySet(kr) && plaintext != "" ==> (r.Ok? <==> kr.prims.drawNonce(plaintext).Some?)
  {
    if !KeySet(kr) then Err(KeyNotSet)
    else if plaintext == "" then Ok("")
    else match kr.prims.drawNonce(plaintext)
      case None => Err(RandomSourceFailed)
      case Some(nonce) =>
        var sealed := nonce + kr.prims.seal(kr.key, nonce, plaintext);
        Ok(EncryptedPrefix + kr.prims.encode(sealed))
  }

  /** The text Decrypt hands to base64: the prefix is dropped when present; unprefixed legacy text is used as is. */
  function EncodedPart(ciphertext: string): (r: string)
    ensures IsEncrypted(ciphertext) ==> ciphertext == EncryptedPrefix + r
    ensures !IsEncrypted(ciphertext) ==> r == ciphertext
  {
    if HasPrefix(ciphertext, EncryptedPrefix) then TrimPrefix(ciphertext, EncryptedPrefix) else ciphertext
  }

  /** Decrypt: the key check first, then "" stays "", otherwise decode, split at the nonce size and open. */
  function Decrypt(kr: Keyring, ciphertext: string): (r: Result<string, CryptoError>)
    ensures !KeySet(kr) ==> r == Err(KeyNotSet)
    ensures KeySet(kr) && ciphertext == "" ==> r == Ok("")
    ensures KeySet(kr) && ciphertext != "" ==>
      match kr.prims.decode(EncodedPart(ciphertext))
        case None => r == Err(Base64Error)
        case Some(data) =>
          if |data| < kr.prims.nonceSize then r == Err(InvalidCiphertext)
          else r.Ok? <==> kr.prims.open(kr.key, data[..kr.prims.nonceSize], data[kr.prims.nonceSize..]).Some?
  {
    if !KeySet(kr) then Err(KeyNotSet)
    else if ciphertext == "" then Ok("")
    else
      var encoded := EncodedPart(ciphertext);
      match kr.prims.decode(encoded)
        case None => Err(Base64Error)
        case Some(data) =>
          var n := kr.prims.nonceSize;
          if |data| < n then Err(InvalidCiphertext)
          else
            var nonce, cipherData := data[..n], data[n..];
            match kr.prims.open(kr.key, nonce, cipherData)
              case None => Err(OpenFailed)
              case Some(plaintext) => Ok(plaintext)
  }

  /** Decrypting what Encrypt produced gives the plaintext back, under the same key and lawful primitives. */
  lemma DecryptEncrypt(kr: Keyring, plaintext: string)
    requires Lawful(kr.prims)
    requires Encrypt(kr, plaintext).Ok?
    ensures Decrypt(kr, Encrypt(kr, plaintext).value) == Ok(plaintext)
  {
    if plaintext != "" {
      var p := kr.prims;
      var nonce := p.drawNonce(plaintext).value;
      var sealed := p.seal(kr.key, nonce, plaintext);
      var c := Encrypt(kr, plaintext).value;
      assert c == EncryptedPrefix + p.encode(nonce + sealed);
      assert EncodedPart(c) == p.encode(nonce + sealed);
      assert p.decode(p.encode(nonce + sealed)) == Some(nonce + sealed);
      var data := nonce + sealed;
      assert |nonce| == p.nonceSize;
      assert data[..p.nonceSize] == nonce && data[p.nonceSize..] == sealed;
      assert p.open(kr.key, nonce, sealed) == Some(plaintext);
    }
  }

  /** The prefix is optional for Decrypt: a prefixed payload decrypts as the bare payload does. */
  lemma PrefixIsOptional(kr: Keyring, payload: string)
    requires payload != "" && !IsEncrypted(payload)
    ensures Decrypt(kr, EncryptedPrefix + payload) == Decrypt(kr, payload)
  {
    var c := EncryptedPrefix + payload;
    assert c[..|EncryptedPrefix|] == EncryptedPrefix;
    assert IsEncrypted(c);
    assert EncodedPart(c) == payload;
  }
}
