/**
 Envelope encryption of provider credentials: the versioned blob and its two key layers.

 AES-GCM and UTF-8 are parameters, with the laws stated in `Sound`; randomness is an argument.
 */
module Envelope {
  import opened Common
  import Scrub

  type byte = b: int | 0 <= b < 256
  type bytes = seq<byte>

  const MAGIC: bytes := [67, 66, 49]  // "CB1"
  const NONCE_SIZE := 12
  const GCM_TAG_SIZE := 16
  const DATA_KEY_SIZE := 32
  const HEADER_SIZE := 5

  // An authenticated cipher: seal and open take key, nonce and text.
  datatype Aead = Aead(seal: (bytes, bytes, bytes) -> bytes, open: (bytes, bytes, bytes) -> Option<bytes>)

  datatype Codec = Codec(encode: string -> bytes, decode: bytes -> Option<string>)

  ghost predicate SoundAead(a: Aead) {
    forall key: bytes, nonce: bytes, text: bytes ::
      a.open(key, nonce, a.seal(key, nonce, text)) == Some(text) && |a.seal(key, nonce, text)| == |text| + GCM_TAG_SIZE
  }

  ghost predicate SoundCodec(c: Codec) {
    forall s: string :: c.decode(c.encode(s)) == Some(s)
  }

  datatype Error = Truncated | UnknownVersion | KeyTooLarge | KeyTruncated | KeyCorrupt | Corrupt | NotText | BadMasterKey | KmsFailure

  // A key manager is the local one, with its master key, or a remote one known by what it unwraps.
  datatype KeyManager = Local(master: bytes) | Remote(unwrap: bytes -> Result<bytes, Error>)

  function LocalManager(master: bytes): Result<KeyManager, Error> {
    if |master| != DATA_KEY_SIZE then Err(BadMasterKey) else Ok(Local(master))
  }

  // What LocalKeyManager.generate_data_key returns beside the data key itself.
  function WrapKey(a: Aead, master: bytes, dataKey: bytes, nonce: bytes): bytes {
    nonce + a.seal(master, nonce, dataKey)
  }

  function UnwrapKey(a: Aead, km: KeyManager, wrapped: bytes): Result<bytes, Error> {
    match km
    case Remote(unwrap) => unwrap(wrapped)
    case Local(master) =>
      if |wrapped| < NONCE_SIZE + GCM_TAG_SIZE then Err(KeyTruncated)
      else
        match a.open(master, wrapped[..NONCE_SIZE], wrapped[NONCE_SIZE..])
        case None => Err(KeyCorrupt)
        case Some(key) => Ok(key)
  }

  function PackU16(n: nat): bytes
    requires n <= 0xFFFF
  {
    [n / 256, n % 256]
  }

  function UnpackU16(b: bytes, at: nat): nat
    requires at + 2 <= |b|
  {
    var hi: int, lo: int := b[at], b[at + 1];
    hi * 256 + lo
  }

  datatype Parts = Parts(wrappedKey: bytes, nonce: bytes, ciphertext: bytes)

  predicate WellFormed(p: Parts) {
    |p.wrappedKey| <= 0xFFFF && |p.nonce| == NONCE_SIZE && |p.ciphertext| >= GCM_TAG_SIZE
  }

  function Join(p: Parts): bytes
    requires |p.wrappedKey| <= 0xFFFF
  {
    MAGIC + PackU16(|p.wrappedKey|) + p.wrappedKey + p.nonce + p.ciphertext
  }

  // The structural checks of decrypt, and the split they license.
  function Split(blob: bytes): Result<Parts, Error> {
    if |blob| < HEADER_SIZE then Err(Truncated)
    else if blob[..|MAGIC|] != MAGIC then Err(UnknownVersion)
    else
      var bodyStart := HEADER_SIZE + UnpackU16(blob, |MAGIC|);
      if |blob| < bodyStart + NONCE_SIZE + GCM_TAG_SIZE then Err(Truncated)
      else Ok(Parts(blob[HEADER_SIZE..bodyStart], blob[bodyStart..bodyStart + NONCE_SIZE], blob[bodyStart + NONCE_SIZE..]))
  }

  function Encrypt(a: Aead, c: Codec, dataKey: bytes, wrapped: bytes, nonce: bytes, plaintext: string): Result<bytes, Error> {
    if |wrapped| > 0xFFFF then Err(KeyTooLarge)
    else Ok(Join(Parts(wrapped, nonce, a.seal(dataKey, nonce, c.encode(plaintext)))))
  }

  function Decrypt(a: Aead, c: Codec, km: KeyManager, blob: bytes): Result<string, Error> {
    match Split(blob)
    case Err(e) => Err(e)
    case Ok(parts) =>
      match UnwrapKey(a, km, parts.wrappedKey)
      case Err(e) => Err(e)
      case Ok(dataKey) =>
        match a.open(dataKey, parts.nonce, parts.ciphertext)
        case None => Err(Corrupt)
        case Some(text) =>
          match c.decode(text)
          case None => Err(NotText)
          case Some(plaintext) => Ok(plaintext)
  }

  /** The layout of a blob: "CB1", the length of the wrapped key in two bytes with the high byte first, the wrapped key, the nonce, the ciphertext. */
  lemma Layout(p: Parts)
    requires WellFormed(p)
    ensures
      var blob := Join(p);
      var start := 5 + |p.wrappedKey|;
      && |blob| == start + 12 + |p.ciphertext|
      && blob[..3] == ['C' as int, 'B' as int, '1' as int]
      && blob[3] as int * 256 + blob[4] as int == |p.wrappedKey|
      && blob[5..start] == p.wrappedKey
      && blob[start..start + 12] == p.nonce
      && blob[start + 12..] == p.ciphertext
  {
    var n := |p.wrappedKey|;
    assert n / 256 * 256 + n % 256 == n;
    var blob := Join(p);
    assert blob == MAGIC + (PackU16(n) + p.wrappedKey + p.nonce + p.ciphertext);
    assert blob[3] == n / 256 && blob[4] == n % 256;
  }

  /** Unique parse: a blob passes the structural checks exactly when it is the concatenation of well-formed parts, and the split finds those parts. */
  lemma SplitIffJoin(blob: bytes, p: Parts)
    ensures Split(blob) == Ok(p) <==> WellFormed(p) && Join(p) == blob
  {
    if WellFormed(p) && Join(p) == blob {
      Layout(p);
    }
    if Split(blob) == Ok(p) {
      var n := |p.wrappedKey|;
      assert n == UnpackU16(blob, |MAGIC|);
      assert PackU16(n) == blob[3..5] by {
        assert n / 256 == blob[3] && n % 256 == blob[4];
      }
      assert blob == blob[..3] + blob[3..5] + blob[5..5 + n] + blob[5 + n..5 + n + NONCE_SIZE] + blob[5 + n + NONCE_SIZE..];
    }
  }

  lemma PartsAreUnique(p: Parts, q: Parts)
    requires WellFormed(p) && WellFormed(q) && Join(p) == Join(q)
    ensures p == q
  {
    SplitIffJoin(Join(p), p);
    SplitIffJoin(Join(p), q);
  }

  /** The two structural errors: a blob of another version, and one too short for its header, for the key length it declares, a nonce and a tag. */
  lemma SplitRejects(blob: bytes)
    ensures Split(blob) == Err(UnknownVersion) <==> |blob| >= 5 && blob[..3] != ['C' as int, 'B' as int, '1' as int]
    ensures Split(blob) == Err(Truncated) <==>
            |blob| < 5 || (blob[..3] == ['C' as int, 'B' as int, '1' as int] && |blob| < 5 + (blob[3] as int * 256 + blob[4] as int) + 12 + 16)
    ensures Split(blob).Err? ==> Split(blob).error.UnknownVersion? || Split(blob).error.Truncated?
  {
  }

  /** A blob that is no concatenation of well-formed parts is rejected with the same error by every cipher and every key manager. */
  lemma MalformedIsRejectedUnopened(blob: bytes, a: Aead, c: Codec, km: KeyManager)
    requires forall p :: WellFormed(p) ==> Join(p) != blob
    ensures Split(blob).Err?
    ensures Decrypt(a, c, km, blob) == Err(Split(blob).error)
    ensures Split(blob).error.Truncated? || Split(blob).error.UnknownVersion?
  {
    if Split(blob).Ok? {
      SplitIffJoin(blob, Split(blob).value);
    }
  }

  // The manager gives this data key for a wrapped one: the local manager by opening it under its master key.
  ghost predicate Unwraps(a: Aead, km: KeyManager, wrapped: bytes, key: bytes) {
    match km
    case Remote(unwrap) => unwrap(wrapped) == Ok(key)
    case Local(master) =>
      && |wrapped| >= NONCE_SIZE + GCM_TAG_SIZE
      && a.open(master, wrapped[..NONCE_SIZE], wrapped[NONCE_SIZE..]) == Some(key)
  }

  // Both layers open: the wrapped key to a data key, and under it the ciphertext to the bytes of a text.
  ghost predicate Opens(a: Aead, c: Codec, km: KeyManager, p: Parts, key: bytes, text: bytes, plaintext: string) {
    && Unwraps(a, km, p.wrappedKey, key)
    && a.open(key, p.nonce, p.ciphertext) == Some(text)
    && c.decode(text) == Some(plaintext)
  }

  // The blob is made of parts that open to this text.
  ghost predicate OpensTo(a: Aead, c: Codec, km: KeyManager, blob: bytes, plaintext: string) {
    exists p: Parts, key: bytes, text: bytes :: WellFormed(p) && Join(p) == blob && Opens(a, c, km, p, key, text, plaintext)
  }

  /**
   Authentication: a blob decrypts to a text if and only if it is the concatenation of well-formed
   parts of which both layers open, to that text.  Everything else is an error: a malformed blob,
   a key the manager does not unwrap, a ciphertext the cipher rejects, bytes that are no text.
   */
  lemma DecryptsIffOpens(a: Aead, c: Codec, km: KeyManager, blob: bytes, plaintext: string)
    ensures Decrypt(a, c, km, blob) == Ok(plaintext) <==> OpensTo(a, c, km, blob, plaintext)
  {
    if Decrypt(a, c, km, blob) == Ok(plaintext) {
      var p := Split(blob).value;
      SplitIffJoin(blob, p);
      var key := UnwrapKey(a, km, p.wrappedKey).value;
      var text := a.open(key, p.nonce, p.ciphertext).value;
      assert Opens(a, c, km, p, key, text, plaintext);
    }
    if OpensTo(a, c, km, blob, plaintext) {
      var p: Parts, key: bytes, text: bytes :| WellFormed(p) && Join(p) == blob && Opens(a, c, km, p, key, text, plaintext);
      SplitIffJoin(blob, p);
    }
  }

  /** Round trip through both key layers, for any manager that unwraps the key it wrapped. */
  lemma DecryptInvertsEncrypt(a: Aead, c: Codec, km: KeyManager, dataKey: bytes, wrapped: bytes, nonce: bytes, plaintext: string)
    requires SoundAead(a) && SoundCodec(c) && |nonce| == NONCE_SIZE
    requires UnwrapKey(a, km, wrapped) == Ok(dataKey)
    ensures Encrypt(a, c, dataKey, wrapped, nonce, plaintext).Ok? <==> |wrapped| <= 0xFFFF
    ensures
      var blob := Encrypt(a, c, dataKey, wrapped, nonce, plaintext);
      blob.Ok? ==> Decrypt(a, c, km, blob.value) == Ok(plaintext)
  {
    if |wrapped| <= 0xFFFF {
      var sealed := a.seal(dataKey, nonce, c.encode(plaintext));
      assert |sealed| == |c.encode(plaintext)| + GCM_TAG_SIZE;
      var p := Parts(wrapped, nonce, sealed);
      SplitIffJoin(Join(p), p);
    }
  }

  /** A local key manager is built exactly for master keys of 32 bytes, and with it every string round-trips, whatever randomness is drawn. */
  lemma LocalRoundTrip(a: Aead, c: Codec, master: bytes, dataKey: bytes, keyNonce: bytes, nonce: bytes, plaintext: string)
    requires SoundAead(a) && SoundCodec(c)
    requires |dataKey| == DATA_KEY_SIZE && |keyNonce| == NONCE_SIZE && |nonce| == NONCE_SIZE
    ensures LocalManager(master).Ok? <==> |master| == 32
    ensures LocalManager(master).Ok? ==>
              var km := LocalManager(master).value;
              var blob := Encrypt(a, c, dataKey, WrapKey(a, master, dataKey, keyNonce), nonce, plaintext);
              && km == Local(master)
              && UnwrapKey(a, km, WrapKey(a, master, dataKey, keyNonce)) == Ok(dataKey)
              && blob.Ok? && Decrypt(a, c, km, blob.value) == Ok(plaintext)
  {
    var km := Local(master);
    var wrapped := WrapKey(a, master, dataKey, keyNonce);
    var sealed := a.seal(master, keyNonce, dataKey);
    assert |sealed| == |dataKey| + GCM_TAG_SIZE;
    assert wrapped[..NONCE_SIZE] == keyNonce && wrapped[NONCE_SIZE..] == sealed;
    DecryptInvertsEncrypt(a, c, km, dataKey, wrapped, nonce, plaintext);
  }

  /** The cipher with its side effect: every plaintext that passes through it joins the redaction registry. */
  class TokenCipher {
    const aead: Aead
    const codec: Codec
    const manager: KeyManager
    const registry: Scrub.Registry

    constructor (aead: Aead, codec: Codec, manager: KeyManager, registry: Scrub.Registry)
      ensures this.aead == aead && this.codec == codec && this.manager == manager && this.registry == registry
    {
      this.aead, this.codec, this.manager, this.registry := aead, codec, manager, registry;
    }

    // `dataKey`, `wrapped` and `nonce` are what the key manager and the random source provided.
    method EncryptToken(plaintext: string, dataKey: bytes, wrapped: bytes, nonce: bytes) returns (blob: Result<bytes, Error>)
      requires registry.Valid()
      modifies registry
      ensures registry.Valid() && blob == Encrypt(aead, codec, dataKey, wrapped, nonce, plaintext)
      ensures registry.secrets == old(registry.secrets) + Scrub.RegisteredBy(Scrub.Str(plaintext))
    {
      registry.RegisterSecret(Scrub.Str(plaintext));
      if |wrapped| > 0xFFFF {
        return Err(KeyTooLarge);
      }
      var ciphertext := aead.seal(dataKey, nonce, codec.encode(plaintext));
      blob := Ok(MAGIC + PackU16(|wrapped|) + wrapped + nonce + ciphertext);
    }

    method DecryptToken(blob: bytes) returns (plaintext: Result<string, Error>)
      requires registry.Valid()
      modifies registry
      ensures registry.Valid() && plaintext == Decrypt(aead, codec, manager, blob)
      ensures if plaintext.Ok? then OpensTo(aead, codec, manager, blob, plaintext.value) else forall s :: !OpensTo(aead, codec, manager, blob, s)
      ensures registry.secrets == old(registry.secrets) + if plaintext.Ok? then Scrub.RegisteredBy(Scrub.Str(plaintext.value)) else {}
    {
      plaintext := Decrypt(aead, codec, manager, blob);
      forall s ensures plaintext == Ok(s) <==> OpensTo(aead, codec, manager, blob, s) {
        DecryptsIffOpens(aead, codec, manager, blob, s);
      }
      if plaintext.Ok? {
        registry.RegisterSecret(Scrub.Str(plaintext.value));
      }
    }
  }
}
