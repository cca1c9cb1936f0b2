/**
 Refreshing a connected account's credential.

 The stored row is updated field by field in the session and committed at the end.  A failure
 that is handled part of the way leaves the fields already assigned in the session, where the
 commit of the audit row picks them up; an exception that is not handled takes them back by a
 rollback.  `Rotate` says what every refresh does to the session's row.
 */
module Refresh {
  import opened Common
  import opened Envelope
  import Scrub

  datatype Cred = Cred(access: bytes, refresh: Option<bytes>, expiresAt: Option<real>)

  // The token endpoint's answer; `Unreachable` is any transport error.
  datatype TokenReply =
    | Tokens(access: string, refresh: Option<string>, expiresIn: Option<int>)
    | Refused
    | Unreachable

  // What the key manager and the random source give one encryption.  `KeyManagerDown` is an
  // error the service handles, `KeyManagerBroken` an exception it does not.
  datatype Draw = Draw(dataKey: bytes, wrapped: bytes, nonce: bytes) | KeyManagerDown | KeyManagerBroken

  // `commits` is false when the commit at the end raises.
  datatype Rotation = Rotation(reply: TokenReply, first: Draw, second: Draw, now: real, commits: bool)

  datatype End = Fresh(token: string) | OAuthFailed | TransportFailed | CryptoFailed | Raised

  function SealWith(a: Aead, c: Codec, d: Draw, plaintext: string): Option<bytes> {
    if !d.Draw? then None
    else match Encrypt(a, c, d.dataKey, d.wrapped, d.nonce, plaintext)
      case Ok(blob) => Some(blob)
      case Err(_) => None
  }

  // How a refresh ends when an encryption with this draw does not succeed.
  function SealFailure(d: Draw): End {
    if d.KeyManagerBroken? then Raised else CryptoFailed
  }

  // The part of a refresh that follows an answer with tokens: its end, and what the row then holds.
  function Replaced(a: Aead, c: Codec, cred: Cred, r: Rotation): (End, Cred)
    requires cred.refresh.Some? && r.reply.Tokens?
  {
    match SealWith(a, c, r.first, r.reply.access)
    case None => (SealFailure(r.first), cred)
    case Some(blob) =>
      var rotated := if r.reply.refresh.None? then cred.refresh else SealWith(a, c, r.second, r.reply.refresh.value);
      if rotated.None? then (SealFailure(r.second), cred.(access := blob))
      else
        var after := Cred(blob, rotated, if r.reply.expiresIn.Some? then Some(r.now + r.reply.expiresIn.value as real) else None);
        (if r.commits then Fresh(r.reply.access) else Raised, after)
  }

  // The end of a refresh, and what the session's row then holds.
  function Rotate(a: Aead, c: Codec, km: KeyManager, cred: Cred, r: Rotation): (End, Cred)
    requires cred.refresh.Some?
  {
    if Decrypt(a, c, km, cred.refresh.value).Err? then (CryptoFailed, cred)
    else match r.reply
      case Refused => (OAuthFailed, cred)
      case Unreachable => (TransportFailed, cred)
      case Tokens(_, _, _) => Replaced(a, c, cred, r)
  }

  // What is stored for good once the invocation is over: a raised end is rolled back, any other is flushed.
  function Due(a: Aead, c: Codec, km: KeyManager, cred: Cred, r: Rotation): Cred
    requires cred.refresh.Some?
  {
    var (end, after) := Rotate(a, c, km, cred, r);
    if end.Raised? then cred else after
  }

  // The failing branch: the new access token is sealed, the rotated refresh token cannot be.
  predicate Torn(a: Aead, c: Codec, r: Rotation) {
    && r.reply.Tokens? && SealWith(a, c, r.first, r.reply.access).Some?
    && r.reply.refresh.Some? && SealWith(a, c, r.second, r.reply.refresh.value).None? && !r.second.KeyManagerBroken?
  }

  /**
   A failed refresh is not always without effect.  What it leaves is the credential as it was,
   unless the rotated refresh token cannot be sealed; then, and only then, the access token is
   the new one while the refresh token and the expiry remain the old ones.
   */
  lemma FailedRefreshChangesIffTorn(a: Aead, c: Codec, km: KeyManager, cred: Cred, r: Rotation)
    requires cred.refresh.Some? && !Rotate(a, c, km, cred, r).0.Fresh?
    ensures Due(a, c, km, cred, r) ==
            if Torn(a, c, r) && Decrypt(a, c, km, cred.refresh.value).Ok? then cred.(access := SealWith(a, c, r.first, r.reply.access).value) else cred
  {
  }

  /**
   A torn refresh is reported as failed and does change what is stored: the account then opens to
   the new access token, next to a refresh token the provider has replaced.
   */
  lemma TornRefreshSwitchesToken(a: Aead, c: Codec, km: KeyManager, cred: Cred, r: Rotation)
    requires SoundAead(a) && SoundCodec(c) && Honest(a, km, r.first) && Torn(a, c, r)
    requires cred.refresh.Some? && Decrypt(a, c, km, cred.refresh.value).Ok?
    requires Decrypt(a, c, km, cred.access) != Ok(r.reply.access)
    ensures Rotate(a, c, km, cred, r).0 == CryptoFailed
    ensures
      var after := Due(a, c, km, cred, r);
      && after != cred && Decrypt(a, c, km, after.access) == Ok(r.reply.access)
      && after.refresh == cred.refresh && after.expiresAt == cred.expiresAt
  {
    SealedOpens(a, c, km, r.first, r.reply.access);
  }

  /**
   Such a refresh, for every sound cipher under the local key manager and every draw of keys: the
   provider returns "new" and rotates the refresh token, and the key manager fails on the second
   encryption.  Had it raised an exception nobody handles, the row would be as before.
   */
  lemma TornRefreshHappens(a: Aead, c: Codec, master: bytes, dataKey: bytes, keyNonce: bytes, nonce: bytes) returns (cred: Cred, r: Rotation)
    requires SoundAead(a) && SoundCodec(c)
    requires |master| == |dataKey| == DATA_KEY_SIZE && |keyNonce| == |nonce| == NONCE_SIZE
    ensures r.reply == Tokens("new", Some("rotated"), Some(3600)) && r.second == KeyManagerDown
    ensures cred.refresh.Some? && Decrypt(a, c, Local(master), cred.access) == Ok("old")
    ensures Rotate(a, c, Local(master), cred, r).0 == CryptoFailed
    ensures Decrypt(a, c, Local(master), Due(a, c, Local(master), cred, r).access) == Ok("new")
    ensures Due(a, c, Local(master), cred, r).refresh == cred.refresh
    ensures Due(a, c, Local(master), cred, r.(second := KeyManagerBroken)) == cred
  {
    var km := Local(master);
    var wrapped := WrapKey(a, master, dataKey, keyNonce);
    LocalRoundTrip(a, c, master, dataKey, keyNonce, nonce, "old");
    LocalRoundTrip(a, c, master, dataKey, keyNonce, nonce, "token");
    LocalRoundTrip(a, c, master, dataKey, keyNonce, nonce, "new");
    var draw := Draw(dataKey, wrapped, nonce);
    cred := Cred(SealWith(a, c, draw, "old").value, SealWith(a, c, draw, "token"), None);
    r := Rotation(Tokens("new", Some("rotated"), Some(3600)), draw, KeyManagerDown, 0.0, true);
  }

  // A draw whose key the manager can unwrap again.
  ghost predicate Honest(a: Aead, km: KeyManager, d: Draw) {
    d.Draw? ==> |d.nonce| == NONCE_SIZE && UnwrapKey(a, km, d.wrapped) == Ok(d.dataKey)
  }

  lemma SealedOpens(a: Aead, c: Codec, km: KeyManager, d: Draw, plaintext: string)
    requires SoundAead(a) && SoundCodec(c) && Honest(a, km, d) && SealWith(a, c, d, plaintext).Some?
    ensures Decrypt(a, c, km, SealWith(a, c, d, plaintext).value) == Ok(plaintext)
  {
    DecryptInvertsEncrypt(a, c, km, d.dataKey, d.wrapped, d.nonce, plaintext);
  }

  // Both tokens the provider returned can be sealed.
  ghost predicate SealsAll(a: Aead, c: Codec, r: Rotation) {
    && r.reply.Tokens? && SealWith(a, c, r.first, r.reply.access).Some?
    && (r.reply.refresh.Some? ==> SealWith(a, c, r.second, r.reply.refresh.value).Some?)
  }

  // Some token the provider returned cannot be sealed, and this is the draw it was tried with.
  ghost predicate SealFails(a: Aead, c: Codec, r: Rotation, draw: Draw) {
    && r.reply.Tokens? && !SealsAll(a, c, r)
    && draw == if SealWith(a, c, r.first, r.reply.access).None? then r.first else r.second
  }

  // Why a refresh ends as it does.
  ghost predicate Caused(a: Aead, c: Codec, km: KeyManager, cred: Cred, r: Rotation, end: End)
    requires cred.refresh.Some?
  {
    var redeemable := exists s :: OpensTo(a, c, km, cred.refresh.value, s);
    match end
    case Fresh(token) => redeemable && SealsAll(a, c, r) && r.commits && token == r.reply.access
    case OAuthFailed => redeemable && r.reply.Refused?
    case TransportFailed => redeemable && r.reply.Unreachable?
    case CryptoFailed => !redeemable || exists draw :: SealFails(a, c, r, draw) && !draw.KeyManagerBroken?
    case Raised => redeemable && ((SealsAll(a, c, r) && !r.commits) || SealFails(a, c, r, KeyManagerBroken))
  }

  // What a successful refresh makes of the row: the refresh token changes only if the provider
  // rotated it, and the expiry is counted from the clock reading after the answer, if it is known.
  ghost predicate Renews(a: Aead, c: Codec, cred: Cred, r: Rotation, after: Cred) {
    && r.reply.Tokens?
    && Some(after.access) == SealWith(a, c, r.first, r.reply.access)
    && (r.reply.refresh.None? ==> after.refresh == cred.refresh)
    && (r.reply.refresh.Some? ==> after.refresh.Some? && after.refresh == SealWith(a, c, r.second, r.reply.refresh.value))
    && (r.reply.expiresIn.None? ==> after.expiresAt.None?)
    && (r.reply.expiresIn.Some? ==> after.expiresAt == Some(r.now + r.reply.expiresIn.value as real))
  }

  /** Each end of a refresh with its one cause, and what a success stores. */
  lemma RefreshExplained(a: Aead, c: Codec, km: KeyManager, cred: Cred, r: Rotation)
    requires cred.refresh.Some?
    ensures var end := Rotate(a, c, km, cred, r).0; Caused(a, c, km, cred, r, end) && (end.Fresh? ==> Renews(a, c, cred, r, Due(a, c, km, cred, r)))
  {
    forall s ensures Decrypt(a, c, km, cred.refresh.value) == Ok(s) <==> OpensTo(a, c, km, cred.refresh.value, s) {
      DecryptsIffOpens(a, c, km, cred.refresh.value, s);
    }
    if Decrypt(a, c, km, cred.refresh.value).Ok? && r.reply.Tokens? && !SealsAll(a, c, r) {
      var draw := if SealWith(a, c, r.first, r.reply.access).None? then r.first else r.second;
      assert SealFails(a, c, r, draw);
    }
  }

  /**
   After any refresh, failed or not, the stored tokens still open: the access token to the old or
   the new one, the refresh token to the old or the rotated one; after a successful one the access
   token opens to what was returned, and the refresh token is the old blob unless it was rotated.
   */
  lemma RefreshKeepsTokensReadable(a: Aead, c: Codec, km: KeyManager, cred: Cred, r: Rotation)
    requires SoundAead(a) && SoundCodec(c) && Honest(a, km, r.first) && Honest(a, km, r.second)
    requires cred.refresh.Some? && Decrypt(a, c, km, cred.access).Ok? && Decrypt(a, c, km, cred.refresh.value).Ok?
    ensures
      var end, after := Rotate(a, c, km, cred, r).0, Due(a, c, km, cred, r);
      && (after.access == cred.access || (r.reply.Tokens? && Decrypt(a, c, km, after.access) == Ok(r.reply.access)))
      && (after.refresh == cred.refresh ||
          (r.reply.Tokens? && r.reply.refresh.Some? && after.refresh.Some? && Decrypt(a, c, km, after.refresh.value) == Ok(r.reply.refresh.value)))
      && (end.Fresh? ==> Decrypt(a, c, km, after.access) == Ok(end.token))
      && (end.Fresh? && r.reply.refresh.None? ==> after.refresh == cred.refresh)
      && (end.Fresh? && r.reply.refresh.Some? ==> Decrypt(a, c, km, after.refresh.value) == Ok(r.reply.refresh.value))
  {
    if r.reply.Tokens? {
      if SealWith(a, c, r.first, r.reply.access).Some? {
        SealedOpens(a, c, km, r.first, r.reply.access);
      }
      if r.reply.refresh.Some? && SealWith(a, c, r.second, r.reply.refresh.value).Some? {
        SealedOpens(a, c, km, r.second, r.reply.refresh.value);
      }
    }
  }

  /** A connected account as a session holds it: the fields, and the row last committed. */
  class ConnectedAccount {
    const provider: string
    var access: bytes
    var refresh: Option<bytes>
    var expiresAt: Option<real>
    var saved: Cred

    constructor (provider: string, row: Cred)
      ensures this.provider == provider && Current() == row && saved == row
    {
      this.provider := provider;
      access, refresh, expiresAt, saved := row.access, row.refresh, row.expiresAt, row;
    }

    function Current(): Cred
      reads this
    {
      Cred(access, refresh, expiresAt)
    }

    method Commit()
      modifies this`saved
      ensures saved == Current()
    {
      saved := Cred(access, refresh, expiresAt);
    }

    method Rollback()
      modifies this
      ensures Current() == saved == old(saved)
    {
      access, refresh, expiresAt := saved.access, saved.refresh, saved.expiresAt;
    }
  }

  method Seal(cipher: TokenCipher, d: Draw, plaintext: string) returns (blob: Option<bytes>)
    requires cipher.registry.Valid()
    modifies cipher.registry
    ensures cipher.registry.Valid() && blob == SealWith(cipher.aead, cipher.codec, d, plaintext)
    ensures old(cipher.registry.secrets) + Scrub.RegisteredBy(Scrub.Str(plaintext)) == cipher.registry.secrets
  {
    match d
    case KeyManagerDown =>
      cipher.registry.RegisterSecret(Scrub.Str(plaintext));
      blob := None;
    case KeyManagerBroken =>
      cipher.registry.RegisterSecret(Scrub.Str(plaintext));
      blob := None;
    case Draw(dataKey, wrapped, nonce) =>
      var sealed := cipher.EncryptToken(plaintext, dataKey, wrapped, nonce);
      blob := match sealed case Ok(b) => Some(b) case Err(_) => None;
  }

  // Stores what the token endpoint returned, field by field, and commits the row at the end.
  method StoreTokens(cipher: TokenCipher, account: ConnectedAccount, r: Rotation) returns (end: End)
    requires cipher.registry.Valid() && r.reply.Tokens? && account.refresh.Some?
    modifies cipher.registry, account
    ensures cipher.registry.Valid() && old(cipher.registry.secrets) <= cipher.registry.secrets
    ensures (end, account.Current()) == Replaced(cipher.aead, cipher.codec, old(account.Current()), r)
    ensures account.saved == if end.Fresh? then account.Current() else old(account.saved)
    ensures end.Fresh? ==> Scrub.RegisteredBy(Scrub.Str(end.token)) <= cipher.registry.secrets
  {
    var sealed := Seal(cipher, r.first, r.reply.access);
    if sealed.None? {
      return SealFailure(r.first);
    }
    account.access := sealed.value;
    if r.reply.refresh.Some? {
      var rotated := Seal(cipher, r.second, r.reply.refresh.value);
      if rotated.None? {
        return SealFailure(r.second);
      }
      account.refresh := rotated;
    }
    account.expiresAt := if r.reply.expiresIn.Some? then Some(r.now + r.reply.expiresIn.value as real) else None;
    if !r.commits {
      return Raised;
    }
    account.Commit();
    return Fresh(r.reply.access);
  }

  /** Redeems the stored refresh token; the row is committed only when everything succeeded. */
  method RefreshCredential(cipher: TokenCipher, account: ConnectedAccount, r: Rotation) returns (end: End)
    requires cipher.registry.Valid() && account.refresh.Some?
    modifies cipher.registry, account
    ensures cipher.registry.Valid() && old(cipher.registry.secrets) <= cipher.registry.secrets
    ensures (end, account.Current()) == Rotate(cipher.aead, cipher.codec, cipher.manager, old(account.Current()), r)
    ensures account.saved == if end.Fresh? then account.Current() else old(account.saved)
    ensures Caused(cipher.aead, cipher.codec, cipher.manager, old(account.Current()), r, end)
    ensures end.Fresh? ==> Renews(cipher.aead, cipher.codec, old(account.Current()), r, account.Current())
    ensures end.Fresh? ==> Scrub.RegisteredBy(Scrub.Str(end.token)) <= cipher.registry.secrets
  {
    RefreshExplained(cipher.aead, cipher.codec, cipher.manager, account.Current(), r);
    var redeemed := cipher.DecryptToken(account.refresh.value);
    if redeemed.Err? {
      return CryptoFailed;
    }
    match r.reply
    case Refused => return OAuthFailed;
    case Unreachable => return TransportFailed;
    case Tokens(_, _, _) => end := StoreTokens(cipher, account, r);
  }

  /** A database session: the one row it changes in place. */
  class Session {
    var account: ConnectedAccount?

    constructor ()
      ensures account == null
    {
      account := null;
    }

    // The row holds this credential, with nothing pending.
    ghost predicate Holds(provider: string, cred: Cred)
      reads this, account
    {
      account != null && account.provider == provider && account.Current() == account.saved == cred
    }

    // After an exception a rollback leaves what is due, otherwise a flush does; no row is loaded if nothing is due.
    ghost predicate Leaves(due: Option<Cred>, raised: bool)
      reads this, account
    {
      if due.None? then account == null
      else account != null && due.value == if raised then account.saved else account.Current()
    }

    // The row and its last commit agree on what is due.
    ghost predicate Settled(due: Option<Cred>)
      reads this, account
    {
      Leaves(due, false) && Leaves(due, true)
    }

    method Open(provider: string, row: Cred)
      modifies this
      ensures fresh(account) && Holds(provider, row)
    {
      account := new ConnectedAccount(provider, row);
    }

    // The refresh of the session's row; unless it succeeds, the row may be left with pending changes.
    method Redeem(cipher: TokenCipher, ghost cred: Cred, r: Rotation) returns (end: End)
      requires cipher.registry.Valid() && account != null && Holds(account.provider, cred) && cred.refresh.Some?
      modifies account, cipher.registry
      ensures cipher.registry.Valid()
      ensures end == Rotate(cipher.aead, cipher.codec, cipher.manager, cred, r).0
      ensures
        var due := Some(Due(cipher.aead, cipher.codec, cipher.manager, cred, r));
        Leaves(due, end.Raised?) && (end.Fresh? ==> Settled(due))
    {
      end := RefreshCredential(cipher, account, r);
    }
  }
}
