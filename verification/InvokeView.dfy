/**
 What an invocation sees: the shared stores at one moment, and which observations of them are
 truthful.  The service's method makes only truthful observations of the stores its awaits
 find; `InvokeRuns` lets any number of invocations make them of one evolving state.
 */
module InvokeView {
  import opened Common
  import opened InvokePath
  import E = Envelope
  import F = Refresh
  import GrantToken
  import G = Grants
  import I = Idempotency
  import L = RateLimiter
  import Redis

  // The shared stores at one moment.
  datatype Stores = Stores(now: real, space: Redis.Space, grants: map<string, G.Row>,
                           accounts: map<string, G.Account>, creds: map<string, F.Cred>)

  // The settings an invocation reads, and the cipher of the stored tokens.
  datatype Desk = Desk(signer: GrantToken.Signer, issuer: string, invokesPerMinute: int, window: int,
                       aead: E.Aead, codec: E.Codec, manager: E.KeyManager)

  predicate Names(f: Found, hash: string, grants: map<string, G.Row>) {
    f.id in grants && grants[f.id] == f.row && f.row.hash == hash
  }

  ghost predicate FindsRow(row: Option<Found>, hash: string, grants: map<string, G.Row>) {
    match row
    case None => forall id :: id in grants ==> grants[id].hash != hash
    case Some(f) => Names(f, hash, grants)
  }

  // Whether a check that read the clock at `read` is allowed when its INCR reaches the server.
  function AllowedNow(d: Desk, s: Stores, agent: string, read: real): bool {
    Redis.CountAt(s.space, s.now, Redis.CounterName("invoke:" + agent, L.WindowOf(read, 60))) < d.invokesPerMinute
  }

  predicate RevokedNow(grants: map<string, G.Row>, id: string) {
    id !in grants || grants[id].revokedAt.Some?
  }

  predicate HasAccount(s: Stores, id: string) {
    id in s.accounts && id in s.creds
  }

  // What the stored blob decrypts to, if it does.
  function Opened(d: Desk, blob: E.bytes): Option<string> {
    match E.Decrypt(d.aead, d.codec, d.manager, blob)
    case Ok(plain) => Some(plain)
    case Err(_) => None
  }

  lemma OpenedIff(d: Desk, blob: E.bytes)
    ensures if Opened(d, blob).Some? then E.OpensTo(d.aead, d.codec, d.manager, blob, Opened(d, blob).value)
            else forall s :: !E.OpensTo(d.aead, d.codec, d.manager, blob, s)
  {
    forall s ensures Opened(d, blob) == Some(s) <==> E.OpensTo(d.aead, d.codec, d.manager, blob, s) {
      E.DecryptsIffOpens(d.aead, d.codec, d.manager, blob, s);
    }
  }

  // What a path has done with an account: loaded it, and refreshed its credential.
  datatype Handled = Handled(account: Option<Account>, rotation: Option<F.Rotation>)

  function Handling(h: Handled, a: Act): Handled {
    match a
    case LoadAccount(_, account) => Handled(account, None)
    case Refresh(_, _, rotation, _) => h.(rotation := Some(rotation))
    case _ => h
  }

  function HandledIn(acts: seq<Act>): Handled {
    if acts == [] then Handled(None, None) else Handling(HandledIn(acts[..|acts| - 1]), acts[|acts| - 1])
  }

  // What is due to be stored for the account: its credential as loaded, or what the refresh leaves
  // for good, by a rollback if it raised and by a flush otherwise.
  function DueOf(d: Desk, h: Handled): Option<F.Cred> {
    match h.account
    case None => None
    case Some(acc) =>
      Some(if h.rotation.Some? && acc.cred.refresh.Some? then F.Due(d.aead, d.codec, d.manager, acc.cred, h.rotation.value) else acc.cred)
  }

  // The observation is what the stores show.
  ghost predicate Truthful(d: Desk, req: Request, a: Act, s: Stores) {
    var hash := d.signer.hash(req.token);
    match a
    case Verify(verdict) => verdict == GrantToken.VerifyGrant(d.signer, d.issuer, req.token, s.now)
    case ReadMarker(hit) => hit == G.HasMarker(s.space, s.now, hash)
    case ReadRow(row) => FindsRow(row, hash, s.grants)
    case ReadClock(now) => now == s.now
    case CheckRate(agent, read, allowed) => allowed == AllowedNow(d, s, agent, read)
    case GetKey(key, view) => view == I.Viewed(s.space, s.now, key)
    case ReserveKey(key, held) =>
      if held.Some? then I.Reserve(s.space, s.now, key, held.value).1 else Redis.Live(s.space, s.now, Redis.IdemName(key))
    case LoadAccount(id, account) =>
      if account.Some? then HasAccount(s, id) && account.value == Account(s.accounts[id].provider, s.creds[id]) else !HasAccount(s, id)
    case Refresh(_, cred, rotation, end) => cred.refresh.Some? && end == F.Rotate(d.aead, d.codec, d.manager, cred, rotation).0
    case Decrypt(blob, plain) => plain == Opened(d, blob)
    case RecheckMarker(hit) => hit == G.HasMarker(s.space, s.now, hash)
    case RecheckRow(id, revoked) => revoked == RevokedNow(s.grants, id)
    case Compare(key, owner, owns) => owns == I.MayComplete(s.space, s.now, key, Some(owner))
    case _ => true
  }

  // One more check of an agent's rate, as events of its counter.
  function ChecksOf(s: Stores, agent: string, read: real): seq<L.Event> {
    var index := L.WindowOf(read, 60);
    if Redis.CountAt(s.space, s.now, Redis.CounterName("invoke:" + agent, index)) == 0
    then [L.Hit(read, s.now), L.Bound(s.now, index)] else [L.Hit(read, s.now)]
  }

  function Counted(s: Stores, agent: string, read: real): Redis.Space {
    L.Run(s.space, "invoke:" + agent, 60, ChecksOf(s, agent, read))
  }

  // What the act leaves in the key space.
  function Applied(d: Desk, a: Act, s: Stores): Redis.Space {
    match a
    case CheckRate(agent, read, _) => Counted(s, agent, read)
    case ReserveKey(key, held) => if held.Some? then I.Reserve(s.space, s.now, key, held.value).0 else s.space
    case Write(key, _, stored) =>
      if stored.Some? then Redis.Put(s.space, s.now, Redis.IdemName(key), Redis.Text(stored.value), d.window) else I.DropMarker(s.space, key)
    case _ => s.space
  }

  // What the act leaves in the credentials: a refresh that succeeds commits the renewed one.
  function AppliedCreds(d: Desk, a: Act, s: Stores): map<string, F.Cred> {
    if a.Refresh? && a.end.Fresh? && a.cred.refresh.Some?
    then s.creds[a.id := F.Rotate(d.aead, d.codec, d.manager, a.cred, a.rotation).1]
    else s.creds
  }
}
