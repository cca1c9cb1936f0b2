/**
 The invocation pipeline itself.

 Every method leaves its acts on the trace of the invocation's `Outside`, and its contract says
 which phase of the automaton the trace has then reached.
 */
module InvokeService {
  import opened Common
  import opened InvokePath
  import opened InvokeView
  import B = CircuitBreaker
  import C = InvokeCauses
  import E = Envelope
  import F = Refresh
  import G = Grants
  import GrantToken
  import I = Idempotency
  import L = RateLimiter
  import R = Retry
  import Redis

  // What one await brings: the stores as the rest of the broker has left them, and the outside's
  // answers.  `crash` is an exception nobody handles.
  datatype Moment = Moment(stores: Stores, crash: bool, owner: string, rotation: F.Rotation, calls: nat -> R.Moment)

  // When an act was made and the key space it left.
  datatype Mark = Mark(tick: nat, left: Redis.Space)

  // What an act takes from its moment other than the stores.
  predicate Brought(a: Act, m: Moment) {
    && (a.Refresh? ==> a.rotation == m.rotation)
    && (a.ReserveKey? && a.held.Some? ==> a.held.value == m.owner)
    && (a.Crash? ==> m.crash)
  }

  // Every act is a truthful observation of its moment, and leaves the key space it should; moments are in order and up to the n-th.
  ghost predicate Told(d: Desk, req: Request, feed: nat -> Moment, n: nat, trace: seq<Act>, marks: seq<Mark>) {
    |marks| == |trace| &&
    (trace != [] ==>
       var a, last := trace[|trace| - 1], marks[|marks| - 1];
       && last.tick <= n && Truthful(d, req, a, feed(last.tick).stores) && Brought(a, feed(last.tick)) && last.left == Applied(d, a, feed(last.tick).stores)
       && Told(d, req, feed, last.tick, trace[..|trace| - 1], marks[..|marks| - 1]))
  }

  lemma ToldLater(d: Desk, req: Request, feed: nat -> Moment, n: nat, m: nat, trace: seq<Act>, marks: seq<Mark>)
    requires Told(d, req, feed, n, trace, marks) && n <= m
    ensures Told(d, req, feed, m, trace, marks)
  {
  }

  /** The world as one invocation meets it, one moment for each await. */
  class Outside {
    const cfg: Config
    const desk: Desk
    const req: Request
    const redis: Redis.Server
    const feed: nat -> Moment
    var awaits: nat
    ghost var trace: seq<Act>
    ghost var marks: seq<Mark>
    ghost var handled: Handled

    constructor (cfg: Config, desk: Desk, req: Request, redis: Redis.Server, feed: nat -> Moment)
      ensures this.cfg == cfg && this.desk == desk && this.req == req && this.redis == redis && this.feed == feed
      ensures trace == [] && On(Gate(Start)) && handled == Handled(None, None)
    {
      this.cfg, this.desk, this.req, this.redis, this.feed := cfg, desk, req, redis, feed;
      awaits, trace, marks, handled := 0, [], [], Handled(None, None);
    }

    ghost predicate Faithful()
      reads this
    {
      Told(desk, req, feed, awaits, trace, marks)
    }

    ghost predicate On(p: Phase)
      reads this
    {
      Faithful() && PhaseAfter(cfg, req, trace) == Some(p) && handled == HandledIn(trace)
    }

    method Await() returns (m: Moment)
      modifies this`awaits, redis
      ensures m == feed(awaits) && awaits == old(awaits) + 1
      ensures redis.space == m.stores.space && redis.now == m.stores.now
      ensures old(Faithful()) ==> Faithful()
    {
      if Faithful() {
        ToldLater(desk, req, feed, awaits, awaits + 1, trace, marks);
      }
      awaits := awaits + 1;
      m := feed(awaits);
      redis.space, redis.now := m.stores.space, m.stores.now;
    }

    ghost method Note(a: Act, p: Phase)
      requires On(p) && Truthful(desk, req, a, feed(awaits).stores) && Brought(a, feed(awaits)) && Next(cfg, req, p, a).Some?
      requires redis.space == Applied(desk, a, feed(awaits).stores)
      modifies this`trace, this`marks, this`handled
      ensures On(Next(cfg, req, p, a).value) && trace == old(trace) + [a] && handled == Handling(old(handled), a)
    {
      trace, marks, handled := trace + [a], marks + [Mark(awaits, redis.space)], Handling(handled, a);
      assert trace[..|trace| - 1] == old(trace) && marks[..|marks| - 1] == old(marks);
    }

    // The acts of a whole retry loop.
    ghost method Absorb(token: string, acts: seq<R.Act>, c: Ctx, acc: Account, cred: Credential, end: R.End)
      requires On(InLoop(c, acc, cred, R.Begin(LoopParams(cfg)))) && cred.token == token
      requires R.LoopAfter(LoopParams(cfg), acts) == Some(R.Over(end))
      requires redis.space == feed(awaits).stores.space
      modifies this`trace, this`marks, this`handled
      ensures On(AfterCall(c, acc, cred, end)) && handled == old(handled)
    {
      var before := trace;
      var n := 0;
      while n < |acts|
        invariant n <= |acts| && handled == old(handled)
        invariant R.LoopAfter(LoopParams(cfg), acts[..n]).Some?
        invariant On(InLoop(c, acc, cred, R.LoopAfter(LoopParams(cfg), acts[..n]).value))
      {
        LoopStep(LoopParams(cfg), acts, end, n);
        Note(Provide(token, acts[n]), InLoop(c, acc, cred, R.LoopAfter(LoopParams(cfg), acts[..n]).value));
        n := n + 1;
      }
      assert acts[..n] == acts;
    }
  }

  // Before its end a loop is not over, and each further act is a step of it.
  lemma {:induction false} LoopStep(p: R.Params, acts: seq<R.Act>, end: R.End, n: nat)
    requires R.LoopAfter(p, acts).Some? && n < |acts|
    ensures R.LoopAfter(p, acts[..n]).Some? && !R.LoopAfter(p, acts[..n]).value.Over?
    ensures R.LoopAfter(p, acts[..n + 1]) == R.NextLoop(p, R.LoopAfter(p, acts[..n]).value, acts[n])
    ensures R.LoopAfter(p, acts[..n + 1]).Some?
    decreases |acts|
  {
    if n == |acts| - 1 {
      assert acts[..n + 1] == acts;
    } else {
      var prior := acts[..|acts| - 1];
      LoopStep(p, prior, end, n);
      assert prior[..n] == acts[..n] && prior[..n + 1] == acts[..n + 1];
    }
  }

  datatype AuditRow = AuditRow(grant: string, tool: string, status: Status)

  class AuditLog {
    var rows: seq<AuditRow>

    constructor ()
      ensures rows == []
    {
      rows := [];
    }

    // The commit of the row also flushes what the session has pending.
    method Record(session: F.Session, row: AuditRow)
      modifies this, session.account
      ensures rows == old(rows) + [row]
      ensures session.account != null ==> session.account.saved == session.account.Current() == old(session.account.Current())
    {
      rows := rows + [row];
      if session.account != null {
        session.account.Commit();
      }
    }
  }

  // A step that did not end the invocation gives a value; otherwise there is an outcome, or an exception.
  type Step<T> = Result<T, Option<Outcome>>

  // A result the store can keep.
  predicate Storable(o: Option<Outcome>) {
    o.Some? && o.value.Success? ==> IsObject(o.value.result)
  }

  function Final(o: Option<Outcome>): Outcome {
    if o.Some? then o.value else Failed(Internal)
  }

  // What the end of an outbound phase means for the invocation, unless it is worth a refresh.
  function OutcomeOf(end: R.End): (out: Option<Outcome>)
    ensures Storable(out)
  {
    match end
    case Returned(result) => Some(Success(result, false))
    case Raised(Unexpected) => None
    case _ => Some(Failed(ProviderFailed(end)))
  }

  predicate WorthARefresh(end: R.End, cred: Credential, a: Account) {
    end == R.Raised(R.ProviderStatus(Some(401))) && cred.Stored? && CanRefresh(a)
  }

  function Called(c: Ctx, a: Account, cred: Credential, end: R.End): Phase {
    if WorthARefresh(end, cred, a) then Prep(c, Refreshing(a, true)) else Finish(c, Final(OutcomeOf(end)))
  }

  lemma CalledIsAfterCall(c: Ctx, a: Account, cred: Credential, end: R.End)
    ensures Called(c, a, cred, end) == AfterCall(c, a, cred, end)
  {
  }

  // The audit rows a trace stands for.
  ghost function RowsFor(trace: seq<Act>, tool: string): seq<AuditRow> {
    if trace != [] && trace[|trace| - 1].Audit? then [AuditRow(trace[|trace| - 1].grant, tool, trace[|trace| - 1].status)] else []
  }

  // The row is for this grant and tool, and says how the invocation ended.
  ghost predicate RowSays(row: AuditRow, grant: string, tool: string, out: Outcome) {
    row.grant == grant && row.tool == tool && Reports(row.status, out)
  }

  lemma RowsOfAPath(cfg: Config, req: Request, trace: seq<Act>, out: Outcome, audited: bool)
    requires PhaseAfter(cfg, req, trace) == Some(Ended(out, audited))
    ensures audited <==> RowIn(trace).Some?
    ensures audited ==> |RowsFor(trace, req.tool)| == 1 && RowSays(RowsFor(trace, req.tool)[0], RowIn(trace).value.id, req.tool, out)
  {
    AlwaysBooked(cfg, req, trace);
  }

  // What is due for the account an invocation has handled.
  ghost function DueHere(w: Outside): Option<F.Cred>
    reads w
  {
    DueOf(w.desk, w.handled)
  }

  // No account has been loaded.
  ghost predicate Blank(w: Outside, session: F.Session)
    reads w, session
  {
    w.handled == Handled(None, None) && session.account == null
  }

  // The session's row is the account as it was loaded.
  ghost predicate AsLoaded(w: Outside, session: F.Session, a: Account)
    reads w, session, session.account
  {
    w.handled == Handled(Some(a), None) && session.Holds(a.provider, a.cred)
  }

  class Service {
    const cfg: Config
    const desk: Desk
    const cipher: E.TokenCipher
    const cache: G.GrantCache?
    const limiter: L.Limiter?
    const store: I.Store?
    const audit: AuditLog
    const circuits: R.Circuits

    constructor (cfg: Config, desk: Desk, cipher: E.TokenCipher, cache: G.GrantCache?, limiter: L.Limiter?, store: I.Store?,
                 audit: AuditLog, circuits: R.Circuits)
      requires cfg.hasCache == (cache != null) && cfg.hasLimiter == (limiter != null) && cfg.hasStore == (store != null)
      requires cipher.registry.Valid() && circuits.Good() && circuits.cfg == cfg.breaker
      ensures Valid() && this.cfg == cfg && this.desk == desk && this.audit == audit
    {
      this.cfg, this.desk, this.cipher, this.cache, this.limiter, this.store := cfg, desk, cipher, cache, limiter, store;
      this.audit, this.circuits := audit, circuits;
    }

    ghost predicate Valid()
      reads this, circuits, circuits.breakers.Values, cipher.registry
    {
      && cfg.hasCache == (cache != null) && cfg.hasLimiter == (limiter != null) && cfg.hasStore == (store != null)
      && cipher.registry.Valid() && circuits.Good() && circuits.cfg == cfg.breaker
    }

    // The session while calls are made: nothing pending, and not yet rotated if the stored token is in use.
    ghost predicate Working(w: Outside, session: F.Session, a: Account, cred: Credential)
      reads w, session, session.account, cipher.registry
    {
      && cipher.registry.Valid() && session.Settled(DueHere(w))
      && (cred.Stored? ==> AsLoaded(w, session, a))
    }

    ghost predicate Fits(w: Outside)
      reads w
    {
      && w.cfg == cfg && w.desk == desk && desk.aead == cipher.aead && desk.codec == cipher.codec && desk.manager == cipher.manager
      && cfg.hasCache == (cache != null) && cfg.hasLimiter == (limiter != null) && cfg.hasStore == (store != null)
      && (cache != null ==> cache.redis == w.redis) && (limiter != null ==> limiter.redis == w.redis) && (store != null ==> store.redis == w.redis && store.window == desk.window)
    }

    // ---- Steps 1 to 6 ----

    method FastCheck(w: Outside, claims: GrantToken.Claims) returns (fast: bool)
      requires Fits(w) && w.On(Gate(if cfg.hasCache then Verified(claims) else Checked(claims, false)))
      modifies w, w.redis
      ensures w.handled == old(w.handled)
      ensures w.On(Gate(Checked(claims, fast)))
    {
      if cache == null {
        return false;
      }
      var _ := w.Await();
      fast := cache.IsRevoked(desk.signer.hash(w.req.token));
      w.Note(ReadMarker(fast), Gate(Verified(claims)));
    }

    method FindGrant(w: Outside, ghost claims: GrantToken.Claims, fast: bool) returns (row: Option<Found>)
      requires Fits(w) && w.On(Gate(Checked(claims, fast)))
      modifies w, w.redis
      ensures w.handled == old(w.handled)
      ensures w.On(AfterRow(fast, row))
      ensures
        var grants, hash := w.feed(w.awaits).stores.grants, desk.signer.hash(w.req.token);
        if row.Some? then row.value.id in grants && grants[row.value.id] == row.value.row && row.value.row.hash == hash
        else forall id :: id in grants ==> grants[id].hash != hash
    {
      var m := w.Await();
      var hash := desk.signer.hash(w.req.token);
      var ids := set id | id in m.stores.grants && m.stores.grants[id].hash == hash;
      if ids == {} {
        row := None;
        assert forall id :: id in m.stores.grants && m.stores.grants[id].hash == hash ==> id in ids;
      } else {
        var id :| id in ids;
        row := Some(Found(id, m.stores.grants[id]));
      }
      w.Note(ReadRow(row), Gate(Checked(claims, fast)));
    }

    // The row's own revocation and expiry, then the rate limit; None lets the invocation pass.
    method Screen(w: Outside, f: Found, fast: bool) returns (stopped: Step<()>)
      requires Fits(w) && w.On(AfterRow(fast, Some(f)))
      modifies w, w.redis
      ensures w.handled == old(w.handled)
      ensures w.On(if stopped.Ok? then AfterRate(cfg, w.req, f) else Closing(f, Auditing, Final(stopped.error)))
    {
      if fast || f.row.revokedAt.Some? {
        return Err(Some(Denied(Revoked)));
      }
      var m := w.Await();
      w.Note(ReadClock(m.stores.now), Gate(Resolved(f)));
      if f.row.expiresAt <= m.stores.now {
        return Err(Some(Denied(TokenExpired)));
      }
      if limiter != null {
        stopped := CheckLimit(w, f, m.stores.now);
      } else {
        stopped := Ok(());
      }
    }

    // The rate limit, for a check that read the clock at `read`.
    method CheckLimit(w: Outside, f: Found, read: real) returns (stopped: Step<()>)
      requires Fits(w) && limiter != null && w.On(Gate(Timely(f)))
      modifies w, w.redis
      ensures w.handled == old(w.handled)
      ensures w.On(if stopped.Ok? then AfterRate(cfg, w.req, f) else Closing(f, Auditing, Final(stopped.error)))
    {
      var m := w.Await();
      if m.crash {
        w.Note(Crash, Gate(Timely(f)));
        return Err(None);
      }
      var allowed := limiter.Check("invoke:" + f.row.agent, desk.invokesPerMinute, 60, read);
      w.Note(CheckRate(f.row.agent, read, allowed), Gate(Timely(f)));
      return if allowed then Ok(()) else Err(Some(Denied(RateLimited)));
    }

    // Replay or conflict, if the key has been seen.
    method Replay(w: Outside, f: Found) returns (stopped: Step<()>)
      requires Fits(w) && store != null && w.On(Gate(Admitted(f)))
      modifies w, w.redis
      ensures w.handled == old(w.handled)
      ensures w.On(if stopped.Ok? then Gate(Missed(f)) else Closing(f, Auditing, Final(stopped.error)))
    {
      var m := w.Await();
      if m.crash {
        w.Note(Crash, Gate(Admitted(f)));
        return Err(None);
      }
      var view := store.Get(FullKey(w.req, f));
      w.Note(GetKey(FullKey(w.req, f), view), Gate(Admitted(f)));
      match view
      case Conflict => return Err(Some(Denied(IdempotencyConflict)));
      case Cached(result) => return Err(Some(Success(result, true)));
      case Unseen => return Ok(());
    }

    // The reservation; the value is the owner token to settle it with.
    method Claim(w: Outside, f: Found) returns (held: Step<string>)
      requires Fits(w) && store != null && w.On(Gate(Missed(f)))
      modifies w, w.redis
      ensures w.handled == old(w.handled)
      ensures w.On(if held.Ok? then Prep(Ctx(f, Some(held.value)), Loading) else Closing(f, Auditing, Final(held.error)))
    {
      var m := w.Await();
      if m.crash {
        w.Note(Crash, Gate(Missed(f)));
        return Err(None);
      }
      var owner := store.ReserveKey(FullKey(w.req, f), m.owner);
      w.Note(ReserveKey(FullKey(w.req, f), owner), Gate(Missed(f)));
      return if owner.Some? then Ok(owner.value) else Err(Some(Denied(IdempotencyConflict)));
    }

    method Reserve(w: Outside, f: Found) returns (held: Step<string>)
      requires Fits(w) && store != null && w.On(Gate(Admitted(f)))
      modifies w, w.redis
      ensures w.handled == old(w.handled)
      ensures w.On(if held.Ok? then Prep(Ctx(f, Some(held.value)), Loading) else Closing(f, Auditing, Final(held.error)))
    {
      var seen := Replay(w, f);
      if seen.Err? {
        return Err(seen.error);
      }
      held := Claim(w, f);
    }

    // The store's owner-checked final write: completion after a success, release after any other end.
    method CompleteOrRelease(key: string, owner: string, out: Option<Outcome>)
      requires store != null && store.window == desk.window && Storable(out)
      modifies store.redis
      ensures store.redis.now == old(store.redis.now)
      ensures store.redis.space ==
              if !I.MayComplete(old(store.redis.space), store.redis.now, key, Some(owner)) then old(store.redis.space)
              else if out.Some? && out.value.Success?
              then Redis.Put(old(store.redis.space), store.redis.now, Redis.IdemName(key), Redis.Text(out.value.result), desk.window)
              else I.DropMarker(old(store.redis.space), key)
    {
      if out.Some? && out.value.Success? {
        store.Complete(key, out.value.result, Some(owner));
      } else {
        store.Release(key, Some(owner));
      }
    }

    // Completes the reservation with a fresh result, or gives the key up.
    method Settle(w: Outside, f: Found, owner: string, out: Option<Outcome>)
      requires Fits(w) && store != null && w.On(Closing(f, Settling(owner), Final(out)))
      requires Storable(out)
      modifies w, w.redis
      ensures w.handled == old(w.handled)
      ensures w.On(Closing(f, Auditing, Final(out)))
      ensures
        var s, key := w.feed(w.awaits).stores, FullKey(w.req, f);
        w.redis.space ==
          if I.MayComplete(s.space, s.now, key, Some(owner)) then Applied(desk, Write(key, owner, Kept(Final(out))), s) else s.space
    {
      var key := FullKey(w.req, f);
      var _ := w.Await();
      ghost var owns := I.MayComplete(w.redis.space, w.redis.now, key, Some(owner));
      w.Note(Compare(key, owner, owns), Closing(f, Settling(owner), Final(out)));
      CompleteOrRelease(key, owner, out);
      if owns {
        w.Note(Write(key, owner, Kept(Final(out))), Closing(f, Writing(owner), Final(out)));
      }
    }

    // ---- Steps 7 to 10 ----

    method Load(w: Outside, session: F.Session, c: Ctx) returns (loaded: Step<Account>)
      requires w.On(Prep(c, Loading)) && Blank(w, session)
      modifies w, w.redis, session
      ensures if loaded.Ok? then fresh(session.account) && AsLoaded(w, session, loaded.value) else Blank(w, session)
      ensures loaded.Ok? ==> w.On(Prep(c, if loaded.value.cred.expiresAt.Some? then Dating(loaded.value) else Decrypting(loaded.value)))
      ensures loaded.Err? ==> w.On(Finish(c, Final(loaded.error))) && !Final(loaded.error).Success?
      ensures
        var m, id := w.feed(w.awaits), c.found.row.account;
        if m.crash then loaded == Err(None)
        else if id in m.stores.accounts && id in m.stores.creds
        then loaded == Ok(Account(m.stores.accounts[id].provider, m.stores.creds[id]))
        else loaded == Err(Some(Failed(AccountGone)))
    {
      var id := c.found.row.account;
      var m := w.Await();
      if m.crash {
        w.Note(Crash, Prep(c, Loading));
        return Err(None);
      }
      if !HasAccount(m.stores, id) {
        w.Note(LoadAccount(id, None), Prep(c, Loading));
        return Err(Some(Failed(AccountGone)));
      }
      var provider := m.stores.accounts[id].provider;
      session.Open(provider, m.stores.creds[id]);
      var a := Account(provider, m.stores.creds[id]);
      w.Note(LoadAccount(id, Some(a)), Prep(c, Loading));
      return Ok(a);
    }

    // One refresh, with every failure mapped to an outcome.
    method RefreshOrOutcome(w: Outside, session: F.Session, c: Ctx, a: Account, after401: bool) returns (cred: Step<Credential>)
      requires Fits(w) && w.On(Prep(c, Refreshing(a, after401))) && CanRefresh(a)
      requires cipher.registry.Valid() && AsLoaded(w, session, a)
      modifies w, w.redis, session.account, cipher.registry
      ensures cipher.registry.Valid()
      ensures if cred.Ok? then session.Settled(DueHere(w)) else session.Leaves(DueHere(w), cred.error.None?)
      ensures cred.Ok? ==> F.Rotate(desk.aead, desk.codec, desk.manager, a.cred, w.feed(w.awaits).rotation).0 == F.Fresh(cred.value.token)
      ensures cred.Ok? ==> !cred.value.Stored? && w.On(Recheck(cfg, c, a, cred.value))
      ensures cred.Err? ==> w.On(Finish(c, Final(cred.error))) && !Final(cred.error).Success?
    {
      var m := w.Await();
      if m.crash {
        w.Note(Crash, Prep(c, Refreshing(a, after401)));
        return Err(None);
      }
      var end := session.Redeem(cipher, a.cred, m.rotation);
      cred := AfterRefresh(w, c, a, m.rotation, end, after401);
    }

    // What the end of a refresh means for the invocation.
    method AfterRefresh(w: Outside, c: Ctx, a: Account, r: F.Rotation, end: F.End, after401: bool) returns (cred: Step<Credential>)
      requires Fits(w) && w.On(Prep(c, Refreshing(a, after401))) && w.redis.space == w.feed(w.awaits).stores.space
      requires a.cred.refresh.Some? && end == F.Rotate(cipher.aead, cipher.codec, cipher.manager, a.cred, r).0
      requires r == w.feed(w.awaits).rotation
      modifies w`trace, w`marks, w`handled
      ensures w.handled == old(w.handled).(rotation := Some(r))
      ensures cred.Ok? <==> end.Fresh?
      ensures cred.Err? && cred.error.None? <==> end.Raised?
      ensures cred.Ok? ==> !cred.value.Stored? && cred.value.token == end.token && w.On(Recheck(cfg, c, a, cred.value))
      ensures cred.Err? ==> w.On(Finish(c, Final(cred.error))) && !Final(cred.error).Success?
    {
      w.Note(InvokePath.Act.Refresh(c.found.row.account, a.cred, r, end), Prep(c, Refreshing(a, after401)));
      match end
      case Fresh(token) => return Ok(if after401 then RefreshedAfter401(token) else RefreshedFirst(token));
      case Raised => return Err(None);
      case _ => return Err(Some(Failed(RefreshFailed)));
    }

    // The cipher's verdict on a stored token.
    method OpenStored(blob: E.bytes) returns (plain: Option<string>)
      requires cipher.registry.Valid() && desk.aead == cipher.aead && desk.codec == cipher.codec && desk.manager == cipher.manager
      modifies cipher.registry
      ensures cipher.registry.Valid() && plain == Opened(desk, blob)
    {
      var answer := cipher.DecryptToken(blob);
      plain := if answer.Ok? then Some(answer.value) else None;
    }

    method DecryptStored(w: Outside, session: F.Session, c: Ctx, a: Account) returns (cred: Step<Credential>)
      requires Fits(w) && w.On(Prep(c, Decrypting(a))) && cipher.registry.Valid() && AsLoaded(w, session, a)
      modifies w, w.redis, cipher.registry
      ensures w.handled == old(w.handled)
      ensures cipher.registry.Valid()
      ensures cred.Ok? ==> cred.value.Stored? && Opened(desk, a.cred.access) == Some(cred.value.token) && w.On(Recheck(cfg, c, a, cred.value))
      ensures cred.Ok? ==> E.OpensTo(desk.aead, desk.codec, desk.manager, a.cred.access, cred.value.token)
      ensures cred == Err(Some(Failed(Undecryptable))) ==> forall s :: !E.OpensTo(desk.aead, desk.codec, desk.manager, a.cred.access, s)
      ensures cred.Err? ==> w.On(Finish(c, Final(cred.error))) && !Final(cred.error).Success?
    {
      var m := w.Await();
      if m.crash {
        w.Note(Crash, Prep(c, Decrypting(a)));
        return Err(None);
      }
      var plain := OpenStored(session.account.access);
      w.Note(Decrypt(a.cred.access, plain), Prep(c, Decrypting(a)));
      OpenedIff(desk, a.cred.access);
      return if plain.Some? then Ok(Stored(plain.value)) else Err(Some(Failed(Undecryptable)));
    }

    // Whether the account must be refreshed first.
    method IsStale(w: Outside, c: Ctx, a: Account) returns (stale: Step<bool>)
      requires w.On(Prep(c, if a.cred.expiresAt.Some? then Dating(a) else Decrypting(a)))
      modifies w, w.redis
      ensures w.handled == old(w.handled)
      ensures stale.Ok? ==> w.On(Prep(c, if stale.value then Refreshing(a, false) else Decrypting(a))) && (stale.value ==> CanRefresh(a))
      ensures stale.Err? ==> w.On(Finish(c, Final(stale.error))) && !Final(stale.error).Success? && stale.error.Some?
    {
      if a.cred.expiresAt.None? {
        return Ok(false);
      }
      var m := w.Await();
      w.Note(ReadClock(m.stores.now), Prep(c, Dating(a)));
      if !Lapses(a, m.stores.now + REFRESH_EXPIRY_MARGIN) {
        return Ok(false);
      }
      if CanRefresh(a) {
        return Ok(true);
      }
      m := w.Await();
      w.Note(ReadClock(m.stores.now), Prep(c, Overdue(a)));
      return if Lapses(a, m.stores.now) then Err(Some(Failed(CredentialExpired))) else Ok(false);
    }

    // The access token to call with: refreshed when it is about to expire, else decrypted.
    method Freshen(w: Outside, session: F.Session, c: Ctx, a: Account) returns (cred: Step<Credential>)
      requires Fits(w) && w.On(Prep(c, if a.cred.expiresAt.Some? then Dating(a) else Decrypting(a)))
      requires cipher.registry.Valid() && AsLoaded(w, session, a)
      modifies w, w.redis, session.account, cipher.registry
      ensures cipher.registry.Valid()
      ensures if cred.Ok? then session.Settled(DueHere(w)) else session.Leaves(DueHere(w), cred.error.None?)
      ensures cred.Ok? ==> w.On(Recheck(cfg, c, a, cred.value))
      ensures cred.Ok? && cred.value.Stored? ==> AsLoaded(w, session, a)
      ensures cred.Err? ==> w.On(Finish(c, Final(cred.error))) && !Final(cred.error).Success?
    {
      var stale := IsStale(w, c, a);
      if stale.Err? {
        return Err(stale.error);
      }
      if stale.value {
        cred := RefreshOrOutcome(w, session, c, a, false);
      } else {
        cred := DecryptStored(w, session, c, a);
      }
    }

    // Marker first, then the live row; a vanished row counts as revoked.
    method IsRevokedNow(w: Outside, c: Ctx, a: Account, cred: Credential) returns (revoked: Step<bool>)
      requires Fits(w) && w.On(Recheck(cfg, c, a, cred))
      modifies w, w.redis
      ensures w.handled == old(w.handled)
      ensures revoked.Ok? ==> w.On(if revoked.value then Finish(c, Denied(Revoked)) else InLoop(c, a, cred, LoopStart(cfg)))
      ensures revoked.Err? ==> w.On(Finish(c, Final(revoked.error))) && !Final(revoked.error).Success?
    {
      if cache != null {
        var m := w.Await();
        if m.crash {
          w.Note(Crash, Prep(c, Rechecking(a, cred)));
          return Err(None);
        }
        var hit := cache.IsRevoked(desk.signer.hash(w.req.token));
        w.Note(RecheckMarker(hit), Prep(c, Rechecking(a, cred)));
        if hit {
          return Ok(true);
        }
      }
      revoked := RowIsRevoked(w, c, a, cred);
    }

    method RowIsRevoked(w: Outside, c: Ctx, a: Account, cred: Credential) returns (revoked: Step<bool>)
      requires Fits(w) && w.On(Prep(c, Confirming(a, cred)))
      modifies w, w.redis
      ensures w.handled == old(w.handled)
      ensures revoked.Ok? ==> w.On(if revoked.value then Finish(c, Denied(Revoked)) else InLoop(c, a, cred, LoopStart(cfg)))
      ensures revoked.Err? ==> w.On(Finish(c, Final(revoked.error))) && !Final(revoked.error).Success?
      ensures revoked.Ok? ==>
                var grants := w.feed(w.awaits).stores.grants;
                revoked.value <==> c.found.id !in grants || grants[c.found.id].revokedAt.Some?
    {
      var m := w.Await();
      if m.crash {
        w.Note(Crash, Prep(c, Confirming(a, cred)));
        return Err(None);
      }
      var gone := RevokedNow(m.stores.grants, c.found.id);
      w.Note(RecheckRow(c.found.id, gone), Prep(c, Confirming(a, cred)));
      return Ok(gone);
    }

    // The tool call on its provider's breaker.
    method CallTool(tool: string, moments: nat -> R.Moment) returns (end: R.End, ghost acts: seq<R.Act>)
      requires circuits.Good() && circuits.cfg == cfg.breaker && tool in cfg.tools
      modifies circuits, circuits.breakers.Values
      ensures circuits.Good() && fresh(circuits.breakers.Values - old(circuits.breakers.Values))
      ensures if B.ValidConfig(cfg.breaker) then R.LoopAfter(LoopParams(cfg), acts) == Some(R.Over(end)) else end == R.BadArguments
      ensures forall p :: p != cfg.tools[tool].provider ==> circuits.CallsTo(p) == old(circuits.CallsTo(p))
    {
      ghost var log;
      end, acts, log := circuits.Call(cfg.tools[tool].provider, cfg.maxRetries, cfg.baseDelay, moments);
    }

    // One outbound phase.
    method CallProvider(w: Outside, c: Ctx, a: Account, cred: Credential) returns (end: R.End)
      requires Fits(w) && circuits.Good() && circuits.cfg == cfg.breaker
      requires w.req.tool in cfg.tools && w.On(InLoop(c, a, cred, LoopStart(cfg)))
      modifies w, w.redis, circuits, circuits.breakers.Values
      ensures w.handled == old(w.handled)
      ensures circuits.Good() && fresh(circuits.breakers.Values - old(circuits.breakers.Values))
      ensures w.On(Called(c, a, cred, end))
    {
      var m := w.Await();
      ghost var acts;
      end, acts := CallTool(w.req.tool, m.calls);
      NoteCall(w, c, a, cred, end, acts);
    }

    // The acts of an outbound phase on the trace.
    ghost method NoteCall(w: Outside, c: Ctx, a: Account, cred: Credential, end: R.End, acts: seq<R.Act>)
      requires w.cfg == cfg && w.On(InLoop(c, a, cred, LoopStart(cfg))) && w.redis.space == w.feed(w.awaits).stores.space
      requires if B.ValidConfig(cfg.breaker) then R.LoopAfter(LoopParams(cfg), acts) == Some(R.Over(end)) else end == R.BadArguments
      modifies w`trace, w`marks, w`handled
      ensures w.handled == old(w.handled) && w.On(Called(c, a, cred, end))
    {
      CalledIsAfterCall(c, a, cred, end);
      if B.ValidConfig(cfg.breaker) {
        w.Absorb(cred.token, acts, c, a, cred, end);
      }
    }

    // The refresh and the second revocation check that may follow a 401.
    method Renew(w: Outside, session: F.Session, c: Ctx, a: Account) returns (cred: Step<Credential>)
      requires Fits(w) && w.On(Prep(c, Refreshing(a, true))) && CanRefresh(a)
      requires cipher.registry.Valid() && AsLoaded(w, session, a) && circuits.Good()
      modifies w, w.redis, session.account, cipher.registry
      ensures cipher.registry.Valid() && circuits.Good()
      ensures if cred.Ok? then session.Settled(DueHere(w)) else session.Leaves(DueHere(w), cred.error.None?)
      ensures cred.Ok? ==> !cred.value.Stored? && w.On(InLoop(c, a, cred.value, LoopStart(cfg)))
      ensures cred.Err? ==> w.On(Finish(c, Final(cred.error))) && !Final(cred.error).Success?
    {
      cred := RefreshOrOutcome(w, session, c, a, true);
      if cred.Ok? {
        cred := Confirm(w, c, a, cred.value);
      }
    }

    // The revocation check before a credential is sent out.
    method Confirm(w: Outside, c: Ctx, a: Account, cred: Credential) returns (kept: Step<Credential>)
      requires Fits(w) && w.On(Recheck(cfg, c, a, cred)) && circuits.Good()
      modifies w, w.redis
      ensures w.handled == old(w.handled)
      ensures circuits.Good()
      ensures kept.Ok? ==> kept.value == cred && w.On(InLoop(c, a, cred, LoopStart(cfg)))
      ensures kept.Err? ==> w.On(Finish(c, Final(kept.error))) && !Final(kept.error).Success?
    {
      var revoked := IsRevokedNow(w, c, a, cred);
      return match revoked
        case Err(e) => Err(e)
        case Ok(true) => Err(Some(Denied(Revoked)))
        case Ok(false) => Ok(cred);
    }

    // One outbound phase and what follows it; a value is the renewed credential to try again with.
    method Turn(w: Outside, session: F.Session, c: Ctx, a: Account, cred: Credential) returns (next: Step<Credential>)
      requires Fits(w) && circuits.Good() && circuits.cfg == cfg.breaker
      requires w.req.tool in cfg.tools && w.On(InLoop(c, a, cred, LoopStart(cfg))) && Working(w, session, a, cred)
      modifies w, w.redis, circuits, circuits.breakers.Values, session.account, cipher.registry
      ensures circuits.Good() && fresh(circuits.breakers.Values - old(circuits.breakers.Values))
      ensures cipher.registry.Valid()
      ensures if next.Ok? then session.Settled(DueHere(w)) else session.Leaves(DueHere(w), next.error.None?)
      ensures next.Ok? ==> cred.Stored? && !next.value.Stored? && w.On(InLoop(c, a, next.value, LoopStart(cfg)))
      ensures next.Err? ==> w.On(Finish(c, Final(next.error))) && Storable(next.error)
    {
      var end := CallProvider(w, c, a, cred);
      if !WorthARefresh(end, cred, a) {
        return Err(OutcomeOf(end));
      }
      next := Renew(w, session, c, a);
    }

    // The outbound phases: at most one refresh and retry when a stored token is rejected.
    method CallLoop(w: Outside, session: F.Session, c: Ctx, a: Account, first: Credential) returns (out: Option<Outcome>)
      requires Fits(w) && circuits.Good() && circuits.cfg == cfg.breaker
      requires w.req.tool in cfg.tools && w.On(InLoop(c, a, first, LoopStart(cfg))) && Working(w, session, a, first)
      modifies w, w.redis, circuits, circuits.breakers.Values, session.account, cipher.registry
      ensures circuits.Good() && cipher.registry.Valid() && session.Leaves(DueHere(w), out.None?)
      ensures w.On(Finish(c, Final(out))) && Storable(out)
    {
      var cred := first;
      while true
        invariant circuits.Good() && fresh(circuits.breakers.Values - old(circuits.breakers.Values))
        invariant w.On(InLoop(c, a, cred, LoopStart(cfg))) && Working(w, session, a, cred)
        decreases cred.Stored?
      {
        var next := Turn(w, session, c, a, cred);
        if next.Err? {
          return next.error;
        }
        cred := next.value;
      }
    }

    // A credential, and the revocation check before it is sent out.
    method Arm(w: Outside, session: F.Session, c: Ctx, a: Account) returns (cred: Step<Credential>)
      requires Fits(w) && Valid() && w.On(Prep(c, if a.cred.expiresAt.Some? then Dating(a) else Decrypting(a))) && AsLoaded(w, session, a)
      modifies w, w.redis, session.account, cipher.registry
      ensures Valid()
      ensures cred.Ok? ==> w.On(InLoop(c, a, cred.value, LoopStart(cfg))) && Working(w, session, a, cred.value)
      ensures cred.Err? ==> w.On(Finish(c, Final(cred.error))) && !Final(cred.error).Success? && session.Leaves(DueHere(w), cred.error.None?)
    {
      cred := Freshen(w, session, c, a);
      if cred.Ok? {
        cred := Confirm(w, c, a, cred.value);
      }
    }

    // Everything before the first outbound phase.
    method Prepare(w: Outside, session: F.Session, c: Ctx) returns (ready: Step<(Account, Credential)>)
      requires Fits(w) && Valid() && w.On(Prep(c, Loading)) && Blank(w, session)
      modifies w, w.redis, session, cipher.registry
      ensures Valid() && (session.account != null ==> fresh(session.account))
      ensures ready.Ok? ==> w.On(InLoop(c, ready.value.0, ready.value.1, LoopStart(cfg))) && Working(w, session, ready.value.0, ready.value.1)
      ensures ready.Err? ==> w.On(Finish(c, Final(ready.error))) && !Final(ready.error).Success? && session.Leaves(DueHere(w), ready.error.None?)
    {
      var loaded := Load(w, session, c);
      if loaded.Err? {
        return Err(loaded.error);
      }
      var cred := Arm(w, session, c, loaded.value);
      return if cred.Ok? then Ok((loaded.value, cred.value)) else Err(cred.error);
    }

    method ExecuteCall(w: Outside, session: F.Session, c: Ctx) returns (out: Option<Outcome>)
      requires Fits(w) && Valid() && w.req.tool in cfg.tools && w.On(Prep(c, Loading)) && Blank(w, session)
      modifies w, w.redis, circuits, circuits.breakers.Values, session, cipher.registry
      ensures Valid() && session.Leaves(DueHere(w), out.None?) && (session.account != null ==> fresh(session.account))
      ensures w.On(Finish(c, Final(out))) && Storable(out)
    {
      var ready := Prepare(w, session, c);
      if ready.Err? {
        return ready.error;
      }
      out := CallLoop(w, session, c, ready.value.0, ready.value.1);
    }

    // Steps 3 to 10 for a grant that exists; no outcome means an exception that is still to be audited.
    method InvokeResolved(w: Outside, session: F.Session, f: Found, fast: bool) returns (out: Option<Outcome>)
      requires Fits(w) && Valid() && w.On(AfterRow(fast, Some(f))) && Blank(w, session)
      modifies w, w.redis, circuits, circuits.breakers.Values, session, cipher.registry
      ensures Valid() && session.Leaves(DueHere(w), out.None?) && (session.account != null ==> fresh(session.account))
      ensures w.On(Closing(f, Auditing, Final(out)))
    {
      var screened := Screen(w, f, fast);
      if screened.Err? {
        return screened.error;
      }
      if w.req.tool !in cfg.tools {
        return Some(Denied(NotFound));
      }
      if f.row.scope != cfg.tools[w.req.tool].scope {
        return Some(Denied(ScopeMismatch));
      }
      if w.req.key.Some? && store != null {
        out := InvokeKeyed(w, session, f);
      } else {
        out := ExecuteCall(w, session, Ctx(f, None));
      }
    }

    // The execution under a reservation, and its settlement.
    method ExecuteHeld(w: Outside, session: F.Session, f: Found, owner: string) returns (out: Option<Outcome>)
      requires Fits(w) && Valid() && store != null && w.req.tool in cfg.tools && w.On(Prep(Ctx(f, Some(owner)), Loading)) && Blank(w, session)
      modifies w, w.redis, circuits, circuits.breakers.Values, session, cipher.registry
      ensures Valid() && session.Leaves(DueHere(w), out.None?) && (session.account != null ==> fresh(session.account))
      ensures w.On(Closing(f, Auditing, Final(out)))
    {
      out := ExecuteCall(w, session, Ctx(f, Some(owner)));
      Settle(w, f, owner, out);
    }

    // The execution under an idempotency key.
    method InvokeKeyed(w: Outside, session: F.Session, f: Found) returns (out: Option<Outcome>)
      requires Fits(w) && Valid() && store != null && w.req.tool in cfg.tools && w.On(Gate(Admitted(f))) && Blank(w, session)
      modifies w, w.redis, circuits, circuits.breakers.Values, session, cipher.registry
      ensures Valid() && session.Leaves(DueHere(w), out.None?) && (session.account != null ==> fresh(session.account))
      ensures w.On(Closing(f, Auditing, Final(out)))
    {
      var held := Reserve(w, f);
      if held.Err? {
        return held.error;
      }
      out := ExecuteHeld(w, session, f, held.value);
    }

    // After an exception the session is rolled back; the audit row is written in any case.
    method Conclude(session: F.Session, ghost due: Option<F.Cred>, row: AuditRow, raised: bool)
      requires Valid() && session.Leaves(due, raised)
      modifies session.account, audit
      ensures Valid() && session.Settled(due) && audit.rows == old(audit.rows) + [row]
    {
      if raised && session.account != null {
        session.account.Rollback();
      }
      audit.Record(session, row);
    }

    method NoteAudit(w: Outside, f: Found, out: Outcome)
      requires w.On(Closing(f, Auditing, out))
      modifies w, w.redis
      ensures w.handled == old(w.handled) && w.On(Ended(out, true)) && w.trace == old(w.trace) + [Audit(f.id, StatusOf(out))]
    {
      var _ := w.Await();
      w.Note(Audit(f.id, StatusOf(out)), Closing(f, Auditing, out));
    }

    // The backstop and the audit row of an invocation that resolved a grant.
    method Audited(w: Outside, session: F.Session, f: Found, result: Option<Outcome>) returns (out: Outcome)
      requires Valid() && w.On(Closing(f, Auditing, Final(result))) && session.Leaves(DueHere(w), result.None?)
      modifies w, w.redis, session.account, audit
      ensures Valid() && out == Final(result) && w.On(Ended(out, true))
      ensures w.trace == old(w.trace) + [Audit(f.id, StatusOf(out))]
      ensures audit.rows == old(audit.rows) + [AuditRow(f.id, w.req.tool, StatusOf(out))]
      ensures session.Settled(DueHere(w))
    {
      out := Final(result);
      NoteAudit(w, f, out);
      Conclude(session, DueHere(w), AuditRow(f.id, w.req.tool, StatusOf(out)), result.None?);
    }

    method InvokeVerified(w: Outside, session: F.Session, claims: GrantToken.Claims) returns (out: Outcome, ghost audited: bool)
      requires Fits(w) && Valid() && w.On(Gate(if cfg.hasCache then Verified(claims) else Checked(claims, false))) && Blank(w, session)
      modifies w, w.redis, circuits, circuits.breakers.Values, session, cipher.registry, audit
      ensures Valid() && w.On(Ended(out, audited))
      ensures audit.rows == old(audit.rows) + if audited then RowsFor(w.trace, w.req.tool) else []
      ensures session.Settled(DueHere(w))
    {
      var fast := FastCheck(w, claims);
      var row := FindGrant(w, claims, fast);
      if row.None? {
        return Denied(NotFound), false;
      }
      out := InvokeAudited(w, session, row.value, fast);
      audited := true;
    }

    method InvokeAudited(w: Outside, session: F.Session, f: Found, fast: bool) returns (out: Outcome)
      requires Fits(w) && Valid() && w.On(AfterRow(fast, Some(f))) && Blank(w, session)
      modifies w, w.redis, circuits, circuits.breakers.Values, session, cipher.registry, audit
      ensures Valid() && w.On(Ended(out, true))
      ensures audit.rows == old(audit.rows) + RowsFor(w.trace, w.req.tool)
      ensures session.Settled(DueHere(w))
    {
      var result := InvokeResolved(w, session, f, fast);
      out := Audited(w, session, f, result);
    }

    // Step 1: the offline check of the token.
    method VerifyToken(w: Outside) returns (verdict: Result<GrantToken.Claims, GrantToken.Error>)
      requires Fits(w) && w.On(Gate(Start))
      modifies w, w.redis
      ensures w.handled == old(w.handled) && w.On(AfterVerify(cfg, w.req, verdict))
    {
      var m := w.Await();
      verdict := GrantToken.VerifyGrant(desk.signer, desk.issuer, w.req.token, m.stores.now);
      w.Note(Verify(verdict), Gate(Start));
    }

    /**
     One invocation.  Its trace is a path of the automaton to its end, made of truthful
     observations; an audit row is written exactly when a grant row was found; and the session
     ends with nothing pending, the account's row being what its one refresh, if any, is due to
     leave: rolled back if it raised, flushed otherwise.
     */
    method Invoke(w: Outside, session: F.Session) returns (out: Outcome, ghost audited: bool)
      requires Fits(w) && Valid() && w.On(Gate(Start)) && w.trace == [] && session.account == null
      modifies w, w.redis, circuits, circuits.breakers.Values, session, cipher.registry, audit
      ensures Valid() && w.On(Ended(out, audited))
      ensures audited <==> RowIn(w.trace).Some?
      ensures !audited ==> audit.rows == old(audit.rows)
      ensures audited ==> exists row :: audit.rows == old(audit.rows) + [row] && RowSays(row, RowIn(w.trace).value.id, w.req.tool, out)
      ensures session.Settled(DueOf(desk, HandledIn(w.trace)))
      ensures C.Caused(cfg, w.req, C.SeenIn(w.trace), out)
    {
      var verdict := VerifyToken(w);
      audited := false;
      if verdict.Err? {
        out := Denied(if verdict.error.Expired? then TokenExpired else InvalidToken);
      } else if w.req.tool != verdict.value.tool {
        out := Denied(ToolMismatch);
      } else {
        out, audited := InvokeVerified(w, session, verdict.value);
      }
      RowsOfAPath(cfg, w.req, w.trace, out, audited);
      C.EndExplained(cfg, w.req, w.trace, out, audited);
    }
  }
}
