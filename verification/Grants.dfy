/** Grant tokens: what is signed, what verification accepts, and when it stops. */
module GrantToken {
  import opened Common

  datatype Claims = Claims(issuer: string, agent: string, grant: string, tool: string, scope: string, issuedAt: int, expiresAt: int)

  // RS256 signing with the broker's key, and decoding with signature check.
  datatype Signer = Signer(encode: Claims -> string, decode: string -> Option<Claims>, hash: string -> string)

  ghost predicate Sound(s: Signer) {
    && (forall c: Claims :: s.decode(s.encode(c)) == Some(c))
    && (forall t: string, u: string :: s.hash(t) == s.hash(u) ==> t == u)
  }

  datatype Error = Expired | Invalid

  function SignGrant(s: Signer, issuer: string, grant: string, agent: string, tool: string, scope: string, issuedAt: real, expiresAt: real): string {
    s.encode(Claims(issuer, agent, grant, tool, scope, Truncate(issuedAt), Truncate(expiresAt)))
  }

  function VerifyGrant(s: Signer, issuer: string, token: string, now: real): Result<Claims, Error> {
    match s.decode(token)
    case None => Err(Invalid)
    case Some(c) =>
      if c.issuedAt as real > now then Err(Invalid)
      else if c.expiresAt as real <= now then Err(Expired)
      else if c.issuer != issuer then Err(Invalid)
      else Ok(c)
  }

  /**
   A token is accepted if and only if it decodes under the broker's key to claims that name this
   broker, are not from the future and have not expired.  It is called expired only if it decodes
   and is not from the future; anything else is invalid.
   */
  lemma AcceptedIff(s: Signer, issuer: string, token: string, now: real)
    ensures forall c :: VerifyGrant(s, issuer, token, now) == Ok(c) <==>
                        s.decode(token) == Some(c) && c.issuer == issuer && c.issuedAt as real <= now < c.expiresAt as real
    ensures VerifyGrant(s, issuer, token, now) == Err(Expired) <==>
            s.decode(token).Some? && var c := s.decode(token).value; c.issuedAt as real <= now && c.expiresAt as real <= now
  {
  }

  /**
   A signed grant verifies to its own claims exactly until its truncated expiry, which lies less
   than a second before the row's expiry: an accepted token always belongs to an unexpired row.
   */
  lemma SignedGrantVerifies(s: Signer, issuer: string, grant: string, agent: string, tool: string, scope: string,
                            issuedAt: real, expiresAt: real, now: real)
    requires Sound(s) && 0.0 <= issuedAt <= now && 0.0 <= expiresAt
    ensures
      var verdict := VerifyGrant(s, issuer, SignGrant(s, issuer, grant, agent, tool, scope, issuedAt, expiresAt), now);
      && (verdict.Ok? <==> now < Truncate(expiresAt) as real)
      && (verdict.Ok? ==> verdict.value == Claims(issuer, agent, grant, tool, scope, Truncate(issuedAt), Truncate(expiresAt)))
      && (verdict.Ok? ==> now < expiresAt)
      && (now <= expiresAt - 1.0 ==> verdict.Ok?)
      && (verdict.Err? ==> verdict.error == Expired)
  {
  }
}

/**
 Grant issuance, revocation and the revocation cache, as one call at a time runs them.
 `GrantRuns` interleaves the same decisions.
 */
module Grants {
  import opened Common
  import opened Redis
  import opened GrantToken
  import RateLimiter

  datatype Agent = Agent(user: string, allowed: set<string>)

  datatype Account = Account(user: string, provider: string, createdAt: real)

  datatype Tool = Tool(provider: string, scope: string)

  datatype Row = Row(agent: string, account: string, tool: string, scope: string, hash: string,
                     issuedAt: real, expiresAt: real, revokedAt: Option<real>)

  datatype Tables = Tables(agents: map<string, Agent>, accounts: map<string, Account>, grants: map<string, Row>)

  datatype Settings = Settings(ttl: int, maxActive: int, grantsPerMinute: int, issuer: string, tools: map<string, Tool>, signer: Signer)

  datatype Denial = RateLimited | UnknownAgent | UnknownTool | PolicyDenied | ScopeMismatch | NoAccount | TooManyActive

  const REVOKED_TTL_SECONDS := 600

  predicate ActiveAt(row: Row, agent: string, tool: string, scope: string, at: real) {
    row.agent == agent && row.tool == tool && row.scope == scope && row.revokedAt.None? && row.expiresAt > at
  }

  function ActiveIds(grants: map<string, Row>, agent: string, tool: string, scope: string, at: real): set<string> {
    set id | id in grants && ActiveAt(grants[id], agent, tool, scope, at)
  }

  // An account of the user with the provider, and no other of theirs is newer.
  predicate Newest(accounts: map<string, Account>, user: string, provider: string, id: string) {
    && id in accounts && accounts[id].user == user && accounts[id].provider == provider
    && forall other :: other in accounts && accounts[other].user == user && accounts[other].provider == provider
                       ==> accounts[other].createdAt <= accounts[id].createdAt
  }

  // What the policy demands of a request: a known tool, allowed to the agent, under the tool's own scope.
  predicate Permitted(st: Settings, agent: Agent, tool: string, scope: string) {
    tool in st.tools && tool in agent.allowed && scope == st.tools[tool].scope
  }

  function TokenFor(st: Settings, id: string, agent: string, tool: string, scope: string, now: real): string {
    SignGrant(st.signer, st.issuer, id, agent, tool, scope, now, now + st.ttl as real)
  }

  function NewRow(st: Settings, id: string, agent: string, account: string, tool: string, scope: string, now: real): Row {
    Row(agent, account, tool, scope, st.signer.hash(TokenFor(st, id, agent, tool, scope, now)), now, now + st.ttl as real, None)
  }

  /** The token of a new grant names that grant, its agent, tool and scope, and verifies exactly until the row's expiry, truncated to a whole second. */
  lemma IssuedTokenVerifies(st: Settings, id: string, agent: string, account: string, tool: string, scope: string, now: real, later: real)
    requires Sound(st.signer) && 0.0 <= now <= later && st.ttl >= 0
    ensures
      var row := NewRow(st, id, agent, account, tool, scope, now);
      var verdict := VerifyGrant(st.signer, st.issuer, TokenFor(st, id, agent, tool, scope, now), later);
      && row.hash == st.signer.hash(TokenFor(st, id, agent, tool, scope, now))
      && row.expiresAt == now + st.ttl as real
      && (verdict.Ok? <==> later < row.expiresAt.Floor as real)
      && (verdict.Ok? ==> later < row.expiresAt && verdict.value.grant == id && verdict.value.agent == agent
                          && verdict.value.tool == tool && verdict.value.scope == scope)
  {
    SignedGrantVerifies(st.signer, st.issuer, id, agent, tool, scope, now, now + st.ttl as real, later);
  }

  function MarkRevoked(s: Space, now: real, hash: string): Space {
    Put(s, now, RevokedName(hash), Text("1"), REVOKED_TTL_SECONDS)
  }

  predicate HasMarker(s: Space, now: real, hash: string) {
    Live(s, now, RevokedName(hash))
  }

  lemma {:induction false} NewestExists(accounts: map<string, Account>, ids: set<string>)
    requires ids != {} && forall id :: id in ids ==> id in accounts
    ensures exists id :: id in ids && forall other :: other in ids ==> accounts[other].createdAt <= accounts[id].createdAt
    decreases |ids|
  {
    var first :| first in ids;
    if ids != {first} {
      var rest := ids - {first};
      assert first in ids && rest < ids;
      NewestExists(accounts, rest);
      var best :| best in rest && forall other :: other in rest ==> accounts[other].createdAt <= accounts[best].createdAt;
      var pick := if accounts[first].createdAt <= accounts[best].createdAt then best else first;
      assert forall other :: other in ids ==> other == first || other in rest;
      assert pick in ids;
    } else {
      assert forall other :: other in ids ==> other == first;
    }
  }

  class GrantCache {
    const redis: Server

    constructor (redis: Server)
      ensures this.redis == redis
    {
      this.redis := redis;
    }

    method RecordIssued(hash: string, ttl: int)
      modifies redis`space
      ensures redis.space == Put(old(redis.space), redis.now, IssuedName(hash), Text("1"), ttl)
    {
      redis.Set(IssuedName(hash), Text("1"), ttl);
    }

    method RecordRevoked(hash: string)
      modifies redis`space
      ensures redis.space == Remove(MarkRevoked(old(redis.space), redis.now, hash), IssuedName(hash))
      ensures HasMarker(redis.space, redis.now, hash) && !Live(redis.space, redis.now, IssuedName(hash))
    {
      redis.Set(RevokedName(hash), Text("1"), REVOKED_TTL_SECONDS);
      redis.Delete(IssuedName(hash));
    }

    method IsRevoked(hash: string) returns (revoked: bool)
      ensures revoked == HasMarker(redis.space, redis.now, hash)
    {
      var v := redis.Get(RevokedName(hash));
      revoked := v.Some?;
    }

    method IsKnown(hash: string) returns (known: bool)
      ensures known == Live(redis.space, redis.now, IssuedName(hash))
    {
      var v := redis.Get(IssuedName(hash));
      known := v.Some?;
    }
  }

  class Service {
    const settings: Settings
    var tables: Tables

    constructor (settings: Settings, tables: Tables)
      ensures this.settings == settings && this.tables == tables
    {
      this.settings, this.tables := settings, tables;
    }

    // The user has an account with the provider.
    ghost predicate HasAccount(t: Tables, user: string, provider: string) {
      exists id :: id in t.accounts && t.accounts[id].user == user && t.accounts[id].provider == provider
    }

    // The unrevoked, unexpired grants of this agent for this tool and scope.
    ghost function Current(t: Tables, agentId: string, tool: string, scope: string, now: real): set<string> {
      set id | id in t.grants && t.grants[id].agent == agentId && t.grants[id].tool == tool && t.grants[id].scope == scope
               && t.grants[id].revokedAt.None? && now < t.grants[id].expiresAt
    }

    // Everything but the rate limit is in favour of the request.
    ghost predicate Grantable(t: Tables, agentId: string, tool: string, scope: string, now: real)
      reads this
    {
      && agentId in t.agents && Permitted(settings, t.agents[agentId], tool, scope)
      && HasAccount(t, t.agents[agentId].user, settings.tools[tool].provider)
      && |Current(t, agentId, tool, scope, now)| < settings.maxActive
    }

    // The request was denied for the reason the first failing check gives.
    ghost predicate DeniedRightly(t: Tables, agentId: string, tool: string, scope: string, now: real, why: Denial)
      reads this
    {
      match why
      case RateLimited => true
      case UnknownAgent => agentId !in t.agents
      case UnknownTool => agentId in t.agents && tool !in settings.tools
      case PolicyDenied => agentId in t.agents && tool in settings.tools && tool !in t.agents[agentId].allowed
      case ScopeMismatch =>
        agentId in t.agents && tool in settings.tools && tool in t.agents[agentId].allowed && scope != settings.tools[tool].scope
      case NoAccount =>
        && agentId in t.agents && Permitted(settings, t.agents[agentId], tool, scope)
        && !HasAccount(t, t.agents[agentId].user, settings.tools[tool].provider)
      case TooManyActive =>
        && agentId in t.agents && Permitted(settings, t.agents[agentId], tool, scope)
        && HasAccount(t, t.agents[agentId].user, settings.tools[tool].provider)
        && |Current(t, agentId, tool, scope, now)| >= settings.maxActive
    }

    // The insert of one row, unrevoked and bound to a newest account of the agent's user with the tool's provider.
    ghost predicate Inserted(before: Tables, after: Tables, id: string, agentId: string, tool: string, scope: string, hash: string, now: real)
      requires agentId in before.agents && tool in settings.tools
      reads this
    {
      && id in after.grants && after == before.(grants := before.grants[id := after.grants[id]])
      && var row := after.grants[id];
      && row == Row(agentId, row.account, tool, scope, hash, now, now + settings.ttl as real, None)
      && Newest(before.accounts, before.agents[agentId].user, settings.tools[tool].provider, row.account)
    }

    // The account query: the user's newest account for the provider, if there is one.
    method QueryAccount(user: string, provider: string) returns (found: Option<string>)
      ensures found.Some? ==> Newest(tables.accounts, user, provider, found.value)
      ensures found.Some? <==> HasAccount(tables, user, provider)
    {
      var candidates := set a | a in tables.accounts && tables.accounts[a].user == user && tables.accounts[a].provider == provider;
      if candidates == {} {
        assert forall a :: a in tables.accounts && tables.accounts[a].user == user && tables.accounts[a].provider == provider ==> a in candidates;
        return None;
      }
      NewestExists(tables.accounts, candidates);
      var account :| account in candidates && forall other :: other in candidates ==> tables.accounts[other].createdAt <= tables.accounts[account].createdAt;
      return Some(account);
    }

    // The rate limit, if there is a limiter: the counter of the minute in which the request read the clock, as its INCR finds it.
    method WithinRate(agentId: string, read: real, limiter: RateLimiter.Limiter?) returns (allowed: bool)
      modifies if limiter != null then {limiter.redis} else {}
      ensures limiter == null ==> allowed
      ensures limiter != null ==>
                forall minute: int :: minute as real * 60.0 <= read < (minute + 1) as real * 60.0 ==>
                  (allowed <==> CountAt(old(limiter.redis.space), old(limiter.redis.now), CounterName("grants:" + agentId, minute)) < settings.grantsPerMinute)
    {
      if limiter == null {
        return true;
      }
      RateLimiter.WindowBounds(read, 60);
      allowed := limiter.Check("grants:" + agentId, settings.grantsPerMinute, 60, read);
    }

    // The policy checks, in order, and the account the grant is to be bound to.
    method Bind(agentId: string, tool: string, scope: string) returns (account: Result<string, Denial>)
      ensures account.Ok? ==>
                && agentId in tables.agents && Permitted(settings, tables.agents[agentId], tool, scope)
                && Newest(tables.accounts, tables.agents[agentId].user, settings.tools[tool].provider, account.value)
      ensures account.Err? ==> !account.error.RateLimited? && !account.error.TooManyActive?
      ensures account.Err? ==> forall now :: DeniedRightly(tables, agentId, tool, scope, now, account.error)
    {
      if agentId !in tables.agents {
        return Err(UnknownAgent);
      }
      var agent := tables.agents[agentId];
      if tool !in settings.tools {
        return Err(UnknownTool);
      }
      if tool !in agent.allowed {
        return Err(PolicyDenied);
      }
      if scope != settings.tools[tool].scope {
        return Err(ScopeMismatch);
      }
      var found := QueryAccount(agent.user, settings.tools[tool].provider);
      return if found.Some? then Ok(found.value) else Err(NoAccount);
    }

    // The grants that count against the limit.
    method CountActive(agentId: string, tool: string, scope: string, now: real) returns (n: nat)
      ensures n == |Current(tables, agentId, tool, scope, now)|
    {
      var active := set g | g in tables.grants && ActiveAt(tables.grants[g], agentId, tool, scope, now);
      assert active == Current(tables, agentId, tool, scope, now);
      n := |active|;
    }

    /**
     Issues one grant.  `id` is the fresh identifier drawn for it, `read` the clock reading of the
     rate check and `now` the one after the agent row was locked.  Limiter and cache are optional, as in the service.
     A request that the rate limit lets pass is granted exactly when policy, account and active grants allow it.
     */
    method RequestGrant(agentId: string, tool: string, scope: string, id: string, read: real, now: real,
                        limiter: RateLimiter.Limiter?, cache: GrantCache?)
      returns (issued: Result<string, Denial>)
      requires id !in tables.grants
      modifies this`tables, if limiter != null then {limiter.redis} else {}, if cache != null then {cache.redis} else {}
      ensures issued.Err? ==> tables == old(tables) && DeniedRightly(old(tables), agentId, tool, scope, now, issued.error)
      ensures issued != Err(RateLimited) ==> (issued.Ok? <==> Grantable(old(tables), agentId, tool, scope, now))
      ensures limiter == null ==> issued != Err(RateLimited)
      ensures limiter != null ==>
                forall minute: int :: minute as real * 60.0 <= read < (minute + 1) as real * 60.0 ==>
                  (issued == Err(RateLimited) <==>
                   CountAt(old(limiter.redis.space), old(limiter.redis.now), CounterName("grants:" + agentId, minute)) >= settings.grantsPerMinute)
      ensures issued.Ok? ==>
                && issued.value == TokenFor(settings, id, agentId, tool, scope, now)
                && Inserted(old(tables), tables, id, agentId, tool, scope, settings.signer.hash(issued.value), now)
      ensures issued.Ok? && cache != null ==>
                var name := IssuedName(settings.signer.hash(issued.value));
                name in cache.redis.space && cache.redis.space[name] == Entry(Text("1"), Some(cache.redis.now + settings.ttl as real))
    {
      var allowed := WithinRate(agentId, read, limiter);
      if !allowed {
        return Err(RateLimited);
      }
      var account := Bind(agentId, tool, scope);
      if account.Err? {
        return Err(account.error);
      }
      var active := CountActive(agentId, tool, scope, now);
      if active >= settings.maxActive {
        return Err(TooManyActive);
      }
      var token := TokenFor(settings, id, agentId, tool, scope, now);
      tables := tables.(grants := tables.grants[id := NewRow(settings, id, agentId, account.value, tool, scope, now)]);
      if cache != null {
        cache.RecordIssued(settings.signer.hash(token), settings.ttl);
      }
      return Ok(token);
    }

    /** Revokes a grant; revoking again keeps the first time and writes the marker again. */
    method RevokeGrant(id: string, now: real, cache: GrantCache?) returns (found: bool)
      modifies this`tables, if cache != null then {cache.redis} else {}
      ensures found <==> id in old(tables).grants
      ensures !found ==> tables == old(tables)
      ensures found ==>
                var was := old(tables).grants[id];
                tables == old(tables).(grants := old(tables).grants[id := was.(revokedAt := if was.revokedAt.Some? then was.revokedAt else Some(now))])
      ensures found && cache != null ==> HasMarker(cache.redis.space, cache.redis.now, old(tables).grants[id].hash)
    {
      if id !in tables.grants {
        return false;
      }
      var row := tables.grants[id];
      if row.revokedAt.None? {
        tables := tables.(grants := tables.grants[id := row.(revokedAt := Some(now))]);
      } else {
        assert tables.grants[id := row] == tables.grants;
      }
      if cache != null {
        cache.RecordRevoked(row.hash);
      }
      return true;
    }
  }
}
