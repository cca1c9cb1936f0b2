/**
 Interleaved runs of grant requests, revocations and cache losses.

 A request locks its agent's row, reads policy and account, reads the clock, counts the active
 grants and commits, each in a step of its own; the lock is released by the commit or by a
 denial.  A revocation commits `revoked_at` first and writes the Redis marker afterwards.
 */
module GrantRuns {
  import opened Common
  import opened Redis
  import opened GrantToken
  import opened Grants

  // What a request has read under the lock.
  datatype Backing = Backing(policy: Agent, account: string, record: Account)

  datatype Stage =
    | Asking
    | Locked(policy: Agent)
    | Bound(backing: Backing)
    | Timed(backing: Backing, at: real)
    | Counted(backing: Backing, at: real)
    | Announcing(hash: string)
    | Closed

  datatype Request = Request(agent: string, tool: string, scope: string, stage: Stage)

  datatype Phase = Reading | Setting | Marking(hash: string) | Unissuing(hash: string, at: real) | Done(hash: string, at: real) | Missing

  datatype Revoker = Revoker(grant: string, phase: Phase)

  // How a grant came to be issued, as it was at that moment.
  datatype Issue = Issue(token: string, backing: Backing, tool: Tool, at: real)

  datatype State = State(
    now: real,
    tables: Tables,
    space: Space,
    locks: map<string, nat>,
    requests: map<nat, Request>,
    revokers: map<nat, Revoker>,
    issues: map<string, Issue>)

  datatype RequestMove = Lock | Bind(account: Option<string>) | ReadClock | Count | Commit(id: string) | Announce

  datatype RevokeMove = ReadRow | SetRevoked | Mark | Unissue

  datatype Event =
    | Open(r: nat, agent: string, tool: string, scope: string)
    | Requesting(r: nat, ask: RequestMove)
    | Revoke(v: nat, id: string)
    | Revoking(v: nat, kill: RevokeMove)
    | EditAgent(id: string, policy: Agent)
    | Connect(id: string, record: Account)
    | Lose(names: set<Name>)
    | Foreign(space: Space)
    | Tick(elapsed: real)

  predicate SameMarkers(a: Space, b: Space) {
    && (forall n :: n in a && n.RevokedName? ==> n in b && b[n] == a[n])
    && (forall n :: n in b && n.RevokedName? ==> n in a)
  }

  predicate RequestEnabled(st: Settings, s: State, r: nat, m: RequestMove) {
    r in s.requests &&
    var q := s.requests[r];
    match m
    case Lock => q.stage.Asking? && q.agent !in s.locks
    case Bind(account) =>
      q.stage.Locked? &&
      (account.Some? ==>
         && Permitted(st, q.stage.policy, q.tool, q.scope)
         && Newest(s.tables.accounts, q.stage.policy.user, st.tools[q.tool].provider, account.value))
    case ReadClock => q.stage.Bound?
    case Count => q.stage.Timed?
    case Commit(id) => q.stage.Counted? && id !in s.tables.grants
    case Announce => q.stage.Announcing?
  }

  predicate RevokeEnabled(s: State, v: nat, m: RevokeMove) {
    v in s.revokers &&
    var k := s.revokers[v];
    match m
    case ReadRow => k.phase.Reading?
    case SetRevoked => k.phase.Setting? && k.grant in s.tables.grants
    case Mark => k.phase.Marking?
    case Unissue => k.phase.Unissuing?
  }

  predicate Enabled(st: Settings, s: State, e: Event) {
    match e
    case Open(r, _, _, _) => r !in s.requests
    case Requesting(r, m) => RequestEnabled(st, s, r, m)
    case Revoke(v, _) => v !in s.revokers
    case Revoking(v, m) => RevokeEnabled(s, v, m)
    case EditAgent(id, _) => id !in s.locks
    case Connect(id, _) => id !in s.tables.accounts
    case Lose(_) => true
    case Foreign(space) => SameMarkers(s.space, space)
    case Tick(elapsed) => elapsed >= 0.0
  }

  function Staged(s: State, r: nat, stage: Stage): State
    requires r in s.requests
  {
    s.(requests := s.requests[r := s.requests[r].(stage := stage)])
  }

  function Phased(s: State, v: nat, phase: Phase): State
    requires v in s.revokers
  {
    s.(revokers := s.revokers[v := s.revokers[v].(phase := phase)])
  }

  // A request that ends under the lock gives it up.
  function Unlocked(s: State, r: nat, stage: Stage): State
    requires r in s.requests
  {
    Staged(s, r, stage).(locks := s.locks - {s.requests[r].agent})
  }

  // The insert: the row the request has prepared, and a record of what it was based on.
  function Issued(st: Settings, s: State, r: nat, id: string): State
    requires r in s.requests && s.requests[r].stage.Counted?
  {
    var q := s.requests[r];
    var row := NewRow(st, id, q.agent, q.stage.backing.account, q.tool, q.scope, q.stage.at);
    var tool := if q.tool in st.tools then st.tools[q.tool] else Tool("", "");
    Unlocked(s, r, Announcing(row.hash)).(
      tables := s.tables.(grants := s.tables.grants[id := row]),
      issues := s.issues[id := Issue(TokenFor(st, id, q.agent, q.tool, q.scope, q.stage.at), q.stage.backing, tool, q.stage.at)])
  }

  function RequestStep(st: Settings, s: State, r: nat, m: RequestMove): State
    requires RequestEnabled(st, s, r, m)
  {
    var q := s.requests[r];
    match m
    case Lock =>
      if q.agent !in s.tables.agents then Staged(s, r, Closed)
      else Staged(s, r, Locked(s.tables.agents[q.agent])).(locks := s.locks[q.agent := r])
    case Bind(account) =>
      if account.None? then Unlocked(s, r, Closed)
      else Staged(s, r, Bound(Backing(q.stage.policy, account.value, s.tables.accounts[account.value])))
    case ReadClock => Staged(s, r, Timed(q.stage.backing, s.now))
    case Count =>
      if |ActiveIds(s.tables.grants, q.agent, q.tool, q.scope, q.stage.at)| >= st.maxActive
      then Unlocked(s, r, Closed)
      else Staged(s, r, Counted(q.stage.backing, q.stage.at))
    case Commit(id) => Issued(st, s, r, id)
    case Announce => Staged(s, r, Closed).(space := Put(s.space, s.now, IssuedName(q.stage.hash), Text("1"), st.ttl))
  }

  function RevokeStep(s: State, v: nat, m: RevokeMove): State
    requires RevokeEnabled(s, v, m)
  {
    var k := s.revokers[v];
    match m
    case ReadRow =>
      if k.grant !in s.tables.grants then Phased(s, v, Missing)
      else if s.tables.grants[k.grant].revokedAt.Some? then Phased(s, v, Marking(s.tables.grants[k.grant].hash))
      else Phased(s, v, Setting)
    case SetRevoked =>
      var row := s.tables.grants[k.grant];
      Phased(s, v, Marking(row.hash)).(tables := s.tables.(grants := s.tables.grants[k.grant := row.(revokedAt := Some(s.now))]))
    case Mark => Phased(s, v, Unissuing(k.phase.hash, s.now)).(space := MarkRevoked(s.space, s.now, k.phase.hash))
    case Unissue => Phased(s, v, Done(k.phase.hash, k.phase.at)).(space := Remove(s.space, IssuedName(k.phase.hash)))
  }

  function Step(st: Settings, s: State, e: Event): State
    requires Enabled(st, s, e)
  {
    match e
    case Open(r, agent, tool, scope) => s.(requests := s.requests[r := Request(agent, tool, scope, Asking)])
    case Requesting(r, m) => RequestStep(st, s, r, m)
    case Revoke(v, id) => s.(revokers := s.revokers[v := Revoker(id, Reading)])
    case Revoking(v, m) => RevokeStep(s, v, m)
    case EditAgent(id, policy) => s.(tables := s.tables.(agents := s.tables.agents[id := policy]))
    case Connect(id, record) => s.(tables := s.tables.(accounts := s.tables.accounts[id := record]))
    case Lose(names) => s.(space := s.space - names)
    case Foreign(space) => s.(space := space)
    case Tick(elapsed) => s.(now := s.now + elapsed)
  }

  ghost predicate Initial(s: State) {
    && s.now >= 0.0 && s.tables.grants == map[] && s.issues == map[]
    && s.locks == map[] && s.requests == map[] && s.revokers == map[]
    && forall n :: n in s.space ==> !n.RevokedName?
  }

  ghost predicate Run(st: Settings, ss: seq<State>, es: seq<Event>) {
    && |ss| == |es| + 1
    && Initial(ss[0])
    && forall k :: 0 <= k < |es| ==> Enabled(st, ss[k], es[k]) && ss[k + 1] == Step(st, ss[k], es[k])
  }

  // ---- The active-grant bound ----

  predicate HoldsLock(q: Request) {
    q.stage.Locked? || q.stage.Bound? || q.stage.Timed? || q.stage.Counted?
  }

  ghost predicate LockOk(s: State, r: nat)
    requires r in s.requests
  {
    var q := s.requests[r];
    && (HoldsLock(q) ==> q.agent in s.locks && s.locks[q.agent] == r)
    && (q.stage.Timed? || q.stage.Counted? ==> q.stage.at <= s.now)
  }

  ghost predicate CountOk(st: Settings, s: State, r: nat)
    requires r in s.requests
  {
    var q := s.requests[r];
    q.stage.Counted? ==> |ActiveIds(s.tables.grants, q.agent, q.tool, q.scope, q.stage.at)| < st.maxActive
  }

  ghost predicate Within(st: Settings, s: State, agent: string, tool: string, scope: string) {
    |ActiveIds(s.tables.grants, agent, tool, scope, s.now)| <= if st.maxActive < 0 then 0 else st.maxActive
  }

  ghost predicate Capped(st: Settings, s: State) {
    && (forall r :: r in s.requests ==> LockOk(s, r) && CountOk(st, s, r))
    && (forall agent, tool, scope :: Within(st, s, agent, tool, scope))
  }

  // Without an insert the active set of a key only shrinks, as rows are revoked and time passes.
  lemma ActiveShrinks(before: map<string, Row>, after: map<string, Row>, agent: string, tool: string, scope: string, at: real, later: real)
    requires at <= later
    requires forall id :: id in after && ActiveAt(after[id], agent, tool, scope, later) ==> id in before && ActiveAt(before[id], agent, tool, scope, later)
    ensures |ActiveIds(after, agent, tool, scope, later)| <= |ActiveIds(before, agent, tool, scope, at)|
  {
    SubsetSize(ActiveIds(after, agent, tool, scope, later), ActiveIds(before, agent, tool, scope, at));
  }

  lemma {:induction false} SubsetSize<T>(a: set<T>, b: set<T>)
    requires a <= b
    ensures |a| <= |b|
    decreases |b|
  {
    if a != {} {
      var x :| x in a;
      SubsetSize(a - {x}, b - {x});
    }
  }

  predicate Commits(e: Event) {
    e.Requesting? && e.ask.Commit?
  }

  // From one table to the next no row is inserted, and rows change only by being revoked.
  ghost predicate OnlyRevoked(before: map<string, Row>, after: map<string, Row>) {
    && (forall id :: id in before ==> id in after)
    && (forall id :: id in after ==> id in before && (after[id] == before[id] || (after[id].revokedAt.Some? && after[id] == before[id].(revokedAt := after[id].revokedAt))))
  }

  lemma RequestKeepsRows(st: Settings, s: State, r: nat, m: RequestMove)
    requires RequestEnabled(st, s, r, m) && !m.Commit?
    ensures RequestStep(st, s, r, m).tables == s.tables
    ensures RequestStep(st, s, r, m).issues == s.issues
  {
  }

  lemma MovesKeepClock(st: Settings, s: State, r: nat, m: RequestMove)
    requires RequestEnabled(st, s, r, m)
    ensures RequestStep(st, s, r, m).now == s.now
  {
  }

  lemma KillsKeepClock(s: State, v: nat, m: RevokeMove)
    requires RevokeEnabled(s, v, m)
    ensures RevokeStep(s, v, m).now == s.now && RevokeStep(s, v, m).issues == s.issues
  {
  }

  lemma RevokeOnlyRevokes(s: State, v: nat, m: RevokeMove)
    requires RevokeEnabled(s, v, m)
    ensures OnlyRevoked(s.tables.grants, RevokeStep(s, v, m).tables.grants)
  {
  }

  lemma RowsOnlyRevoked(st: Settings, s: State, e: Event)
    requires Enabled(st, s, e) && !Commits(e)
    ensures OnlyRevoked(s.tables.grants, Step(st, s, e).tables.grants)
  {
    if e.Requesting? {
      RequestKeepsRows(st, s, e.r, e.ask);
    } else if e.Revoking? {
      RevokeOnlyRevokes(s, e.v, e.kill);
    }
  }

  lemma RowsShrink(st: Settings, s: State, e: Event, agent: string, tool: string, scope: string, at: real)
    requires Enabled(st, s, e)
    requires Commits(e) ==> var q := s.requests[e.r]; q.agent != agent || q.tool != tool || q.scope != scope
    ensures |ActiveIds(Step(st, s, e).tables.grants, agent, tool, scope, at)| <= |ActiveIds(s.tables.grants, agent, tool, scope, at)|
  {
    if !Commits(e) {
      RowsOnlyRevoked(st, s, e);
    }
    ActiveShrinks(s.tables.grants, Step(st, s, e).tables.grants, agent, tool, scope, at, at);
  }

  // What a move of request r does to the requests and locks.
  ghost predicate MoveEffect(s: State, t: State, r: nat)
    requires r in s.requests
  {
    var agent := s.requests[r].agent;
    && t.now == s.now
    && r in t.requests && t.requests == s.requests[r := t.requests[r]] && t.requests[r].agent == agent
    && (t.requests[r].stage.Timed? ==> t.requests[r].stage.at <= s.now)
    && (t.requests[r].stage.Counted? ==> s.requests[r].stage.Timed? && t.requests[r].stage.at == s.requests[r].stage.at)
    && (if HoldsLock(t.requests[r])
        then t.locks == s.locks[agent := r] && (HoldsLock(s.requests[r]) || agent !in s.locks)
        else t.locks == s.locks || (t.locks == s.locks - {agent} && HoldsLock(s.requests[r])))
  }

  lemma MoveHasEffect(st: Settings, s: State, r: nat, m: RequestMove)
    requires RequestEnabled(st, s, r, m) && LockOk(s, r)
    ensures MoveEffect(s, RequestStep(st, s, r, m), r)
  {
    assert HoldsLock(s.requests[r]) ==> s.locks == s.locks[s.requests[r].agent := r];
  }

  lemma EffectKeepsLocks(s: State, t: State, r: nat, other: nat)
    requires r in s.requests && other in s.requests && MoveEffect(s, t, r)
    requires LockOk(s, r) && LockOk(s, other)
    ensures other in t.requests && LockOk(t, other)
  {
  }

  lemma LockOkStep(st: Settings, s: State, e: Event, r: nat)
    requires Enabled(st, s, e) && r in Step(st, s, e).requests
    requires forall q :: q in s.requests ==> LockOk(s, q)
    ensures LockOk(Step(st, s, e), r)
  {
    if e.Requesting? {
      MoveHasEffect(st, s, e.r, e.ask);
      EffectKeepsLocks(s, Step(st, s, e), e.r, r);
    } else if r in s.requests {
      assert LockOk(s, r);
      OthersKeepRequests(st, s, e);
    }
  }

  lemma OthersKeepRequests(st: Settings, s: State, e: Event)
    requires Enabled(st, s, e) && !e.Requesting?
    ensures var t := Step(st, s, e); t.locks == s.locks && s.now <= t.now && forall r :: r in s.requests ==> r in t.requests && t.requests[r] == s.requests[r]
  {
    if e.Revoking? {
      assert RevokeStep(s, e.v, e.kill).requests == s.requests;
    }
  }

  lemma CountOkMove(st: Settings, s: State, r: nat, m: RequestMove, other: nat)
    requires RequestEnabled(st, s, r, m) && other in s.requests
    requires LockOk(s, r) && LockOk(s, other) && CountOk(st, s, other)
    ensures other in RequestStep(st, s, r, m).requests && CountOk(st, RequestStep(st, s, r, m), other)
  {
    var q := s.requests[other];
    if other != r && q.stage.Counted? {
      RowsShrink(st, s, Requesting(r, m), q.agent, q.tool, q.scope, q.stage.at);
    }
  }

  lemma CountOkStep(st: Settings, s: State, e: Event, r: nat)
    requires Enabled(st, s, e) && r in s.requests && r in Step(st, s, e).requests
    requires LockOk(s, r) && CountOk(st, s, r) && (Commits(e) ==> LockOk(s, e.r))
    requires e.Requesting? ==> LockOk(s, e.r)
    ensures CountOk(st, Step(st, s, e), r)
  {
    var q := s.requests[r];
    if e.Requesting? {
      CountOkMove(st, s, e.r, e.ask, r);
    } else {
      OthersKeepRequests(st, s, e);
      RowsShrink(st, s, e, q.agent, q.tool, q.scope, if q.stage.Counted? then q.stage.at else 0.0);
    }
  }

  lemma WithinCommit(st: Settings, s: State, r: nat, id: string)
    requires RequestEnabled(st, s, r, Commit(id)) && LockOk(s, r) && CountOk(st, s, r)
    ensures Within(st, RequestStep(st, s, r, Commit(id)), s.requests[r].agent, s.requests[r].tool, s.requests[r].scope)
  {
    var q := s.requests[r];
    var t := RequestStep(st, s, r, Commit(id));
    ActiveShrinks(s.tables.grants, s.tables.grants, q.agent, q.tool, q.scope, q.stage.at, s.now);
    SubsetSize(ActiveIds(t.tables.grants, q.agent, q.tool, q.scope, s.now), ActiveIds(s.tables.grants, q.agent, q.tool, q.scope, s.now) + {id});
  }

  // Any step but an insert of its own leaves a key's active set no larger.
  lemma WithinOther(st: Settings, s: State, e: Event, agent: string, tool: string, scope: string)
    requires Enabled(st, s, e) && Within(st, s, agent, tool, scope)
    requires Commits(e) ==> var q := s.requests[e.r]; q.agent != agent || q.tool != tool || q.scope != scope
    ensures Within(st, Step(st, s, e), agent, tool, scope)
  {
    var t := Step(st, s, e);
    RowsShrink(st, s, e, agent, tool, scope, s.now);
    ClockAdvances(st, s, e);
    ActiveShrinks(t.tables.grants, t.tables.grants, agent, tool, scope, s.now, t.now);
  }

  lemma WithinStep(st: Settings, s: State, e: Event, agent: string, tool: string, scope: string)
    requires Enabled(st, s, e) && Within(st, s, agent, tool, scope)
    requires Commits(e) ==> LockOk(s, e.r) && CountOk(st, s, e.r)
    ensures Within(st, Step(st, s, e), agent, tool, scope)
  {
    if Commits(e) && s.requests[e.r].agent == agent && s.requests[e.r].tool == tool && s.requests[e.r].scope == scope {
      WithinCommit(st, s, e.r, e.ask.id);
    } else {
      WithinOther(st, s, e, agent, tool, scope);
    }
  }

  lemma CappedStep(st: Settings, s: State, e: Event)
    requires Enabled(st, s, e) && Capped(st, s)
    ensures Capped(st, Step(st, s, e))
  {
    var t := Step(st, s, e);
    forall r | r in t.requests ensures LockOk(t, r) && CountOk(st, t, r) {
      LockOkStep(st, s, e, r);
      if r in s.requests {
        CountOkStep(st, s, e, r);
      }
    }
    forall agent, tool, scope ensures Within(st, t, agent, tool, scope) {
      assert Within(st, s, agent, tool, scope);
      WithinStep(st, s, e, agent, tool, scope);
    }
  }

  lemma {:induction false} AlwaysCapped(st: Settings, ss: seq<State>, es: seq<Event>, k: nat)
    requires Run(st, ss, es) && k < |ss|
    ensures Capped(st, ss[k])
  {
    if k == 0 {
      forall agent, tool, scope ensures Within(st, ss[0], agent, tool, scope) {
        assert ActiveIds(ss[0].tables.grants, agent, tool, scope, ss[0].now) == {};
      }
    } else {
      AlwaysCapped(st, ss, es, k - 1);
      CappedStep(st, ss[k - 1], es[k - 1]);
    }
  }

  /** In every reachable state the unrevoked, unexpired grants of each agent, tool and scope number at most the configured maximum. */
  lemma ActiveGrantsBounded(st: Settings, ss: seq<State>, es: seq<Event>, k: nat, agent: string, tool: string, scope: string)
    requires Run(st, ss, es) && k < |ss| && st.maxActive >= 0
    ensures
      var grants := ss[k].tables.grants;
      |set id | id in grants && grants[id].agent == agent && grants[id].tool == tool && grants[id].scope == scope
                && grants[id].revokedAt.None? && ss[k].now < grants[id].expiresAt| <= st.maxActive
  {
    AlwaysCapped(st, ss, es, k);
    assert Within(st, ss[k], agent, tool, scope);
    var grants := ss[k].tables.grants;
    assert ActiveIds(grants, agent, tool, scope, ss[k].now) ==
           set id | id in grants && grants[id].agent == agent && grants[id].tool == tool && grants[id].scope == scope
                    && grants[id].revokedAt.None? && ss[k].now < grants[id].expiresAt;
  }

  // ---- Where rows and markers come from ----

  ghost predicate BackingOk(st: Settings, q: Request, b: Backing) {
    && Permitted(st, b.policy, q.tool, q.scope)
    && q.tool in st.tools
    && b.record.user == b.policy.user && b.record.provider == st.tools[q.tool].provider
  }

  ghost predicate RequestBacked(st: Settings, s: State, r: nat)
    requires r in s.requests
  {
    var q := s.requests[r];
    && (q.stage.Bound? || q.stage.Timed? || q.stage.Counted? ==> BackingOk(st, q, q.stage.backing))
    && (q.stage.Timed? || q.stage.Counted? ==> q.stage.at <= s.now)
  }

  // The row is one that a request was entitled to insert, given the policy and account it read under the lock.
  ghost predicate RowTraced(st: Settings, s: State, id: string)
    requires id in s.tables.grants
  {
    var row := s.tables.grants[id];
    id in s.issues &&
    var issue := s.issues[id];
    && issue.token == TokenFor(st, id, row.agent, row.tool, row.scope, issue.at)
    && row == NewRow(st, id, row.agent, issue.backing.account, row.tool, row.scope, issue.at).(revokedAt := row.revokedAt)
    && issue.at <= s.now
    && BackingOk(st, Request(row.agent, row.tool, row.scope, Closed), issue.backing)
    && issue.tool == st.tools[row.tool]
  }

  ghost predicate RevokedRow(s: State, id: string, hash: string) {
    id in s.tables.grants && s.tables.grants[id].hash == hash && s.tables.grants[id].revokedAt.Some?
  }

  ghost predicate RevokerOk(s: State, v: nat)
    requires v in s.revokers
  {
    var k := s.revokers[v];
    && (k.phase.Marking? || k.phase.Unissuing? || k.phase.Done? ==> RevokedRow(s, k.grant, k.phase.hash))
    && (k.phase.Unissuing? || k.phase.Done? ==> s.tables.grants[k.grant].issuedAt <= k.phase.at)
  }

  ghost predicate MarkerTrue(s: State, hash: string) {
    RevokedName(hash) in s.space ==> exists id :: RevokedRow(s, id, hash)
  }

  ghost predicate Traced(st: Settings, s: State) {
    && (forall r :: r in s.requests ==> RequestBacked(st, s, r))
    && (forall id :: id in s.tables.grants ==> RowTraced(st, s, id))
    && (forall v :: v in s.revokers ==> RevokerOk(s, v))
    && (forall hash :: MarkerTrue(s, hash))
  }

  // Rows stay, and stay revoked; nothing else about a row or its issue ever changes.
  ghost predicate Grows(s: State, t: State) {
    && s.now <= t.now
    && (forall id :: id in s.tables.grants ==>
          && id in t.tables.grants
          && (t.tables.grants[id] == s.tables.grants[id]
              || (t.tables.grants[id].revokedAt.Some? && t.tables.grants[id] == s.tables.grants[id].(revokedAt := t.tables.grants[id].revokedAt)))
          && (id in s.issues ==> id in t.issues && t.issues[id] == s.issues[id]))
  }

  lemma StepGrows(st: Settings, s: State, e: Event)
    requires Enabled(st, s, e)
    ensures Grows(s, Step(st, s, e))
  {
    ClockAdvances(st, s, e);
    if !Commits(e) {
      RowsOnlyRevoked(st, s, e);
      IssuesKept(st, s, e);
    }
  }

  lemma IssuesKept(st: Settings, s: State, e: Event)
    requires Enabled(st, s, e) && !Commits(e)
    ensures Step(st, s, e).issues == s.issues
  {
    if e.Requesting? {
      RequestKeepsRows(st, s, e.r, e.ask);
    } else if e.Revoking? {
      KillsKeepClock(s, e.v, e.kill);
    }
  }

  lemma ClockAdvances(st: Settings, s: State, e: Event)
    requires Enabled(st, s, e)
    ensures s.now <= Step(st, s, e).now
  {
    if e.Requesting? {
      MovesKeepClock(st, s, e.r, e.ask);
    } else if e.Revoking? {
      KillsKeepClock(s, e.v, e.kill);
    }
  }

  lemma GrowsTransitive(s: State, t: State, u: State)
    requires Grows(s, t) && Grows(t, u)
    ensures Grows(s, u)
  {
  }

  lemma {:induction false} RunGrows(st: Settings, ss: seq<State>, es: seq<Event>, k: nat, m: nat)
    requires Run(st, ss, es) && k <= m < |ss|
    ensures Grows(ss[k], ss[m])
    decreases m
  {
    if k < m {
      RunGrows(st, ss, es, k, m - 1);
      StepGrows(st, ss[m - 1], es[m - 1]);
      GrowsTransitive(ss[k], ss[m - 1], ss[m]);
    }
  }

  lemma BackedMove(st: Settings, s: State, r: nat, m: RequestMove)
    requires RequestEnabled(st, s, r, m) && RequestBacked(st, s, r)
    ensures RequestBacked(st, RequestStep(st, s, r, m), r)
  {
  }

  lemma MoveKeepsOthers(st: Settings, s: State, r: nat, m: RequestMove, other: nat)
    requires RequestEnabled(st, s, r, m) && other in s.requests && other != r
    ensures
      var t := RequestStep(st, s, r, m);
      other in t.requests && t.requests[other] == s.requests[other] && t.now == s.now
  {
  }

  lemma BackedStep(st: Settings, s: State, e: Event, r: nat)
    requires Enabled(st, s, e) && r in s.requests && r in Step(st, s, e).requests && RequestBacked(st, s, r)
    ensures RequestBacked(st, Step(st, s, e), r)
  {
    if e.Requesting? {
      if e.r == r {
        BackedMove(st, s, r, e.ask);
      } else {
        MoveKeepsOthers(st, s, e.r, e.ask, r);
      }
    } else {
      OthersKeepRequests(st, s, e);
    }
  }

  lemma NewRequestIsAsking(st: Settings, s: State, e: Event, r: nat)
    requires Enabled(st, s, e) && r in Step(st, s, e).requests && r !in s.requests
    ensures Step(st, s, e).requests[r].stage.Asking?
  {
    if e.Revoking? {
      RevokeKeepsRequests(s, e.v, e.kill);
    } else if e.Requesting? {
      RequestAddsNone(st, s, e.r, e.ask, r);
    }
  }

  lemma RequestAddsNone(st: Settings, s: State, r: nat, m: RequestMove, other: nat)
    requires RequestEnabled(st, s, r, m) && other in RequestStep(st, s, r, m).requests
    ensures other in s.requests
  {
  }

  lemma RevokeKeepsRequests(s: State, v: nat, m: RevokeMove)
    requires RevokeEnabled(s, v, m)
    ensures RevokeStep(s, v, m).requests == s.requests
    ensures RevokeStep(s, v, m).revokers.Keys == s.revokers.Keys
  {
  }

  lemma NewRevokerIsReading(st: Settings, s: State, e: Event, v: nat)
    requires Enabled(st, s, e) && v in Step(st, s, e).revokers && v !in s.revokers
    ensures Step(st, s, e).revokers[v].phase.Reading?
  {
    if e.Requesting? {
      RequestKeepsRevokers(st, s, e.r, e.ask);
    } else if e.Revoking? {
      RevokeKeepsRequests(s, e.v, e.kill);
    }
  }

  lemma CommitTraced(st: Settings, s: State, r: nat, id: string)
    requires RequestEnabled(st, s, r, Commit(id)) && RequestBacked(st, s, r)
    ensures RowTraced(st, RequestStep(st, s, r, Commit(id)), id)
  {
  }

  lemma RowTracedStep(st: Settings, s: State, e: Event, id: string)
    requires Enabled(st, s, e) && id in Step(st, s, e).tables.grants
    requires id in s.tables.grants ==> RowTraced(st, s, id)
    requires Commits(e) ==> RequestBacked(st, s, e.r)
    ensures RowTraced(st, Step(st, s, e), id)
  {
    StepGrows(st, s, e);
    if id !in s.tables.grants {
      if !Commits(e) {
        RowsOnlyRevoked(st, s, e);
      } else {
        CommitTraced(st, s, e.r, e.ask.id);
      }
    }
  }

  lemma RevokedRowStays(s: State, t: State, id: string, hash: string)
    requires Grows(s, t) && RevokedRow(s, id, hash)
    ensures RevokedRow(t, id, hash)
  {
  }

  lemma RevokerOkMove(s: State, v: nat, m: RevokeMove)
    requires RevokeEnabled(s, v, m) && RevokerOk(s, v)
    requires forall id :: id in s.tables.grants ==> s.tables.grants[id].issuedAt <= s.now
    ensures RevokerOk(RevokeStep(s, v, m), v)
  {
  }

  lemma RevokerOkKept(s: State, t: State, v: nat)
    requires v in s.revokers && RevokerOk(s, v) && Grows(s, t) && v in t.revokers && t.revokers[v] == s.revokers[v]
    ensures RevokerOk(t, v)
  {
  }

  lemma RevokerOkStep(st: Settings, s: State, e: Event, v: nat)
    requires Enabled(st, s, e) && v in s.revokers && v in Step(st, s, e).revokers && RevokerOk(s, v)
    requires forall id :: id in s.tables.grants ==> s.tables.grants[id].issuedAt <= s.now
    ensures RevokerOk(Step(st, s, e), v)
  {
    if e.Revoking? && e.v == v {
      RevokerOkMove(s, v, e.kill);
    } else {
      StepGrows(st, s, e);
      RevokersKept(st, s, e, v);
      RevokerOkKept(s, Step(st, s, e), v);
    }
  }

  lemma RequestKeepsRevokers(st: Settings, s: State, r: nat, m: RequestMove)
    requires RequestEnabled(st, s, r, m)
    ensures RequestStep(st, s, r, m).revokers == s.revokers
  {
  }

  lemma RevokersKept(st: Settings, s: State, e: Event, v: nat)
    requires Enabled(st, s, e) && v in s.revokers && !(e.Revoking? && e.v == v)
    ensures v in Step(st, s, e).revokers && Step(st, s, e).revokers[v] == s.revokers[v]
  {
    if e.Requesting? {
      RequestKeepsRevokers(st, s, e.r, e.ask);
    }
  }

  predicate Marks(e: Event) {
    e.Revoking? && e.kill.Mark?
  }

  // Only the marking step of a revocation writes a revocation marker.
  lemma MarkersKept(st: Settings, s: State, e: Event, hash: string)
    requires Enabled(st, s, e) && !Marks(e)
    ensures RevokedName(hash) in Step(st, s, e).space ==> RevokedName(hash) in s.space && Step(st, s, e).space[RevokedName(hash)] == s.space[RevokedName(hash)]
    ensures RevokedName(hash) in s.space && !e.Lose? ==> RevokedName(hash) in Step(st, s, e).space
  {
    if e.Requesting? {
      RequestKeepsMarkers(st, s, e.r, e.ask, hash);
    }
  }

  lemma RequestKeepsMarkers(st: Settings, s: State, r: nat, m: RequestMove, hash: string)
    requires RequestEnabled(st, s, r, m)
    ensures
      var t := RequestStep(st, s, r, m);
      && (RevokedName(hash) in t.space <==> RevokedName(hash) in s.space)
      && (RevokedName(hash) in s.space ==> t.space[RevokedName(hash)] == s.space[RevokedName(hash)])
  {
  }

  lemma MarkerTrueStep(st: Settings, s: State, e: Event, hash: string)
    requires Enabled(st, s, e) && MarkerTrue(s, hash) && (Marks(e) ==> RevokerOk(s, e.v))
    ensures MarkerTrue(Step(st, s, e), hash)
  {
    StepGrows(st, s, e);
    var t := Step(st, s, e);
    if RevokedName(hash) in t.space {
      if Marks(e) && s.revokers[e.v].phase.hash == hash {
        RevokedRowStays(s, t, s.revokers[e.v].grant, hash);
      } else {
        if !Marks(e) {
          MarkersKept(st, s, e, hash);
        }
        var id :| RevokedRow(s, id, hash);
        RevokedRowStays(s, t, id, hash);
      }
    }
  }

  lemma {:induction false} AlwaysTraced(st: Settings, ss: seq<State>, es: seq<Event>, k: nat)
    requires Run(st, ss, es) && k < |ss|
    ensures Traced(st, ss[k])
  {
    if k > 0 {
      AlwaysTraced(st, ss, es, k - 1);
      TracedStep(st, ss[k - 1], es[k - 1]);
    }
  }

  lemma TracedStep(st: Settings, s: State, e: Event)
    requires Enabled(st, s, e) && Traced(st, s)
    ensures Traced(st, Step(st, s, e))
  {
    var t := Step(st, s, e);
    forall r | r in t.requests ensures RequestBacked(st, t, r) {
      if r in s.requests {
        BackedStep(st, s, e, r);
      } else {
        NewRequestIsAsking(st, s, e, r);
      }
    }
    forall id | id in t.tables.grants ensures RowTraced(st, t, id) {
      RowTracedStep(st, s, e, id);
    }
    assert forall id :: id in s.tables.grants ==> RowTraced(st, s, id) && s.tables.grants[id].issuedAt <= s.now;
    forall v | v in t.revokers ensures RevokerOk(t, v) {
      if v in s.revokers {
        RevokerOkStep(st, s, e, v);
      } else {
        NewRevokerIsReading(st, s, e, v);
      }
    }
    forall hash ensures MarkerTrue(t, hash) {
      MarkerTrueStep(st, s, e, hash);
    }
  }

  // ---- Accounts stay as they were bound ----

  ghost predicate StoredBacking(s: State, b: Backing) {
    b.account in s.tables.accounts && s.tables.accounts[b.account] == b.record
  }

  ghost predicate RequestBound(s: State, r: nat)
    requires r in s.requests
  {
    var stage := s.requests[r].stage;
    stage.Bound? || stage.Timed? || stage.Counted? ==> StoredBacking(s, stage.backing)
  }

  ghost predicate AllBound(s: State) {
    && (forall r :: r in s.requests ==> RequestBound(s, r))
    && (forall id :: id in s.issues ==> StoredBacking(s, s.issues[id].backing))
  }

  lemma AccountsStay(st: Settings, s: State, e: Event, b: Backing)
    requires Enabled(st, s, e) && StoredBacking(s, b)
    ensures StoredBacking(Step(st, s, e), b)
  {
    if e.Requesting? {
      MoveKeepsAccounts(st, s, e.r, e.ask);
    }
  }

  // An account once stored stays as it is.
  lemma {:induction false} RunKeepsAccounts(st: Settings, ss: seq<State>, es: seq<Event>, x: nat, k: nat, b: Backing)
    requires Run(st, ss, es) && x <= k < |ss| && StoredBacking(ss[x], b)
    ensures StoredBacking(ss[k], b)
    decreases k
  {
    if x < k {
      RunKeepsAccounts(st, ss, es, x, k - 1, b);
      AccountsStay(st, ss[k - 1], es[k - 1], b);
    }
  }

  lemma MoveKeepsAccounts(st: Settings, s: State, r: nat, m: RequestMove)
    requires RequestEnabled(st, s, r, m)
    ensures RequestStep(st, s, r, m).tables.accounts == s.tables.accounts
  {
  }

  lemma BoundMove(st: Settings, s: State, r: nat, m: RequestMove)
    requires RequestEnabled(st, s, r, m) && RequestBound(s, r)
    ensures RequestBound(RequestStep(st, s, r, m), r)
  {
    MoveKeepsAccounts(st, s, r, m);
  }

  lemma BoundStep(st: Settings, s: State, e: Event, r: nat)
    requires Enabled(st, s, e) && r in Step(st, s, e).requests && (r in s.requests ==> RequestBound(s, r))
    ensures RequestBound(Step(st, s, e), r)
  {
    if r !in s.requests {
      NewRequestIsAsking(st, s, e, r);
    } else if e.Requesting? && e.r == r {
      BoundMove(st, s, r, e.ask);
    } else {
      if e.Requesting? {
        MoveKeepsOthers(st, s, e.r, e.ask, r);
      } else {
        OthersKeepRequests(st, s, e);
      }
      var stage := s.requests[r].stage;
      if stage.Bound? || stage.Timed? || stage.Counted? {
        AccountsStay(st, s, e, stage.backing);
      }
    }
  }

  lemma IssueBound(st: Settings, s: State, e: Event, id: string)
    requires Enabled(st, s, e) && AllBound(s) && id in Step(st, s, e).issues
    ensures StoredBacking(Step(st, s, e), Step(st, s, e).issues[id].backing)
  {
    if !Commits(e) {
      IssuesKept(st, s, e);
      AccountsStay(st, s, e, s.issues[id].backing);
    } else {
      MoveKeepsAccounts(st, s, e.r, e.ask);
      assert RequestBound(s, e.r);
      if id != e.ask.id {
        assert StoredBacking(s, s.issues[id].backing);
      }
    }
  }

  lemma AllBoundStep(st: Settings, s: State, e: Event)
    requires Enabled(st, s, e) && AllBound(s)
    ensures AllBound(Step(st, s, e))
  {
    var t := Step(st, s, e);
    forall r | r in t.requests ensures RequestBound(t, r) {
      BoundStep(st, s, e, r);
    }
    forall id | id in t.issues ensures StoredBacking(t, t.issues[id].backing) {
      IssueBound(st, s, e, id);
    }
  }

  /** In every state the account an issued grant was bound to is still the one the request read: same user, same provider. */
  lemma {:induction false} AlwaysBound(st: Settings, ss: seq<State>, es: seq<Event>, k: nat)
    requires Run(st, ss, es) && k < |ss|
    ensures AllBound(ss[k])
  {
    if k > 0 {
      AlwaysBound(st, ss, es, k - 1);
      AllBoundStep(st, ss[k - 1], es[k - 1]);
    }
  }

  // ---- The policy a grant was issued by ----

  function PolicyOf(stage: Stage): Agent
    requires stage.Locked? || stage.Bound? || stage.Timed? || stage.Counted?
  {
    if stage.Locked? then stage.policy else stage.backing.policy
  }

  // Under its lock a request works with its own agent's row as it is now: nobody edits a locked row.
  ghost predicate PolicyHeld(s: State, r: nat)
    requires r in s.requests
  {
    var q := s.requests[r];
    HoldsLock(q) ==> q.agent in s.tables.agents && s.tables.agents[q.agent] == PolicyOf(q.stage)
  }

  lemma MoveKeepsAgents(st: Settings, s: State, r: nat, m: RequestMove)
    requires RequestEnabled(st, s, r, m)
    ensures RequestStep(st, s, r, m).tables.agents == s.tables.agents
  {
  }

  lemma PolicyMove(st: Settings, s: State, r: nat, m: RequestMove)
    requires RequestEnabled(st, s, r, m) && PolicyHeld(s, r)
    ensures PolicyHeld(RequestStep(st, s, r, m), r)
  {
    MoveKeepsAgents(st, s, r, m);
  }

  lemma OthersKeepAgents(st: Settings, s: State, e: Event, id: string)
    requires Enabled(st, s, e) && !(e.EditAgent? && e.id == id) && id in s.tables.agents
    ensures id in Step(st, s, e).tables.agents && Step(st, s, e).tables.agents[id] == s.tables.agents[id]
  {
    if e.Requesting? {
      MoveKeepsAgents(st, s, e.r, e.ask);
    }
  }

  lemma PolicyStep(st: Settings, s: State, e: Event, r: nat)
    requires Enabled(st, s, e) && r in Step(st, s, e).requests
    requires r in s.requests ==> PolicyHeld(s, r) && LockOk(s, r)
    ensures PolicyHeld(Step(st, s, e), r)
  {
    if r !in s.requests {
      NewRequestIsAsking(st, s, e, r);
    } else if e.Requesting? && e.r == r {
      PolicyMove(st, s, r, e.ask);
    } else {
      if e.Requesting? {
        MoveKeepsOthers(st, s, e.r, e.ask, r);
      } else {
        OthersKeepRequests(st, s, e);
      }
      if HoldsLock(s.requests[r]) {
        OthersKeepAgents(st, s, e, s.requests[r].agent);
      }
    }
  }

  lemma {:induction false} AlwaysPolicyHeld(st: Settings, ss: seq<State>, es: seq<Event>, k: nat, r: nat)
    requires Run(st, ss, es) && k < |ss| && r in ss[k].requests
    ensures PolicyHeld(ss[k], r)
  {
    if k > 0 {
      if r in ss[k - 1].requests {
        AlwaysPolicyHeld(st, ss, es, k - 1, r);
        AlwaysCapped(st, ss, es, k - 1);
      }
      PolicyStep(st, ss[k - 1], es[k - 1], r);
    }
  }

  // The step that inserts the row: at that moment the row's own agent has the policy the issue records.
  ghost predicate CommittedBy(s: State, e: Event, id: string, agent: string, policy: Agent) {
    Commits(e) && e.ask.id == id && id !in s.tables.grants && agent in s.tables.agents && s.tables.agents[agent] == policy
  }

  lemma CommitByPolicy(st: Settings, s: State, r: nat, id: string)
    requires RequestEnabled(st, s, r, Commit(id)) && PolicyHeld(s, r)
    ensures
      var t := RequestStep(st, s, r, Commit(id));
      && id in t.tables.grants && id in t.issues
      && CommittedBy(s, Requesting(r, Commit(id)), id, t.tables.grants[id].agent, t.issues[id].backing.policy)
  {
  }

  lemma CommitAddsOne(st: Settings, s: State, e: Event, id: string)
    requires Enabled(st, s, e) && id in Step(st, s, e).tables.grants && id !in s.tables.grants
    ensures Commits(e) && e.ask.id == id
  {
    if !Commits(e) {
      RowsOnlyRevoked(st, s, e);
    }
  }

  // The step that brings the row in is its commit.
  lemma IssuedJustNow(st: Settings, s: State, e: Event, id: string)
    requires Enabled(st, s, e) && id in Step(st, s, e).tables.grants && id !in s.tables.grants
    requires forall r :: r in s.requests ==> PolicyHeld(s, r)
    ensures
      var t := Step(st, s, e);
      id in t.issues && CommittedBy(s, e, id, t.tables.grants[id].agent, t.issues[id].backing.policy)
  {
    CommitAddsOne(st, s, e, id);
    CommitByPolicy(st, s, e.r, id);
  }

  // Later steps leave the row's agent and its issue as they are.
  lemma StillIssued(st: Settings, s: State, e: Event, id: string)
    requires Enabled(st, s, e) && Traced(st, s) && id in s.tables.grants
    ensures
      var t := Step(st, s, e);
      && id in s.issues && id in t.tables.grants && id in t.issues
      && t.tables.grants[id].agent == s.tables.grants[id].agent && t.issues[id] == s.issues[id]
  {
    assert RowTraced(st, s, id);
    StepGrows(st, s, e);
  }

  /**
   Every grant in the table was inserted by a commit at which its own agent's row was the policy
   recorded with it: the one whose allowed list and user the grant was checked against.
   */
  lemma {:induction false} GrantWasIssued(st: Settings, ss: seq<State>, es: seq<Event>, k: nat, id: string) returns (x: nat)
    requires Run(st, ss, es) && k < |ss| && id in ss[k].tables.grants
    ensures x < k && id in ss[k].issues
    ensures CommittedBy(ss[x], es[x], id, ss[k].tables.grants[id].agent, ss[k].issues[id].backing.policy)
  {
    if id in ss[k - 1].tables.grants {
      x := GrantWasIssued(st, ss, es, k - 1, id);
      AlwaysTraced(st, ss, es, k - 1);
      StillIssued(st, ss[k - 1], es[k - 1], id);
    } else {
      var s := ss[k - 1];
      forall r | r in s.requests ensures PolicyHeld(s, r) {
        AlwaysPolicyHeld(st, ss, es, k - 1, r);
      }
      IssuedJustNow(st, ss[k - 1], es[k - 1], id);
      x := k - 1;
    }
  }

  /** The cache never runs ahead of the table: a revocation marker is present only if a row with that hash is already revoked, whatever is flushed or expires. */
  lemma MarkerImpliesRevoked(st: Settings, ss: seq<State>, es: seq<Event>, k: nat, hash: string)
    requires Run(st, ss, es) && k < |ss| && HasMarker(ss[k].space, ss[k].now, hash)
    ensures exists id :: RevokedRow(ss[k], id, hash)
  {
    AlwaysTraced(st, ss, es, k);
    assert MarkerTrue(ss[k], hash);
  }

  /** With an unforgeable signature and a collision-free hash, rows with the same hash are the same row. */
  lemma HashNamesOneRow(st: Settings, s: State, id: string, other: string)
    requires Sound(st.signer) && Traced(st, s) && id in s.tables.grants && other in s.tables.grants
    requires s.tables.grants[id].hash == s.tables.grants[other].hash
    ensures id == other
  {
    assert RowTraced(st, s, id) && RowTraced(st, s, other);
    var a, b := s.tables.grants[id], s.tables.grants[other];
    var x := Claims(st.issuer, a.agent, id, a.tool, a.scope, Truncate(s.issues[id].at), Truncate(s.issues[id].at + st.ttl as real));
    var y := Claims(st.issuer, b.agent, other, b.tool, b.scope, Truncate(s.issues[other].at), Truncate(s.issues[other].at + st.ttl as real));
    assert st.signer.decode(st.signer.encode(x)) == Some(x) && st.signer.decode(st.signer.encode(y)) == Some(y);
  }

  // ---- How long a marker lasts ----

  ghost predicate NoMarkerLost(es: seq<Event>) {
    forall k, n :: 0 <= k < |es| && es[k].Lose? && n in es[k].names ==> !n.RevokedName?
  }

  // The marker a revocation wrote is still stored and does not die before ten minutes after the write.
  ghost predicate MarkKept(s: State, v: nat)
    requires v in s.revokers
  {
    var k := s.revokers[v];
    (k.phase.Unissuing? || k.phase.Done?) ==>
      var n := RevokedName(k.phase.hash);
      && k.phase.at <= s.now
      && n in s.space && s.space[n].deadline.Some? && k.phase.at + REVOKED_TTL_SECONDS as real <= s.space[n].deadline.value
  }

  lemma MarkKeptMove(s: State, v: nat, m: RevokeMove, other: nat)
    requires RevokeEnabled(s, v, m) && other in s.revokers && MarkKept(s, other)
    ensures other in RevokeStep(s, v, m).revokers && MarkKept(RevokeStep(s, v, m), other)
  {
    if other != v {
      MoveKeepsMark(s, v, m, s.revokers[other].phase);
    }
  }

  // Another revocation can only write the marker again, with a later deadline.
  lemma MoveKeepsMark(s: State, v: nat, m: RevokeMove, p: Phase)
    requires RevokeEnabled(s, v, m) && (p.Unissuing? || p.Done? ==> p.at <= s.now)
    ensures
      p.Unissuing? || p.Done? ==>
        var n, t := RevokedName(p.hash), RevokeStep(s, v, m);
        n in s.space && s.space[n].deadline.Some? && p.at + REVOKED_TTL_SECONDS as real <= s.space[n].deadline.value ==>
          n in t.space && t.space[n].deadline.Some? && p.at + REVOKED_TTL_SECONDS as real <= t.space[n].deadline.value
  {
  }

  lemma MarkKeptStep(st: Settings, s: State, e: Event, v: nat)
    requires Enabled(st, s, e) && v in s.revokers && MarkKept(s, v)
    requires e.Lose? ==> forall n :: n in e.names ==> !n.RevokedName?
    ensures v in Step(st, s, e).revokers && MarkKept(Step(st, s, e), v)
  {
    if e.Revoking? {
      MarkKeptMove(s, e.v, e.kill, v);
    } else {
      RevokersKept(st, s, e, v);
      StepGrows(st, s, e);
      var kill := s.revokers[v];
      if kill.phase.Unissuing? || kill.phase.Done? {
        KeptUnlessLost(st, s, e, kill.phase.hash);
      }
    }
  }

  lemma {:induction false} AlwaysKept(st: Settings, ss: seq<State>, es: seq<Event>, k: nat, v: nat)
    requires Run(st, ss, es) && NoMarkerLost(es) && k < |ss| && v in ss[k].revokers
    ensures MarkKept(ss[k], v)
  {
    if k > 0 {
      if v in ss[k - 1].revokers {
        AlwaysKept(st, ss, es, k - 1, v);
        MarkKeptStep(st, ss[k - 1], es[k - 1], v);
      } else {
        NewRevokerIsReading(st, ss[k - 1], es[k - 1], v);
      }
    }
  }

  lemma KeptUnlessLost(st: Settings, s: State, e: Event, hash: string)
    requires Enabled(st, s, e) && !e.Revoking? && RevokedName(hash) in s.space
    requires e.Lose? ==> forall n :: n in e.names ==> !n.RevokedName?
    ensures RevokedName(hash) in Step(st, s, e).space && Step(st, s, e).space[RevokedName(hash)] == s.space[RevokedName(hash)]
  {
    if !e.Lose? {
      MarkersKept(st, s, e, hash);
    }
  }

  /** If no marker is flushed and tokens live at most 600 s, a marker once written is there until its grant has expired. */
  lemma MarkerOutlivesGrant(st: Settings, ss: seq<State>, es: seq<Event>, k: nat, v: nat)
    requires Run(st, ss, es) && NoMarkerLost(es) && st.ttl <= 600 && k < |ss|
    requires v in ss[k].revokers && (ss[k].revokers[v].phase.Unissuing? || ss[k].revokers[v].phase.Done?)
    ensures
      var kill := ss[k].revokers[v];
      && kill.grant in ss[k].tables.grants
      && (ss[k].now < ss[k].tables.grants[kill.grant].expiresAt ==> HasMarker(ss[k].space, ss[k].now, kill.phase.hash))
  {
    AlwaysTraced(st, ss, es, k);
    AlwaysKept(st, ss, es, k, v);
    assert RevokerOk(ss[k], v);
    assert RowTraced(st, ss[k], ss[k].revokers[v].grant);
  }

  // ---- A call that nobody interrupts ----

  // A stretch of a run.
  ghost predicate Stretch(st: Settings, ss: seq<State>, es: seq<Event>) {
    |ss| == |es| + 1 && forall k :: 0 <= k < |es| ==> Enabled(st, ss[k], es[k]) && ss[k + 1] == Step(st, ss[k], es[k])
  }

  lemma Further(st: Settings, ss: seq<State>, es: seq<Event>, e: Event) returns (ts: seq<State>, fs: seq<Event>)
    requires Stretch(st, ss, es) && Enabled(st, ss[|es|], e)
    ensures Stretch(st, ts, fs) && ts[0] == ss[0] && fs == es + [e] && ts[|fs|] == Step(st, ss[|es|], e)
  {
    ts, fs := ss + [Step(st, ss[|es|], e)], es + [e];
  }

  // The two writes to the cache that end a revocation.
  lemma MarkAlone(st: Settings, ss: seq<State>, es: seq<Event>, v: nat, hash: string) returns (ts: seq<State>, fs: seq<Event>)
    requires Stretch(st, ss, es) && forall k :: 0 <= k < |es| ==> es[k].Revoking? && es[k].v == v
    requires v in ss[|es|].revokers && ss[|es|].revokers[v].phase == Marking(hash)
    ensures Stretch(st, ts, fs) && ts[0] == ss[0] && forall k :: 0 <= k < |fs| ==> fs[k].Revoking? && fs[k].v == v
    ensures
      var s, t := ss[|es|], ts[|fs|];
      && v in t.revokers && t.revokers[v].phase.Done? && t.now == s.now && t.tables == s.tables
      && t.space == Remove(MarkRevoked(s.space, s.now, hash), IssuedName(hash))
  {
    ts, fs := Further(st, ss, es, Revoking(v, Mark));
    ts, fs := Further(st, ts, fs, Revoking(v, Unissue));
  }

  /**
   A revocation run on its own does what the service's call does: the row keeps its first
   revocation time or gets this one, the marker is written for 600 s, and the issued hint is gone.
   */
  lemma RevokeAlone(st: Settings, s: State, v: nat) returns (ss: seq<State>, es: seq<Event>)
    requires v in s.revokers && s.revokers[v].phase.Reading? && s.revokers[v].grant in s.tables.grants
    ensures Stretch(st, ss, es) && ss[0] == s && forall k :: 0 <= k < |es| ==> es[k].Revoking? && es[k].v == v
    ensures
      var id := s.revokers[v].grant;
      var was, t := s.tables.grants[id], ss[|es|];
      && v in t.revokers && t.revokers[v].phase.Done? && t.now == s.now
      && t.tables == s.tables.(grants := s.tables.grants[id := was.(revokedAt := if was.revokedAt.Some? then was.revokedAt else Some(s.now))])
      && t.space == Remove(Put(s.space, s.now, RevokedName(was.hash), Text("1"), 600), IssuedName(was.hash))
  {
    var id := s.revokers[v].grant;
    ss, es := [s], [];
    ss, es := Further(st, ss, es, Revoking(v, ReadRow));
    if s.tables.grants[id].revokedAt.None? {
      ss, es := Further(st, ss, es, Revoking(v, SetRevoked));
    } else {
      assert s.tables.grants[id := s.tables.grants[id]] == s.tables.grants;
    }
    ss, es := MarkAlone(st, ss, es, v, s.tables.grants[id].hash);
  }

  // The state in which a request has locked its agent, bound an account and read the clock.
  ghost function Readied(s: State, r: nat, account: string): State
    requires r in s.requests && s.requests[r].agent in s.tables.agents && account in s.tables.accounts
  {
    var q := s.requests[r];
    var backing := Backing(s.tables.agents[q.agent], account, s.tables.accounts[account]);
    s.(requests := s.requests[r := q.(stage := Timed(backing, s.now))], locks := s.locks[q.agent := r])
  }

  lemma BindAlone(st: Settings, s: State, r: nat, account: string) returns (ss: seq<State>, es: seq<Event>)
    requires r in s.requests && s.requests[r].stage.Asking? && s.requests[r].agent !in s.locks && s.requests[r].agent in s.tables.agents
    requires
      var q := s.requests[r];
      Permitted(st, s.tables.agents[q.agent], q.tool, q.scope) && Newest(s.tables.accounts, s.tables.agents[q.agent].user, st.tools[q.tool].provider, account)
    ensures Stretch(st, ss, es) && ss[0] == s && forall k :: 0 <= k < |es| ==> es[k].Requesting? && es[k].r == r
    ensures ss[|es|] == Readied(s, r, account)
  {
    ss, es := [s], [];
    ss, es := Further(st, ss, es, Requesting(r, Lock));
    ss, es := Further(st, ss, es, Requesting(r, RequestMove.Bind(Some(account))));
    ss, es := Further(st, ss, es, Requesting(r, RequestMove.ReadClock));
  }

  // The count, and what follows it.
  lemma IssueAlone(st: Settings, ss: seq<State>, es: seq<Event>, r: nat, id: string) returns (ts: seq<State>, fs: seq<Event>)
    requires Stretch(st, ss, es) && forall k :: 0 <= k < |es| ==> es[k].Requesting? && es[k].r == r
    requires r in ss[|es|].requests && ss[|es|].requests[r].stage.Timed? && id !in ss[|es|].tables.grants
    ensures Stretch(st, ts, fs) && ts[0] == ss[0] && forall k :: 0 <= k < |fs| ==> fs[k].Requesting? && fs[k].r == r
    ensures
      var s, t := ss[|es|], ts[|fs|];
      var q := s.requests[r];
      var room := |ActiveIds(s.tables.grants, q.agent, q.tool, q.scope, q.stage.at)| < st.maxActive;
      var row := NewRow(st, id, q.agent, q.stage.backing.account, q.tool, q.scope, q.stage.at);
      && r in t.requests && t.requests[r].stage == Closed && t.locks == s.locks - {q.agent}
      && t.tables == (if room then s.tables.(grants := s.tables.grants[id := row]) else s.tables)
      && t.space == (if room then Put(s.space, s.now, IssuedName(row.hash), Text("1"), st.ttl) else s.space)
  {
    var s := ss[|es|];
    var q := s.requests[r];
    ts, fs := Further(st, ss, es, Requesting(r, Count));
    if |ActiveIds(s.tables.grants, q.agent, q.tool, q.scope, q.stage.at)| < st.maxActive {
      ts, fs := Further(st, ts, fs, Requesting(r, Commit(id)));
      ts, fs := Further(st, ts, fs, Requesting(r, Announce));
    }
  }

  /**
   A request run on its own is granted or refused as the service's call is: with the policy and an
   account in its favour it inserts its one row and its hint if fewer grants than the maximum are
   active, and changes nothing otherwise.  Either way it gives up the lock.
   */
  lemma RequestAlone(st: Settings, s: State, r: nat, id: string, account: string) returns (ss: seq<State>, es: seq<Event>)
    requires r in s.requests && s.requests[r].stage.Asking? && s.requests[r].agent !in s.locks && s.requests[r].agent in s.tables.agents
    requires id !in s.tables.grants
    requires
      var q := s.requests[r];
      Permitted(st, s.tables.agents[q.agent], q.tool, q.scope) && Newest(s.tables.accounts, s.tables.agents[q.agent].user, st.tools[q.tool].provider, account)
    ensures Stretch(st, ss, es) && ss[0] == s && forall k :: 0 <= k < |es| ==> es[k].Requesting? && es[k].r == r
    ensures
      var q, t, grants := s.requests[r], ss[|es|], s.tables.grants;
      var active := set g | g in grants && grants[g].agent == q.agent && grants[g].tool == q.tool && grants[g].scope == q.scope
                            && grants[g].revokedAt.None? && s.now < grants[g].expiresAt;
      var hash := st.signer.hash(TokenFor(st, id, q.agent, q.tool, q.scope, s.now));
      && r in t.requests && t.requests[r].stage == Closed && t.locks == s.locks
      && t.tables == (if |active| < st.maxActive
                      then s.tables.(grants := grants[id := Row(q.agent, account, q.tool, q.scope, hash, s.now, s.now + st.ttl as real, None)])
                      else s.tables)
      && t.space == (if |active| < st.maxActive then Put(s.space, s.now, IssuedName(hash), Text("1"), st.ttl) else s.space)
  {
    var q, grants := s.requests[r], s.tables.grants;
    ss, es := BindAlone(st, s, r, account);
    assert s.locks[q.agent := r] - {q.agent} == s.locks;
    assert ActiveIds(grants, q.agent, q.tool, q.scope, s.now) ==
           set g | g in grants && grants[g].agent == q.agent && grants[g].tool == q.tool && grants[g].scope == q.scope
                   && grants[g].revokedAt.None? && s.now < grants[g].expiresAt;
    ss, es := IssueAlone(st, ss, es, r, id);
  }
}
