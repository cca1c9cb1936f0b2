/**
 One invocation as an automaton.

 Acts are what an outsider sees of an invocation: each read, call or write, with the value it
 observed.  `Next` makes the decisions of the pipeline in their fixed order; the service's
 method follows it step by step, and `InvokeRuns` interleaves any number of such paths with
 the grant tables.
 */
module InvokePath {
  import opened Common
  import GrantToken
  import G = Grants
  import I = Idempotency
  import B = CircuitBreaker
  import E = Envelope
  import F = Refresh
  import R = Retry

  const REFRESH_EXPIRY_MARGIN := 60.0

  datatype Config = Config(
    hasCache: bool, hasLimiter: bool, hasStore: bool,
    tools: map<string, G.Tool>, maxRetries: int, baseDelay: real, breaker: B.Config)

  datatype Request = Request(token: string, tool: string, key: Option<string>)

  // A grant row with its primary key.
  datatype Found = Found(id: string, row: G.Row)

  // A connected account as it was loaded.
  datatype Account = Account(provider: string, cred: F.Cred)

  datatype Reason = InvalidToken | TokenExpired | Revoked | NotFound | ToolMismatch | ScopeMismatch | RateLimited | IdempotencyConflict

  datatype Fault = AccountGone | CredentialExpired | Undecryptable | RefreshFailed | ProviderFailed(end: R.End) | Internal

  datatype Outcome = Success(result: string, fromCache: bool) | Failed(fault: Fault) | Denied(reason: Reason)

  datatype Status = SuccessStatus | FailedStatus | DeniedStatus

  function StatusOf(o: Outcome): Status {
    match o
    case Success(_, _) => SuccessStatus
    case Failed(_) => FailedStatus
    case Denied(_) => DeniedStatus
  }

  // An audit row with this status says how the invocation ended.
  ghost predicate Reports(s: Status, o: Outcome) {
    (s.SuccessStatus? <==> o.Success?) && (s.FailedStatus? <==> o.Failed?) && (s.DeniedStatus? <==> o.Denied?)
  }

  // The access token in use and where it comes from.
  datatype Credential = Stored(token: string) | RefreshedFirst(token: string) | RefreshedAfter401(token: string)

  // A resolved grant and the owner token of the reservation held for it, if any.
  datatype Ctx = Ctx(found: Found, hold: Option<string>)

  datatype GateStage =
    | Start
    | Verified(claims: GrantToken.Claims)
    | Checked(claims: GrantToken.Claims, fast: bool)
    | Resolved(found: Found)
    | Timely(found: Found)
    | Admitted(found: Found)
    | Missed(found: Found)

  datatype PrepStage =
    | Loading
    | Dating(account: Account)
    | Overdue(account: Account)
    | Refreshing(account: Account, after401: bool)
    | Decrypting(account: Account)
    | Rechecking(account: Account, cred: Credential)
    | Confirming(account: Account, cred: Credential)

  datatype CloseStage = Settling(owner: string) | Writing(owner: string) | Auditing

  datatype Phase =
    | Gate(gate: GateStage)
    | Prep(ctx: Ctx, prep: PrepStage)
    | Calling(ctx: Ctx, account: Account, cred: Credential, loop: R.Loop)
    | Closing(found: Found, close: CloseStage, outcome: Outcome)
    | Ended(outcome: Outcome, audited: bool)

  datatype Act =
    | Verify(verdict: Result<GrantToken.Claims, GrantToken.Error>)
    | ReadMarker(hit: bool)
    | ReadRow(row: Option<Found>)
    | ReadClock(now: real)
    | CheckRate(agent: string, read: real, allowed: bool)
    | GetKey(key: string, view: I.View)
    | ReserveKey(key: string, held: Option<string>)
    | LoadAccount(id: string, account: Option<Account>)
    | Refresh(id: string, cred: F.Cred, rotation: F.Rotation, end: F.End)
    | Decrypt(blob: E.bytes, plain: Option<string>)
    | RecheckMarker(hit: bool)
    | RecheckRow(id: string, revoked: bool)
    | Provide(token: string, step: R.Act)
    | Compare(key: string, owner: string, owns: bool)
    | Write(key: string, owner: string, stored: Option<string>)
    | Audit(grant: string, status: Status)
    | Crash

  function FullKey(req: Request, f: Found): string {
    f.row.agent + ":" + f.row.account + ":" + req.tool + ":" + if req.key.Some? then req.key.value else ""
  }

  // The part of a string before its first colon.
  function BeforeColon(s: string): string {
    if s == "" || s[0] == ':' then "" else [s[0]] + BeforeColon(s[1..])
  }

  lemma {:induction false} BeforeColonIs(a: string, x: string)
    requires ':' !in a
    ensures BeforeColon(a + ":" + x) == a
  {
    if a != "" {
      BeforeColonIs(a[1..], x);
      assert (a + ":" + x)[1..] == a[1..] + ":" + x;
    }
  }

  lemma FirstColon(a: string, x: string, b: string, y: string)
    requires a + ":" + x == b + ":" + y && ':' !in a && ':' !in b
    ensures a == b && x == y
  {
    BeforeColonIs(a, x);
    BeforeColonIs(b, y);
    assert x == (a + ":" + x)[|a| + 1..] && y == (b + ":" + y)[|b| + 1..];
  }

  /**
   The key is bound to agent, account and tool: as none of these contains a colon, two requests
   share a key only if they agree on all three and on the caller's own key, so a replay never
   serves a result obtained with another account.
   */
  lemma FullKeyDeterminesParts(req: Request, f: Found, other: Request, g: Found)
    requires ':' !in f.row.agent && ':' !in f.row.account && ':' !in req.tool
    requires ':' !in g.row.agent && ':' !in g.row.account && ':' !in other.tool
    requires req.key.Some? && other.key.Some? && FullKey(req, f) == FullKey(other, g)
    ensures f.row.agent == g.row.agent && f.row.account == g.row.account && req.tool == other.tool && req.key == other.key
  {
    var x, y := req.tool + ":" + req.key.value, other.tool + ":" + other.key.value;
    var u, v := f.row.account + ":" + x, g.row.account + ":" + y;
    assert FullKey(req, f) == f.row.agent + ":" + u && FullKey(other, g) == g.row.agent + ":" + v;
    FirstColon(f.row.agent, u, g.row.agent, v);
    FirstColon(f.row.account, x, g.row.account, y);
    FirstColon(req.tool, req.key.value, other.tool, other.key.value);
  }

  predicate CanRefresh(a: Account) {
    a.cred.refresh.Some? && a.provider == "google"
  }

  function LoopParams(cfg: Config): R.Params {
    R.Params(cfg.maxRetries, cfg.baseDelay, true)
  }

  // A breaker that cannot be built fails the call like any other bad argument.
  function LoopStart(cfg: Config): R.Loop {
    if B.ValidConfig(cfg.breaker) then R.Begin(LoopParams(cfg)) else R.Over(R.BadArguments)
  }

  // ---- Decisions taken between two awaits ----

  function Refuse(f: Found, reason: Reason): Phase {
    Closing(f, Auditing, Denied(reason))
  }

  // What the reservation is replaced by: the result of a success, nothing otherwise.
  function Kept(o: Outcome): Option<string> {
    if o.Success? then Some(o.result) else None
  }

  // The execution is over: a reservation is settled before the audit row is written.
  function Finish(c: Ctx, o: Outcome): Phase {
    Closing(c.found, if c.hold.Some? then Settling(c.hold.value) else Auditing, o)
  }

  function AfterRate(cfg: Config, req: Request, f: Found): Phase {
    if req.tool !in cfg.tools then Refuse(f, NotFound)
    else if f.row.scope != cfg.tools[req.tool].scope then Refuse(f, ScopeMismatch)
    else if req.key.Some? && cfg.hasStore then Gate(Admitted(f))
    else Prep(Ctx(f, None), Loading)
  }

  function Recheck(cfg: Config, c: Ctx, a: Account, cred: Credential): Phase {
    Prep(c, if cfg.hasCache then Rechecking(a, cred) else Confirming(a, cred))
  }

  function AfterCall(c: Ctx, a: Account, cred: Credential, end: R.End): Phase {
    match end
    case Returned(result) => Finish(c, Success(result, false))
    case Raised(ProviderStatus(Some(code))) =>
      if code == 401 && cred.Stored? && CanRefresh(a) then Prep(c, Refreshing(a, true))
      else Finish(c, Failed(ProviderFailed(end)))
    case Raised(Unexpected) => Finish(c, Failed(Internal))
    case _ => Finish(c, Failed(ProviderFailed(end)))
  }

  function InLoop(c: Ctx, a: Account, cred: Credential, l: R.Loop): Phase {
    if l.Over? then AfterCall(c, a, cred, l.end) else Calling(c, a, cred, l)
  }

  // ---- One act ----

  function AfterVerify(cfg: Config, req: Request, verdict: Result<GrantToken.Claims, GrantToken.Error>): Phase {
    match verdict
    case Err(Expired) => Ended(Denied(TokenExpired), false)
    case Err(Invalid) => Ended(Denied(InvalidToken), false)
    case Ok(claims) =>
      if req.tool != claims.tool then Ended(Denied(ToolMismatch), false)
      else Gate(if cfg.hasCache then Verified(claims) else Checked(claims, false))
  }

  function AfterRow(fast: bool, row: Option<Found>): Phase {
    match row
    case None => Ended(Denied(NotFound), false)
    case Some(f) => if fast || f.row.revokedAt.Some? then Refuse(f, Revoked) else Gate(Resolved(f))
  }

  function AfterExpiry(cfg: Config, req: Request, f: Found, now: real): Phase {
    if f.row.expiresAt <= now then Refuse(f, TokenExpired)
    else if cfg.hasLimiter then Gate(Timely(f))
    else AfterRate(cfg, req, f)
  }

  function AfterGet(f: Found, view: I.View): Phase {
    match view
    case Conflict => Refuse(f, IdempotencyConflict)
    case Cached(result) => Closing(f, Auditing, Success(result, true))
    case Unseen => Gate(Missed(f))
  }

  function NextGate(cfg: Config, req: Request, g: GateStage, a: Act): Option<Phase> {
    match g
    case Start => if a.Verify? then Some(AfterVerify(cfg, req, a.verdict)) else None
    case Verified(claims) => if a.ReadMarker? then Some(Gate(Checked(claims, a.hit))) else None
    case Checked(_, fast) => if a.ReadRow? then Some(AfterRow(fast, a.row)) else None
    case Resolved(f) => if a.ReadClock? then Some(AfterExpiry(cfg, req, f, a.now)) else None
    case Timely(f) =>
      if a.Crash? then Some(Closing(f, Auditing, Failed(Internal)))
      else if a.CheckRate? && a.agent == f.row.agent then Some(if a.allowed then AfterRate(cfg, req, f) else Refuse(f, RateLimited))
      else None
    case Admitted(f) =>
      if a.Crash? then Some(Closing(f, Auditing, Failed(Internal)))
      else if a.GetKey? && a.key == FullKey(req, f) then Some(AfterGet(f, a.view))
      else None
    case Missed(f) =>
      if a.Crash? then Some(Closing(f, Auditing, Failed(Internal)))
      else if a.ReserveKey? && a.key == FullKey(req, f) then
        Some(if a.held.None? then Refuse(f, IdempotencyConflict) else Prep(Ctx(f, a.held), Loading))
      else None
  }

  predicate Lapses(acc: Account, time: real) {
    acc.cred.expiresAt.Some? && acc.cred.expiresAt.value <= time
  }

  function AfterLoad(c: Ctx, account: Option<Account>): Phase {
    match account
    case None => Finish(c, Failed(AccountGone))
    case Some(acc) => Prep(c, if acc.cred.expiresAt.Some? then Dating(acc) else Decrypting(acc))
  }

  function AfterDating(c: Ctx, acc: Account, now: real): Phase {
    Prep(c, if !Lapses(acc, now + REFRESH_EXPIRY_MARGIN) then Decrypting(acc)
            else if CanRefresh(acc) then Refreshing(acc, false)
            else Overdue(acc))
  }

  function AfterRefresh(cfg: Config, c: Ctx, acc: Account, after401: bool, end: F.End): Phase {
    match end
    case Fresh(token) => Recheck(cfg, c, acc, if after401 then RefreshedAfter401(token) else RefreshedFirst(token))
    case Raised => Finish(c, Failed(Internal))
    case _ => Finish(c, Failed(RefreshFailed))
  }

  function NextPrep(cfg: Config, c: Ctx, p: PrepStage, a: Act): Option<Phase> {
    if a.Crash? then (if p.Dating? || p.Overdue? then None else Some(Finish(c, Failed(Internal))))
    else
      match p
      case Loading => if a.LoadAccount? && a.id == c.found.row.account then Some(AfterLoad(c, a.account)) else None
      case Dating(acc) => if a.ReadClock? then Some(AfterDating(c, acc, a.now)) else None
      case Overdue(acc) =>
        if a.ReadClock? then Some(if Lapses(acc, a.now) then Finish(c, Failed(CredentialExpired)) else Prep(c, Decrypting(acc)))
        else None
      case Refreshing(acc, after401) =>
        if !a.Refresh? || a.id != c.found.row.account || a.cred != acc.cred then None
        else Some(AfterRefresh(cfg, c, acc, after401, a.end))
      case Decrypting(acc) =>
        if !a.Decrypt? || a.blob != acc.cred.access then None
        else Some(if a.plain.Some? then Recheck(cfg, c, acc, Stored(a.plain.value)) else Finish(c, Failed(Undecryptable)))
      case Rechecking(acc, cred) =>
        if a.RecheckMarker? then Some(if a.hit then Finish(c, Denied(Revoked)) else Prep(c, Confirming(acc, cred))) else None
      case Confirming(acc, cred) =>
        if a.RecheckRow? && a.id == c.found.id then Some(if a.revoked then Finish(c, Denied(Revoked)) else InLoop(c, acc, cred, LoopStart(cfg))) else None
  }

  function NextCalling(cfg: Config, c: Ctx, acc: Account, cred: Credential, l: R.Loop, a: Act): Option<Phase> {
    if !a.Provide? || a.token != cred.token then None
    else
      var next := R.NextLoop(LoopParams(cfg), l, a.step);
      if next.Some? then Some(InLoop(c, acc, cred, next.value)) else None
  }

  function NextClosing(req: Request, f: Found, s: CloseStage, o: Outcome, a: Act): Option<Phase> {
    match s
    case Settling(owner) =>
      if a.Compare? && a.key == FullKey(req, f) && a.owner == owner
      then Some(Closing(f, if a.owns then Writing(owner) else Auditing, o)) else None
    case Writing(owner) =>
      if a.Write? && a.key == FullKey(req, f) && a.owner == owner && a.stored == Kept(o) then Some(Closing(f, Auditing, o)) else None
    case Auditing =>
      if a.Audit? && a.grant == f.id && a.status == StatusOf(o) then Some(Ended(o, true)) else None
  }

  function Next(cfg: Config, req: Request, p: Phase, a: Act): Option<Phase> {
    match p
    case Gate(g) => NextGate(cfg, req, g, a)
    case Prep(c, s) => NextPrep(cfg, c, s, a)
    case Calling(c, acc, cred, l) => NextCalling(cfg, c, acc, cred, l, a)
    case Closing(f, s, o) => NextClosing(req, f, s, o, a)
    case Ended(_, _) => None
  }

  function PhaseAfter(cfg: Config, req: Request, acts: seq<Act>): Option<Phase> {
    if acts == [] then Some(Gate(Start))
    else match PhaseAfter(cfg, req, acts[..|acts| - 1])
      case None => None
      case Some(p) => Next(cfg, req, p, acts[|acts| - 1])
  }

  // ---- Every path is short ----

  function LoopRank(cfg: Config, l: R.Loop): nat {
    match l
    case Ready(n) => 3 * R.AtLeastZero(cfg.maxRetries - n) + 3
    case Waiting(n) => 3 * R.AtLeastZero(cfg.maxRetries - n) + 2
    case Backoff(n) => 3 * R.AtLeastZero(cfg.maxRetries - n) + 1
    case Over(_) => 0
  }

  function LoopLength(cfg: Config): nat {
    3 * R.AtLeastZero(cfg.maxRetries) + 3
  }

  function Rank(cfg: Config, p: Phase): nat {
    var n := LoopLength(cfg);
    match p
    case Ended(_, _) => 0
    case Closing(_, Auditing, _) => 1
    case Closing(_, Writing(_), _) => 2
    case Closing(_, Settling(_), _) => 3
    case Calling(_, _, cred, l) => LoopRank(cfg, l) + if cred.Stored? then n + 6 else 3
    case Prep(_, Confirming(_, cred)) => if cred.Stored? then 2 * n + 7 else n + 4
    case Prep(_, Rechecking(_, cred)) => if cred.Stored? then 2 * n + 8 else n + 5
    case Prep(_, Refreshing(_, after401)) => if after401 then n + 6 else 2 * n + 9
    case Prep(_, Decrypting(_)) => 2 * n + 9
    case Prep(_, Overdue(_)) => 2 * n + 10
    case Prep(_, Dating(_)) => 2 * n + 11
    case Prep(_, Loading) => 2 * n + 12
    case Gate(Missed(_)) => 2 * n + 13
    case Gate(Admitted(_)) => 2 * n + 14
    case Gate(Timely(_)) => 2 * n + 15
    case Gate(Resolved(_)) => 2 * n + 16
    case Gate(Checked(_, _)) => 2 * n + 17
    case Gate(Verified(_)) => 2 * n + 18
    case Gate(Start) => 2 * n + 19
  }

  // Loops in a reachable phase are within their attempts.
  predicate Sane(cfg: Config, p: Phase) {
    p.Calling? ==>
      && !p.loop.Over?
      && p.loop.attempt <= cfg.maxRetries
      && (p.loop.Backoff? ==> p.loop.attempt < cfg.maxRetries)
  }

  lemma CallingStep(cfg: Config, c: Ctx, acc: Account, cred: Credential, l: R.Loop, a: Act)
    requires Sane(cfg, Calling(c, acc, cred, l)) && NextCalling(cfg, c, acc, cred, l, a).Some?
    ensures
      var q := NextCalling(cfg, c, acc, cred, l, a).value;
      Sane(cfg, q) && Rank(cfg, q) < Rank(cfg, Calling(c, acc, cred, l))
  {
  }

  lemma GateStep(cfg: Config, req: Request, g: GateStage, a: Act)
    requires NextGate(cfg, req, g, a).Some?
    ensures var q := NextGate(cfg, req, g, a).value; Sane(cfg, q) && Rank(cfg, q) < Rank(cfg, Gate(g))
  {
  }

  lemma PrepStep(cfg: Config, c: Ctx, s: PrepStage, a: Act)
    requires NextPrep(cfg, c, s, a).Some?
    ensures var q := NextPrep(cfg, c, s, a).value; Sane(cfg, q) && Rank(cfg, q) < Rank(cfg, Prep(c, s))
  {
  }

  /** The termination measure: every act of an invocation lowers the rank of its phase. */
  lemma ActLowersRank(cfg: Config, req: Request, p: Phase, a: Act)
    requires Sane(cfg, p) && Next(cfg, req, p, a).Some?
    ensures Sane(cfg, Next(cfg, req, p, a).value)
    ensures Rank(cfg, Next(cfg, req, p, a).value) < Rank(cfg, p)
  {
    match p
    case Gate(g) => GateStep(cfg, req, g, a);
    case Prep(c, s) => PrepStep(cfg, c, s, a);
    case Calling(c, acc, cred, l) => CallingStep(cfg, c, acc, cred, l, a);
    case Closing(f, s, o) =>
    case Ended(_, _) =>
  }

  /** So no invocation performs more than 6 * (1 + max_retries) + 19 acts, whatever it observes. */
  lemma {:induction false} PathsAreShort(cfg: Config, req: Request, acts: seq<Act>)
    requires PhaseAfter(cfg, req, acts).Some?
    ensures Sane(cfg, PhaseAfter(cfg, req, acts).value)
    ensures |acts| + Rank(cfg, PhaseAfter(cfg, req, acts).value) <= 6 * (1 + R.AtLeastZero(cfg.maxRetries)) + 19
  {
    if acts != [] {
      PathsAreShort(cfg, req, acts[..|acts| - 1]);
      ActLowersRank(cfg, req, PhaseAfter(cfg, req, acts[..|acts| - 1]).value, acts[|acts| - 1]);
    }
  }

  // ---- Accounts of a path ----

  function Sends(acts: seq<Act>): nat {
    if acts == [] then 0
    else Sends(acts[..|acts| - 1]) + if acts[|acts| - 1].Provide? && acts[|acts| - 1].step.Answered? then 1 else 0
  }

  function SleepTime(acts: seq<Act>): real {
    if acts == [] then 0.0
    else SleepTime(acts[..|acts| - 1]) + if acts[|acts| - 1].Provide? && acts[|acts| - 1].step.Slept? then acts[|acts| - 1].step.delay else 0.0
  }

  function Refreshes(acts: seq<Act>): nat {
    if acts == [] then 0 else Refreshes(acts[..|acts| - 1]) + if acts[|acts| - 1].Refresh? then 1 else 0
  }

  // Some refresh came before any call.
  function RefreshedUpFront(acts: seq<Act>): bool {
    acts != [] && (RefreshedUpFront(acts[..|acts| - 1]) || (acts[|acts| - 1].Refresh? && Sends(acts[..|acts| - 1]) == 0))
  }

  // The tool calls of one phase, at most.
  function PhaseCalls(cfg: Config): nat {
    1 + R.AtLeastZero(cfg.maxRetries)
  }

  function LoopCalls(l: R.Loop): nat {
    match l
    case Ready(n) => n
    case Waiting(n) => n
    case Backoff(n) => n + 1
    case Over(_) => 0
  }

  // How much an invocation has used when it reaches a phase.
  ghost predicate WithinBudget(cfg: Config, acts: seq<Act>, p: Phase) {
    var n := PhaseCalls(cfg);
    match p
    case Gate(_) => Sends(acts) == 0 && Refreshes(acts) == 0
    case Prep(_, Rechecking(_, cred)) => Spent(n, acts, cred)
    case Prep(_, Confirming(_, cred)) => Spent(n, acts, cred)
    case Prep(_, Refreshing(_, after401)) =>
      Refreshes(acts) == 0 && (if after401 then 0 < Sends(acts) <= n else Sends(acts) == 0)
    case Prep(_, _) => Sends(acts) == 0 && Refreshes(acts) == 0
    case Calling(_, _, cred, l) => SpentCalling(n, acts, cred, LoopCalls(l))
    case _ => Refreshes(acts) <= 1 && Sends(acts) <= 2 * n && (RefreshedUpFront(acts) ==> Sends(acts) <= n)
  }

  ghost predicate Spent(n: nat, acts: seq<Act>, cred: Credential) {
    match cred
    case Stored(_) => Sends(acts) == 0 && Refreshes(acts) == 0
    case RefreshedFirst(_) => Sends(acts) == 0 && Refreshes(acts) == 1
    case RefreshedAfter401(_) => 0 < Sends(acts) <= n && Refreshes(acts) == 1 && !RefreshedUpFront(acts)
  }

  ghost predicate SpentCalling(n: nat, acts: seq<Act>, cred: Credential, calls: nat) {
    match cred
    case Stored(_) => Sends(acts) == calls && Refreshes(acts) == 0
    case RefreshedFirst(_) => Sends(acts) == calls && Refreshes(acts) == 1
    case RefreshedAfter401(_) => 0 < Sends(acts) <= n + calls && Refreshes(acts) == 1 && !RefreshedUpFront(acts)
  }

  lemma {:induction false} NoRefreshNoUpFront(acts: seq<Act>)
    requires Refreshes(acts) == 0
    ensures !RefreshedUpFront(acts)
  {
    if acts != [] {
      NoRefreshNoUpFront(acts[..|acts| - 1]);
    }
  }

  lemma CallingBudget(cfg: Config, acts: seq<Act>, c: Ctx, acc: Account, cred: Credential, l: R.Loop, a: Act)
    requires Sane(cfg, Calling(c, acc, cred, l)) && NextCalling(cfg, c, acc, cred, l, a).Some?
    requires acts != [] && acts[|acts| - 1] == a && WithinBudget(cfg, acts[..|acts| - 1], Calling(c, acc, cred, l))
    ensures WithinBudget(cfg, acts, NextCalling(cfg, c, acc, cred, l, a).value)
  {
    if Refreshes(acts) == 0 {
      NoRefreshNoUpFront(acts);
    }
  }

  lemma PrepBudget(cfg: Config, acts: seq<Act>, c: Ctx, s: PrepStage, a: Act)
    requires NextPrep(cfg, c, s, a).Some?
    requires acts != [] && acts[|acts| - 1] == a && WithinBudget(cfg, acts[..|acts| - 1], Prep(c, s))
    ensures WithinBudget(cfg, acts, NextPrep(cfg, c, s, a).value)
  {
    if Refreshes(acts[..|acts| - 1]) == 0 {
      NoRefreshNoUpFront(acts[..|acts| - 1]);
    }
  }

  lemma BudgetStep(cfg: Config, req: Request, acts: seq<Act>, p: Phase)
    requires acts != [] && Sane(cfg, p) && WithinBudget(cfg, acts[..|acts| - 1], p) && Next(cfg, req, p, acts[|acts| - 1]).Some?
    ensures WithinBudget(cfg, acts, Next(cfg, req, p, acts[|acts| - 1]).value)
  {
    match p
    case Prep(c, s) => PrepBudget(cfg, acts, c, s, acts[|acts| - 1]);
    case Calling(c, acc, cred, l) => CallingBudget(cfg, acts, c, acc, cred, l, acts[|acts| - 1]);
    case _ =>
  }

  lemma {:induction false} AlwaysWithinBudget(cfg: Config, req: Request, acts: seq<Act>)
    requires PhaseAfter(cfg, req, acts).Some?
    ensures WithinBudget(cfg, acts, PhaseAfter(cfg, req, acts).value)
  {
    if acts != [] {
      AlwaysWithinBudget(cfg, req, acts[..|acts| - 1]);
      PathsAreShort(cfg, req, acts[..|acts| - 1]);
      BudgetStep(cfg, req, acts, PhaseAfter(cfg, req, acts[..|acts| - 1]).value);
    }
  }

  /**
   The outbound bound: at most one refresh, at most 2 * (1 + max_retries) tool calls, and at most
   1 + max_retries when the credential was refreshed before the first call.
   */
  lemma OutboundBound(cfg: Config, req: Request, acts: seq<Act>)
    requires PhaseAfter(cfg, req, acts).Some?
    ensures Refreshes(acts) <= 1 && Sends(acts) <= 2 * PhaseCalls(cfg)
    ensures RefreshedUpFront(acts) ==> Sends(acts) <= PhaseCalls(cfg)
  {
    AlwaysWithinBudget(cfg, req, acts);
    PathsAreShort(cfg, req, acts);
    BudgetCaps(cfg, acts, PhaseAfter(cfg, req, acts).value);
  }

  lemma BudgetCaps(cfg: Config, acts: seq<Act>, p: Phase)
    requires Sane(cfg, p) && WithinBudget(cfg, acts, p)
    ensures Refreshes(acts) <= 1 && Sends(acts) <= 2 * PhaseCalls(cfg)
    ensures RefreshedUpFront(acts) ==> Sends(acts) <= PhaseCalls(cfg)
  {
    if Refreshes(acts) == 0 {
      NoRefreshNoUpFront(acts);
    }
  }

  // ---- Backoff ----

  function SleepsDone(l: R.Loop): nat {
    match l
    case Ready(n) => n
    case Waiting(n) => n
    case Backoff(n) => n
    case Over(_) => 0
  }

  // The whole backoff of one phase.
  function PhaseSleep(cfg: Config): real {
    if cfg.baseDelay < 0.0 then 0.0 else R.Geometric(cfg.baseDelay, R.AtLeastZero(cfg.maxRetries))
  }

  lemma {:induction false} GeometricGrows(base: real, j: nat, k: nat)
    requires base >= 0.0 && j <= k
    ensures 0.0 <= R.Geometric(base, j) <= R.Geometric(base, k)
    decreases k
  {
    if k > 0 {
      var p := R.Params(0, base, true);
      R.Doubling(p, k - 1);
      DelayAtLeastZero(p, k - 1);
      if j < k {
        GeometricGrows(base, j, k - 1);
      } else {
        GeometricGrows(base, k - 1, k - 1);
      }
    }
  }

  lemma DelayAtLeastZero(p: R.Params, k: nat)
    requires p.baseDelay >= 0.0
    ensures R.Delay(p, k) >= 0.0
  {
  }

  ghost predicate SleptSoFar(cfg: Config, slept: real, p: Phase) {
    match p
    case Prep(_, Rechecking(_, cred)) => if cred.RefreshedAfter401? then 0.0 <= slept <= PhaseSleep(cfg) else slept == 0.0
    case Prep(_, Confirming(_, cred)) => if cred.RefreshedAfter401? then 0.0 <= slept <= PhaseSleep(cfg) else slept == 0.0
    case Prep(_, Refreshing(_, after401)) => if after401 then 0.0 <= slept <= PhaseSleep(cfg) else slept == 0.0
    case Calling(_, _, cred, l) =>
      && cfg.baseDelay >= 0.0
      && var rest := slept - R.Geometric(cfg.baseDelay, SleepsDone(l));
      if cred.RefreshedAfter401? then 0.0 <= rest <= PhaseSleep(cfg) else rest == 0.0
    case Closing(_, _, _) => 0.0 <= slept <= 2.0 * PhaseSleep(cfg)
    case Ended(_, _) => 0.0 <= slept <= 2.0 * PhaseSleep(cfg)
    case _ => slept == 0.0
  }

  lemma CallingSleep(cfg: Config, slept: real, c: Ctx, acc: Account, cred: Credential, l: R.Loop, a: Act)
    requires Sane(cfg, Calling(c, acc, cred, l)) && NextCalling(cfg, c, acc, cred, l, a).Some?
    requires SleptSoFar(cfg, slept, Calling(c, acc, cred, l))
    ensures SleptSoFar(cfg, slept + if a.step.Slept? then a.step.delay else 0.0, NextCalling(cfg, c, acc, cred, l, a).value)
  {
    GeometricGrows(cfg.baseDelay, SleepsDone(l), R.AtLeastZero(cfg.maxRetries));
    if a.step.Slept? {
      R.Doubling(LoopParams(cfg), l.attempt);
    }
  }

  lemma PrepSleep(cfg: Config, slept: real, c: Ctx, s: PrepStage, a: Act)
    requires NextPrep(cfg, c, s, a).Some?
    requires SleptSoFar(cfg, slept, Prep(c, s))
    ensures SleptSoFar(cfg, slept, NextPrep(cfg, c, s, a).value)
  {
    if cfg.baseDelay >= 0.0 {
      GeometricGrows(cfg.baseDelay, 0, R.AtLeastZero(cfg.maxRetries));
    }
  }

  lemma GateSleep(cfg: Config, req: Request, g: GateStage, a: Act)
    requires NextGate(cfg, req, g, a).Some?
    ensures SleptSoFar(cfg, 0.0, NextGate(cfg, req, g, a).value)
  {
    if cfg.baseDelay >= 0.0 {
      GeometricGrows(cfg.baseDelay, 0, R.AtLeastZero(cfg.maxRetries));
    }
  }

  lemma SleepCaps(cfg: Config, slept: real, p: Phase)
    requires Sane(cfg, p) && SleptSoFar(cfg, slept, p)
    ensures 0.0 <= slept <= 2.0 * PhaseSleep(cfg)
  {
    if cfg.baseDelay >= 0.0 {
      GeometricGrows(cfg.baseDelay, if p.Calling? then SleepsDone(p.loop) else 0, R.AtLeastZero(cfg.maxRetries));
    }
  }

  /** The total backoff of an invocation is at most 2 * base * (2^max_retries - 1). */
  lemma {:induction false} BackoffBound(cfg: Config, req: Request, acts: seq<Act>)
    requires PhaseAfter(cfg, req, acts).Some?
    ensures SleptSoFar(cfg, SleepTime(acts), PhaseAfter(cfg, req, acts).value)
    ensures 0.0 <= SleepTime(acts) <= 2.0 * PhaseSleep(cfg)
  {
    if acts != [] {
      var prior := acts[..|acts| - 1];
      BackoffBound(cfg, req, prior);
      PathsAreShort(cfg, req, prior);
      var p, a := PhaseAfter(cfg, req, prior).value, acts[|acts| - 1];
      match p
      case Gate(g) => GateSleep(cfg, req, g, a);
      case Prep(c, s) => PrepSleep(cfg, SleepTime(prior), c, s, a);
      case Calling(c, acc, cred, l) => CallingSleep(cfg, SleepTime(prior), c, acc, cred, l, a);
      case _ =>
    }
    PathsAreShort(cfg, req, acts);
    SleepCaps(cfg, SleepTime(acts), PhaseAfter(cfg, req, acts).value);
  }

  // ---- Audit, reservation and revocation check ----

  function Audits(acts: seq<Act>): nat {
    if acts == [] then 0 else Audits(acts[..|acts| - 1]) + if acts[|acts| - 1].Audit? then 1 else 0
  }

  // The grant row the invocation resolved, if it did.
  function RowIn(acts: seq<Act>): Option<Found> {
    if acts == [] then None
    else if acts[|acts| - 1].ReadRow? then acts[|acts| - 1].row
    else RowIn(acts[..|acts| - 1])
  }

  // The owner token of a reservation not yet settled.
  function Unsettled(acts: seq<Act>): Option<string> {
    if acts == [] then None
    else
      var a := acts[|acts| - 1];
      if a.ReserveKey? then a.held
      else if a.Compare? then None
      else Unsettled(acts[..|acts| - 1])
  }

  // The last word on this grant was a database read that found it unrevoked, and the credential has not changed since.
  function ClearedFor(acts: seq<Act>, id: string): bool {
    if acts == [] then false
    else
      var a := acts[|acts| - 1];
      if a.RecheckRow? then a.id == id && !a.revoked
      else if a.Refresh? || a.Decrypt? then false
      else ClearedFor(acts[..|acts| - 1], id)
  }

  // The grant that was resolved is cleared.
  predicate Cleared(acts: seq<Act>) {
    RowIn(acts).Some? && ClearedFor(acts, RowIn(acts).value.id)
  }

  // The access token last obtained, from a refresh or by decryption.
  function TokenIn(acts: seq<Act>): Option<string> {
    if acts == [] then None
    else
      var a := acts[|acts| - 1];
      if a.Refresh? then (if a.end.Fresh? then Some(a.end.token) else None)
      else if a.Decrypt? then a.plain
      else TokenIn(acts[..|acts| - 1])
  }

  function LastReply(acts: seq<Act>): Option<R.Reply> {
    if acts == [] then None
    else if acts[|acts| - 1].Provide? && acts[|acts| - 1].step.Answered? then Some(acts[|acts| - 1].step.reply)
    else LastReply(acts[..|acts| - 1])
  }

  function LastView(acts: seq<Act>): Option<I.View> {
    if acts == [] then None
    else if acts[|acts| - 1].GetKey? then Some(acts[|acts| - 1].view)
    else LastView(acts[..|acts| - 1])
  }

  function FoundOf(p: Phase): Option<Found> {
    match p
    case Gate(Resolved(f)) => Some(f)
    case Gate(Timely(f)) => Some(f)
    case Gate(Admitted(f)) => Some(f)
    case Gate(Missed(f)) => Some(f)
    case Gate(_) => None
    case Prep(c, _) => Some(c.found)
    case Calling(c, _, _, _) => Some(c.found)
    case Closing(f, _, _) => Some(f)
    case Ended(_, _) => None
  }

  function HoldOf(p: Phase): Option<string> {
    match p
    case Prep(c, _) => c.hold
    case Calling(c, _, _, _) => c.hold
    case Closing(_, Settling(owner), _) => Some(owner)
    case _ => None
  }

  ghost predicate Booked(acts: seq<Act>, p: Phase) {
    && (if p.Ended?
        then (p.audited <==> RowIn(acts).Some?) && (p.audited ==> acts != [] && acts[|acts| - 1] == Audit(RowIn(acts).value.id, StatusOf(p.outcome)))
        else FoundOf(p) == RowIn(acts))
    && Audits(acts) == (if p.Ended? && p.audited then 1 else 0)
    && Unsettled(acts) == HoldOf(p)
    && (p.Calling? ==> Cleared(acts) && TokenIn(acts) == Some(p.cred.token))
    && (p.Prep? && (p.prep.Rechecking? || p.prep.Confirming?) ==> TokenIn(acts) == Some(p.prep.cred.token))
  }

  lemma BookedGate(cfg: Config, req: Request, acts: seq<Act>, g: GateStage, a: Act)
    requires NextGate(cfg, req, g, a).Some? && acts != [] && acts[|acts| - 1] == a
    requires Booked(acts[..|acts| - 1], Gate(g))
    ensures Booked(acts, NextGate(cfg, req, g, a).value)
  {
  }

  lemma BookedPrep(cfg: Config, acts: seq<Act>, c: Ctx, s: PrepStage, a: Act)
    requires NextPrep(cfg, c, s, a).Some? && acts != [] && acts[|acts| - 1] == a
    requires Booked(acts[..|acts| - 1], Prep(c, s))
    ensures Booked(acts, NextPrep(cfg, c, s, a).value)
  {
  }

  lemma BookedCalling(cfg: Config, acts: seq<Act>, c: Ctx, acc: Account, cred: Credential, l: R.Loop, a: Act)
    requires NextCalling(cfg, c, acc, cred, l, a).Some? && acts != [] && acts[|acts| - 1] == a
    requires Booked(acts[..|acts| - 1], Calling(c, acc, cred, l))
    ensures Booked(acts, NextCalling(cfg, c, acc, cred, l, a).value)
  {
  }

  lemma BookedClosing(req: Request, acts: seq<Act>, f: Found, s: CloseStage, o: Outcome, a: Act)
    requires NextClosing(req, f, s, o, a).Some? && acts != [] && acts[|acts| - 1] == a
    requires Booked(acts[..|acts| - 1], Closing(f, s, o))
    ensures Booked(acts, NextClosing(req, f, s, o, a).value)
  {
  }

  lemma {:induction false} AlwaysBooked(cfg: Config, req: Request, acts: seq<Act>)
    requires PhaseAfter(cfg, req, acts).Some?
    ensures Booked(acts, PhaseAfter(cfg, req, acts).value)
  {
    if acts != [] {
      var prior := acts[..|acts| - 1];
      AlwaysBooked(cfg, req, prior);
      var p, a := PhaseAfter(cfg, req, prior).value, acts[|acts| - 1];
      match p
      case Gate(g) => BookedGate(cfg, req, acts, g, a);
      case Prep(c, s) => BookedPrep(cfg, acts, c, s, a);
      case Calling(c, acc, cred, l) => BookedCalling(cfg, acts, c, acc, cred, l, a);
      case Closing(f, s, o) => BookedClosing(req, acts, f, s, o, a);
      case Ended(_, _) =>
    }
  }

  /**
   Exactly one audit row for an invocation that resolved a grant, none for any other; it has the
   grant's id and says success, failed or denied as the invocation ended.  A finished invocation has
   settled its reservation.
   */
  lemma EndedIsAuditedOnce(cfg: Config, req: Request, acts: seq<Act>, o: Outcome, audited: bool)
    requires PhaseAfter(cfg, req, acts) == Some(Ended(o, audited))
    ensures Audits(acts) == if RowIn(acts).Some? then 1 else 0
    ensures RowIn(acts).Some? ==>
              var last := acts[|acts| - 1];
              last.Audit? && last.grant == RowIn(acts).value.id && Reports(last.status, o)
    ensures Unsettled(acts) == None
  {
    AlwaysBooked(cfg, req, acts);
  }

  lemma LastCallIsCleared(cfg: Config, req: Request, prior: seq<Act>, a: Act, p: Phase)
    requires PhaseAfter(cfg, req, prior) == Some(p) && Next(cfg, req, p, a).Some? && a.Provide?
    ensures Cleared(prior) && TokenIn(prior) == Some(a.token)
  {
    AlwaysBooked(cfg, req, prior);
  }

  /**
   Every provider step uses the token last obtained, and is taken under a cleared grant: after
   that token was obtained the database was read and the grant found unrevoked.
   */
  lemma CallsAreCleared(cfg: Config, req: Request, acts: seq<Act>, k: nat)
    requires PhaseAfter(cfg, req, acts).Some? && k < |acts| && acts[k].Provide?
    ensures Cleared(acts[..k]) && TokenIn(acts[..k]) == Some(acts[k].token)
  {
    PrefixIsPath(cfg, req, acts, k + 1);
    assert acts[..k + 1][..k] == acts[..k];
    LastCallIsCleared(cfg, req, acts[..k], acts[k], PhaseAfter(cfg, req, acts[..k]).value);
  }

  lemma {:induction false} PrefixIsPath(cfg: Config, req: Request, acts: seq<Act>, k: nat)
    requires PhaseAfter(cfg, req, acts).Some? && k <= |acts|
    ensures PhaseAfter(cfg, req, acts[..k]).Some?
    decreases |acts|
  {
    if k < |acts| {
      PrefixIsPath(cfg, req, acts[..|acts| - 1], k);
      assert acts[..|acts| - 1][..k] == acts[..k];
    } else {
      assert acts[..k] == acts;
    }
  }

  // The last provider call returned this result.
  ghost predicate Replied(acts: seq<Act>, result: string) {
    var last := LastReply(acts);
    last.Some? && last.value.Replied? && last.value.result == result
  }

  // What an outcome promises about the path that led to it.
  ghost predicate Earned(acts: seq<Act>, o: Outcome) {
    match o
    case Success(result, fromCache) =>
      if fromCache then LastView(acts) == Some(I.Cached(result)) && Sends(acts) == 0
      else Replied(acts, result) && Sends(acts) > 0
    case Denied(reason) => reason.Revoked? || Sends(acts) == 0
    case Failed(ProviderFailed(Raised(failure))) => LastReply(acts) == Some(R.Failed(failure))
    case Failed(_) => true
  }

  ghost predicate Honest(acts: seq<Act>, p: Phase) {
    match p
    case Gate(_) => Sends(acts) == 0
    case Closing(_, _, o) => Earned(acts, o)
    case Ended(o, _) => Earned(acts, o)
    case _ => true
  }

  lemma {:induction false} AlwaysHonest(cfg: Config, req: Request, acts: seq<Act>)
    requires PhaseAfter(cfg, req, acts).Some?
    ensures Honest(acts, PhaseAfter(cfg, req, acts).value)
  {
    if acts != [] {
      var prior := acts[..|acts| - 1];
      AlwaysHonest(cfg, req, prior);
      var p, a := PhaseAfter(cfg, req, prior).value, acts[|acts| - 1];
      match p
      case Gate(g) => HonestGate(cfg, req, acts, g, a);
      case Prep(c, s) => HonestPrep(cfg, acts, c, s, a);
      case Calling(c, acc, cred, l) => HonestCalling(cfg, acts, c, acc, cred, l, a);
      case _ =>
    }
  }

  lemma HonestGate(cfg: Config, req: Request, acts: seq<Act>, g: GateStage, a: Act)
    requires NextGate(cfg, req, g, a).Some? && acts != [] && acts[|acts| - 1] == a && Honest(acts[..|acts| - 1], Gate(g))
    ensures Honest(acts, NextGate(cfg, req, g, a).value)
  {
  }

  lemma HonestPrep(cfg: Config, acts: seq<Act>, c: Ctx, s: PrepStage, a: Act)
    requires NextPrep(cfg, c, s, a).Some? && acts != [] && acts[|acts| - 1] == a
    ensures Honest(acts, NextPrep(cfg, c, s, a).value)
  {
  }

  lemma HonestCalling(cfg: Config, acts: seq<Act>, c: Ctx, acc: Account, cred: Credential, l: R.Loop, a: Act)
    requires NextCalling(cfg, c, acc, cred, l, a).Some? && acts != [] && acts[|acts| - 1] == a
    ensures Honest(acts, NextCalling(cfg, c, acc, cred, l, a).value)
  {
  }

  /**
   A fresh success returns what the last provider call replied; a replay returns what the store
   held and calls nobody; a denial other than for revocation has called nobody.
   */
  lemma OutcomesAreEarned(cfg: Config, req: Request, acts: seq<Act>, o: Outcome, audited: bool)
    requires PhaseAfter(cfg, req, acts) == Some(Ended(o, audited))
    ensures Earned(acts, o)
  {
    AlwaysHonest(cfg, req, acts);
  }
}
