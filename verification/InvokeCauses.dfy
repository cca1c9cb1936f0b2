/**
 Why an invocation goes on, and why it ends as it does, read off what it has observed.

 `SeenIn` collects the observations of a path, one field for each check, and nothing in the
 specification here looks at the phases of the automaton.  `ActIffDue` says for every act exactly
 when it may come next, `EndExplained` gives each outcome its causes, and both hold in both
 directions.
 */
module InvokeCauses {
  import opened Common
  import opened InvokePath
  import B = CircuitBreaker
  import F = Refresh
  import GrantToken
  import I = Idempotency
  import R = Retry

  // What was observed before the execution; a check not made yet has no value.
  datatype Entry = Entry(
    verdict: Option<Result<GrantToken.Claims, GrantToken.Error>>, marker: Option<bool>, row: Option<Option<Found>>,
    clock: Option<real>, rate: Option<bool>, view: Option<I.View>, held: Option<Option<string>>)

  // What was observed in the execution; `steps` are those of the outbound phase under the credential in use.
  datatype Work = Work(
    account: Option<Option<Account>>, dated: Option<real>, overdue: Option<real>, plain: Option<Option<string>>,
    refresh: Option<F.End>, hit: Option<bool>, revoked: Option<bool>, steps: seq<R.Act>)

  datatype Seen = Seen(entry: Entry, work: Work, crashed: bool)

  const NO_ENTRY := Entry(None, None, None, None, None, None, None)
  const NO_WORK := Work(None, None, None, None, None, None, None, [])
  const NOTHING := Seen(NO_ENTRY, NO_WORK, false)

  // The first clock reading is that of the grant's expiry, those after the account was loaded are the credential's.
  function Clocked(s: Seen, now: real): Seen {
    if s.work.account.None? then s.(entry := s.entry.(clock := Some(now)))
    else if s.work.dated.None? then s.(work := s.work.(dated := Some(now)))
    else s.(work := s.work.(overdue := Some(now)))
  }

  function Watch(s: Seen, a: Act): Seen {
    match a
    case Verify(verdict) => s.(entry := s.entry.(verdict := Some(verdict)))
    case ReadMarker(hit) => s.(entry := s.entry.(marker := Some(hit)))
    case ReadRow(row) => s.(entry := s.entry.(row := Some(row)))
    case ReadClock(now) => Clocked(s, now)
    case CheckRate(_, _, allowed) => s.(entry := s.entry.(rate := Some(allowed)))
    case GetKey(_, view) => s.(entry := s.entry.(view := Some(view)))
    case ReserveKey(_, held) => s.(entry := s.entry.(held := Some(held)))
    case LoadAccount(_, account) => s.(work := s.work.(account := Some(account)))
    case Decrypt(_, plain) => s.(work := s.work.(plain := Some(plain)))
    case Refresh(_, _, _, end) => s.(work := s.work.(refresh := Some(end), hit := None, revoked := None, steps := []))
    case RecheckMarker(hit) => s.(work := s.work.(hit := Some(hit)))
    case RecheckRow(_, revoked) => s.(work := s.work.(revoked := Some(revoked)))
    case Provide(_, step) => s.(work := s.work.(steps := s.work.steps + [step]))
    case Crash => s.(crashed := true)
    case _ => s
  }

  function SeenIn(acts: seq<Act>): Seen {
    if acts == [] then NOTHING else Watch(SeenIn(acts[..|acts| - 1]), acts[|acts| - 1])
  }

  // ---- The checks before the execution ----

  // The token is the broker's and for this tool.
  predicate Genuine(req: Request, e: Entry) {
    e.verdict.Some? && e.verdict.value.Ok? && e.verdict.value.value.tool == req.tool
  }

  predicate HasRow(e: Entry) {
    e.row.Some? && e.row.value.Some?
  }

  // Neither the marker nor the row says that the grant is revoked.
  predicate Unrevoked(e: Entry) {
    HasRow(e) && e.marker != Some(true) && e.row.value.value.row.revokedAt.None?
  }

  predicate Unexpired(e: Entry) {
    HasRow(e) && e.clock.Some? && e.clock.value < e.row.value.value.row.expiresAt
  }

  predicate Screened(cfg: Config, e: Entry) {
    Unrevoked(e) && Unexpired(e) && (cfg.hasLimiter ==> e.rate == Some(true))
  }

  // The tool is known, and the grant is for its scope.
  predicate ToolFits(cfg: Config, req: Request, e: Entry) {
    HasRow(e) && req.tool in cfg.tools && e.row.value.value.row.scope == cfg.tools[req.tool].scope
  }

  predicate Keyed(cfg: Config, req: Request) {
    req.key.Some? && cfg.hasStore
  }

  // Every check has passed, and the key is reserved if there is one and a store to keep it.
  predicate Passed(cfg: Config, req: Request, e: Entry) {
    && Genuine(req, e) && Screened(cfg, e) && ToolFits(cfg, req, e)
    && (Keyed(cfg, req) ==> e.view == Some(I.Unseen) && e.held.Some? && e.held.value.Some?)
  }

  // ---- The credential ----

  predicate HasAccount(w: Work) {
    w.account.Some? && w.account.value.Some?
  }

  predicate Refreshable(a: Account) {
    a.provider == "google" && a.cred.refresh.Some?
  }

  predicate ExpiresBy(a: Account, time: real) {
    a.cred.expiresAt.Some? && a.cred.expiresAt.value <= time
  }

  // The stored token expires within a minute of the reading, or has expired.
  predicate Stale(w: Work) {
    HasAccount(w) && w.dated.Some? && ExpiresBy(w.account.value.value, w.dated.value + 60.0)
  }

  // The stored token can be used: it is known not to expire soon, or cannot be refreshed but has not expired yet.
  predicate Usable(w: Work) {
    && HasAccount(w)
    && var a := w.account.value.value;
       || a.cred.expiresAt.None?
       || (w.dated.Some? && !Stale(w))
       || (w.overdue.Some? && !ExpiresBy(a, w.overdue.value))
  }

  // The access token in use.
  function TokenHeld(w: Work): Option<string> {
    if w.refresh.Some? then (if w.refresh.value.Fresh? then Some(w.refresh.value.token) else None)
    else if w.plain.Some? then w.plain.value
    else None
  }

  function LastStep(w: Work): Option<R.Act> {
    if w.steps == [] then None else Some(w.steps[|w.steps| - 1])
  }

  // The provider has answered 401 to the token in use.
  predicate Rejected(w: Work) {
    LastStep(w) == Some(R.Answered(R.Failed(R.ProviderStatus(Some(401)))))
  }

  predicate SettingsFit(cfg: Config) {
    cfg.maxRetries >= 0 && cfg.baseDelay >= 0.0 && cfg.breaker.threshold >= 1 && cfg.breaker.reset >= 0.0
  }

  // ---- What is due next ----

  predicate FastDue(cfg: Config, req: Request, s: Seen) {
    cfg.hasCache && Genuine(req, s.entry) && s.entry.marker.None? && s.entry.row.None?
  }

  predicate FindDue(cfg: Config, req: Request, s: Seen) {
    Genuine(req, s.entry) && (cfg.hasCache ==> s.entry.marker.Some?) && s.entry.row.None?
  }

  predicate ClockDue(s: Seen) {
    || (Unrevoked(s.entry) && s.entry.clock.None?)
    || (HasAccount(s.work) && s.work.account.value.value.cred.expiresAt.Some?
        && (s.work.dated.None? || (Stale(s.work) && !Refreshable(s.work.account.value.value) && s.work.overdue.None?)))
  }

  predicate RateDue(cfg: Config, s: Seen) {
    cfg.hasLimiter && Unrevoked(s.entry) && Unexpired(s.entry) && s.entry.rate.None? && !s.crashed
  }

  predicate GetDue(cfg: Config, req: Request, s: Seen) {
    Screened(cfg, s.entry) && ToolFits(cfg, req, s.entry) && Keyed(cfg, req) && s.entry.view.None? && !s.crashed
  }

  predicate ReserveDue(cfg: Config, req: Request, s: Seen) {
    Screened(cfg, s.entry) && ToolFits(cfg, req, s.entry) && Keyed(cfg, req) && s.entry.view == Some(I.Unseen) && s.entry.held.None? && !s.crashed
  }

  predicate LoadDue(cfg: Config, req: Request, s: Seen) {
    Passed(cfg, req, s.entry) && s.work.account.None? && !s.crashed
  }

  predicate DecryptDue(s: Seen) {
    Usable(s.work) && s.work.plain.None? && s.work.refresh.None? && !s.crashed
  }

  // One refresh at most: of a stale token before it is used, or of the stored one that the provider rejected.
  predicate RefreshDue(s: Seen) {
    && HasAccount(s.work) && Refreshable(s.work.account.value.value) && s.work.refresh.None? && !s.crashed
    && (Stale(s.work) || Rejected(s.work))
  }

  predicate HitDue(cfg: Config, s: Seen) {
    cfg.hasCache && TokenHeld(s.work).Some? && s.work.hit.None? && s.work.revoked.None? && !s.crashed
  }

  predicate RowDue(cfg: Config, s: Seen) {
    TokenHeld(s.work).Some? && s.work.revoked.None? && s.work.hit == (if cfg.hasCache then Some(false) else None) && !s.crashed
  }

  predicate CallDue(cfg: Config, s: Seen) {
    && TokenHeld(s.work).Some? && s.work.revoked == Some(false) && SettingsFit(cfg) && !s.crashed
    && var loop := R.LoopAfter(R.Params(cfg.maxRetries, cfg.baseDelay, true), s.work.steps);
       loop.Some? && !loop.value.Over?
  }

  // An await that may raise an exception nobody handles.
  predicate CrashDue(cfg: Config, req: Request, s: Seen) {
    || RateDue(cfg, s) || GetDue(cfg, req, s) || ReserveDue(cfg, req, s) || LoadDue(cfg, req, s)
    || DecryptDue(s) || RefreshDue(s) || HitDue(cfg, s) || RowDue(cfg, s)
  }

  // The composite key of this request under this grant.
  function KeyOf(req: Request, f: Found): string
    requires req.key.Some?
  {
    f.row.agent + ":" + f.row.account + ":" + req.tool + ":" + req.key.value
  }

  // The act is the one that what was observed calls for, made for the right grant, account, key and token.
  predicate Due(cfg: Config, req: Request, s: Seen, a: Act) {
    match a
    case Verify(_) => s == NOTHING
    case ReadMarker(_) => FastDue(cfg, req, s)
    case ReadRow(_) => FindDue(cfg, req, s)
    case ReadClock(_) => ClockDue(s)
    case CheckRate(agent, _, _) => RateDue(cfg, s) && agent == s.entry.row.value.value.row.agent
    case GetKey(key, _) => GetDue(cfg, req, s) && key == KeyOf(req, s.entry.row.value.value)
    case ReserveKey(key, _) => ReserveDue(cfg, req, s) && key == KeyOf(req, s.entry.row.value.value)
    case LoadAccount(id, _) => LoadDue(cfg, req, s) && id == s.entry.row.value.value.row.account
    case Decrypt(blob, _) => DecryptDue(s) && blob == s.work.account.value.value.cred.access
    case Refresh(id, cred, _, _) =>
      RefreshDue(s) && HasRow(s.entry) && id == s.entry.row.value.value.row.account && cred == s.work.account.value.value.cred
    case RecheckMarker(_) => HitDue(cfg, s)
    case RecheckRow(id, _) => RowDue(cfg, s) && HasRow(s.entry) && id == s.entry.row.value.value.id
    case Provide(token, step) => CallDue(cfg, s) && TokenHeld(s.work) == Some(token)
      && R.LoopAfter(R.Params(cfg.maxRetries, cfg.baseDelay, true), s.work.steps + [step]).Some?
    case Crash => CrashDue(cfg, req, s)
    case _ => false
  }

  // Nothing but the settlement of the key and the audit row is left to do.
  predicate NothingDue(cfg: Config, req: Request, s: Seen) {
    && s != NOTHING && !FastDue(cfg, req, s) && !FindDue(cfg, req, s) && !ClockDue(s)
    && !CrashDue(cfg, req, s) && !CallDue(cfg, s)
  }

  // ---- Why an invocation ends ----

  // The causes of each denial: the check that failed, every earlier one having passed.
  predicate DenialCaused(cfg: Config, req: Request, s: Seen, o: Outcome) {
    var e, w := s.entry, s.work;
    && (o == Denied(InvalidToken) <==> e.verdict == Some(Err(GrantToken.Invalid)))
    && (o == Denied(ToolMismatch) <==> e.verdict.Some? && e.verdict.value.Ok? && e.verdict.value.value.tool != req.tool)
    && (o == Denied(TokenExpired) <==> e.verdict == Some(Err(GrantToken.Expired)) || (Unrevoked(e) && e.clock.Some? && !Unexpired(e)))
    && (o == Denied(RateLimited) <==> e.rate == Some(false))
    && (o == Denied(NotFound) <==> e.row == Some(None) || (Screened(cfg, e) && req.tool !in cfg.tools))
    && (o == Denied(ScopeMismatch) <==> Screened(cfg, e) && req.tool in cfg.tools && !ToolFits(cfg, req, e))
    && (o == Denied(IdempotencyConflict) <==> e.view == Some(I.Conflict) || e.held == Some(None))
    && (o == Denied(Revoked) <==> (HasRow(e) && !Unrevoked(e)) || w.hit == Some(true) || w.revoked == Some(true))
  }

  // The causes of each failure.
  predicate FailureCaused(cfg: Config, s: Seen, o: Outcome) {
    var w := s.work;
    && (o == Failed(AccountGone) <==> w.account == Some(None))
    && (o == Failed(CredentialExpired) <==> HasAccount(w) && w.overdue.Some? && ExpiresBy(w.account.value.value, w.overdue.value))
    && (o == Failed(Undecryptable) <==> w.plain == Some(None))
    && (o == Failed(RefreshFailed) <==> w.refresh.Some? && (w.refresh.value.OAuthFailed? || w.refresh.value.TransportFailed? || w.refresh.value.CryptoFailed?))
    && (o == Failed(Internal) <==>
        s.crashed || w.refresh == Some(F.Raised) || LastStep(w) == Some(R.Answered(R.Failed(R.Unexpected))))
  }

  // The causes of each end that the provider or its breaker brings about.
  predicate ProviderCaused(cfg: Config, s: Seen, o: Outcome) {
    var w, last := s.work, LastStep(s.work);
    && (o == Failed(ProviderFailed(R.BadArguments)) <==> w.revoked == Some(false) && !SettingsFit(cfg))
    && (o == Failed(ProviderFailed(R.Unavailable)) <==> last == Some(R.Asked(false)))
    && (o.Failed? && o.fault.ProviderFailed? && o.fault.end.Raised? <==>
        !s.crashed && last.Some? && last.value.Answered? && last.value.reply.Failed? && !last.value.reply.failure.Unexpected?)
    && (o.Failed? && o.fault.ProviderFailed? && o.fault.end.Raised? ==> o.fault.end.failure == last.value.reply.failure)
    && (o == Failed(ProviderFailed(R.Raised(R.ProviderStatus(Some(401))))) ==>
        w.refresh.Some? || (HasAccount(w) && !Refreshable(w.account.value.value)))
    && !(o.Failed? && o.fault.ProviderFailed? && o.fault.end.Returned?)
  }

  // The causes of each success: a replay, or the result the last call replied.
  predicate SuccessCaused(s: Seen, o: Outcome) {
    var view, last := s.entry.view, LastStep(s.work);
    && (o.Success? && o.fromCache <==> view.Some? && view.value.Cached?)
    && (o.Success? && o.fromCache ==> o.result == view.value.result)
    && (o.Success? && !o.fromCache <==> last.Some? && last.value.Answered? && last.value.reply.Replied?)
    && (o.Success? && !o.fromCache ==> o.result == last.value.reply.result)
  }

  predicate Caused(cfg: Config, req: Request, s: Seen, o: Outcome) {
    DenialCaused(cfg, req, s, o) && FailureCaused(cfg, s, o) && ProviderCaused(cfg, s, o) && SuccessCaused(s, o)
  }

  // ---- What each phase has observed ----

  // The row was found under a genuine token, and nothing so far speaks against it.
  ghost predicate AtGate(cfg: Config, req: Request, s: Seen, f: Found) {
    && s.work == NO_WORK && !s.crashed
    && Genuine(req, s.entry) && s.entry.row == Some(Some(f)) && (cfg.hasCache ==> s.entry.marker.Some?) && Unrevoked(s.entry)
    && s.entry.held.None?
  }

  ghost predicate GateTells(cfg: Config, req: Request, s: Seen, g: GateStage) {
    match g
    case Start => s == NOTHING
    case Verified(claims) => cfg.hasCache && claims.tool == req.tool && s == Seen(NO_ENTRY.(verdict := Some(Ok(claims))), NO_WORK, false)
    case Checked(claims, fast) =>
      && claims.tool == req.tool && (fast ==> cfg.hasCache)
      && s == Seen(NO_ENTRY.(verdict := Some(Ok(claims)), marker := if cfg.hasCache then Some(fast) else None), NO_WORK, false)
    case Resolved(f) => AtGate(cfg, req, s, f) && s.entry.clock.None? && s.entry.rate.None? && s.entry.view.None?
    case Timely(f) => AtGate(cfg, req, s, f) && cfg.hasLimiter && Unexpired(s.entry) && s.entry.rate.None? && s.entry.view.None?
    case Admitted(f) =>
      AtGate(cfg, req, s, f) && Screened(cfg, s.entry) && OnlyIfAsked(cfg, s) && ToolFits(cfg, req, s.entry) && Keyed(cfg, req) && s.entry.view.None?
    case Missed(f) =>
      AtGate(cfg, req, s, f) && Screened(cfg, s.entry) && OnlyIfAsked(cfg, s) && ToolFits(cfg, req, s.entry) && Keyed(cfg, req) && s.entry.view == Some(I.Unseen)
  }

  // A rate was read only if there is a limiter.
  ghost predicate OnlyIfAsked(cfg: Config, s: Seen) {
    s.entry.rate.Some? ==> cfg.hasLimiter
  }

  // The execution has begun, for the row that was found.
  ghost predicate Executing(cfg: Config, req: Request, s: Seen, c: Ctx) {
    && !s.crashed && Passed(cfg, req, s.entry) && s.entry.row == Some(Some(c.found))
    && (cfg.hasCache ==> s.entry.marker.Some?) && OnlyIfAsked(cfg, s)
    && (!Keyed(cfg, req) ==> s.entry.view.None? && s.entry.held.None?)
  }

  // The token in use was obtained for this account, by decryption or by the one refresh.
  ghost predicate Armed(w: Work, acc: Account, cred: Credential) {
    && w.account == Some(Some(acc)) && TokenHeld(w) == Some(cred.token) && (cred.Stored? <==> w.refresh.None?)
    && (w.plain.Some? ==> w.plain.value.Some?) && DatedRight(w, acc)
  }

  // The clock was read as often as the credential's expiry calls for.
  ghost predicate DatedRight(w: Work, acc: Account) {
    && (acc.cred.expiresAt.Some? <==> w.dated.Some?)
    && (w.overdue.Some? ==> !ExpiresBy(acc, w.overdue.value))
    && (w.overdue.Some? <==> Stale(w) && !Refreshable(acc))
    && (w.plain.Some? && Stale(w) ==> !Refreshable(acc))
  }

  ghost predicate WorkTells(cfg: Config, w: Work, p: PrepStage) {
    match p
    case Loading => w == NO_WORK
    case Dating(acc) => w == NO_WORK.(account := Some(Some(acc))) && acc.cred.expiresAt.Some?
    case Overdue(acc) => w == NO_WORK.(account := Some(Some(acc)), dated := w.dated) && Stale(w) && !Refreshable(acc)
    case Refreshing(acc, after401) =>
      if after401
      then Armed(w, acc, Stored(if w.plain.Some? && w.plain.value.Some? then w.plain.value.value else "")) && Refreshable(acc) && Rejected(w) && w.plain.Some?
           && w.revoked == Some(false) && w.hit == (if cfg.hasCache then Some(false) else None)
           && SettingsFit(cfg) && R.LoopAfter(LoopParams(cfg), w.steps).Some? && R.LoopAfter(LoopParams(cfg), w.steps).value.Over?
      else w == NO_WORK.(account := Some(Some(acc)), dated := w.dated) && Stale(w) && Refreshable(acc)
    case Decrypting(acc) =>
      w == NO_WORK.(account := Some(Some(acc)), dated := w.dated, overdue := w.overdue) && Usable(w) && DatedRight(w, acc)
    case Rechecking(acc, cred) => cfg.hasCache && Armed(w, acc, cred) && w.hit.None? && w.revoked.None? && w.steps == []
    case Confirming(acc, cred) => Armed(w, acc, cred) && w.hit == (if cfg.hasCache then Some(false) else None) && w.revoked.None? && w.steps == []
  }

  ghost predicate CallTells(cfg: Config, w: Work, acc: Account, cred: Credential, l: R.Loop) {
    && Armed(w, acc, cred) && w.revoked == Some(false) && w.hit == (if cfg.hasCache then Some(false) else None)
    && SettingsFit(cfg) && R.LoopAfter(LoopParams(cfg), w.steps) == Some(l) && !l.Over?
  }

  // What a path in this phase has observed.
  ghost predicate Tells(cfg: Config, req: Request, s: Seen, p: Phase) {
    match p
    case Gate(g) => GateTells(cfg, req, s, g)
    case Prep(c, stage) => Executing(cfg, req, s, c) && WorkTells(cfg, s.work, stage)
    case Calling(c, acc, cred, l) => Executing(cfg, req, s, c) && CallTells(cfg, s.work, acc, cred, l)
    case Closing(_, _, o) => Caused(cfg, req, s, o) && NothingDue(cfg, req, s)
    case Ended(o, _) => Caused(cfg, req, s, o) && NothingDue(cfg, req, s)
  }

  // The outcome is settled.
  predicate Over(p: Phase) {
    p.Closing? || p.Ended?
  }

  // ---- From act to act: the gate, the credential, the calls ----

  lemma GateGoesOn(cfg: Config, req: Request, s: Seen, g: GateStage, a: Act)
    requires GateTells(cfg, req, s, g) && NextGate(cfg, req, g, a).Some?
    requires !Over(NextGate(cfg, req, g, a).value)
    ensures Tells(cfg, req, Watch(s, a), NextGate(cfg, req, g, a).value)
  {
  }

  lemma GateDenied(cfg: Config, req: Request, s: Seen, g: GateStage, a: Act)
    requires GateTells(cfg, req, s, g) && NextGate(cfg, req, g, a).Some?
    requires Over(NextGate(cfg, req, g, a).value)
    ensures DenialCaused(cfg, req, Watch(s, a), NextGate(cfg, req, g, a).value.outcome)
  {
  }

  lemma GateFailed(cfg: Config, req: Request, s: Seen, g: GateStage, a: Act)
    requires GateTells(cfg, req, s, g) && NextGate(cfg, req, g, a).Some?
    requires Over(NextGate(cfg, req, g, a).value)
    ensures FailureCaused(cfg, Watch(s, a), NextGate(cfg, req, g, a).value.outcome)
  {
  }

  lemma GateAnswered(cfg: Config, req: Request, s: Seen, g: GateStage, a: Act)
    requires GateTells(cfg, req, s, g) && NextGate(cfg, req, g, a).Some?
    requires Over(NextGate(cfg, req, g, a).value)
    ensures ProviderCaused(cfg, Watch(s, a), NextGate(cfg, req, g, a).value.outcome)
  {
  }

  lemma GateSucceeded(cfg: Config, req: Request, s: Seen, g: GateStage, a: Act)
    requires GateTells(cfg, req, s, g) && NextGate(cfg, req, g, a).Some?
    requires Over(NextGate(cfg, req, g, a).value)
    ensures SuccessCaused(Watch(s, a), NextGate(cfg, req, g, a).value.outcome)
  {
  }

  lemma GateStops(cfg: Config, req: Request, s: Seen, g: GateStage, a: Act)
    requires GateTells(cfg, req, s, g) && NextGate(cfg, req, g, a).Some?
    requires Over(NextGate(cfg, req, g, a).value)
    ensures NothingDue(cfg, req, Watch(s, a))
  {
  }

  lemma GateEnds(cfg: Config, req: Request, s: Seen, g: GateStage, a: Act)
    requires GateTells(cfg, req, s, g) && NextGate(cfg, req, g, a).Some?
    requires Over(NextGate(cfg, req, g, a).value)
    ensures Tells(cfg, req, Watch(s, a), NextGate(cfg, req, g, a).value)
  {
    GateDenied(cfg, req, s, g, a);
    GateFailed(cfg, req, s, g, a);
    GateAnswered(cfg, req, s, g, a);
    GateSucceeded(cfg, req, s, g, a);
    GateStops(cfg, req, s, g, a);
  }

  lemma GateDue(cfg: Config, req: Request, s: Seen, g: GateStage, a: Act)
    requires GateTells(cfg, req, s, g)
    ensures NextGate(cfg, req, g, a).Some? <==> Due(cfg, req, s, a)
  {
  }

  lemma LoadGoesOn(cfg: Config, req: Request, s: Seen, c: Ctx, p: PrepStage, a: Act)
    requires Executing(cfg, req, s, c) && WorkTells(cfg, s.work, p) && NextPrep(cfg, c, p, a).Some?
    requires p.Loading? || p.Dating? || p.Overdue?
    requires !Over(NextPrep(cfg, c, p, a).value)
    ensures Tells(cfg, req, Watch(s, a), NextPrep(cfg, c, p, a).value)
  {
  }

  lemma CredentialGoesOn(cfg: Config, req: Request, s: Seen, c: Ctx, p: PrepStage, a: Act)
    requires Executing(cfg, req, s, c) && WorkTells(cfg, s.work, p) && NextPrep(cfg, c, p, a).Some?
    requires p.Refreshing? || p.Decrypting?
    requires !Over(NextPrep(cfg, c, p, a).value)
    ensures Tells(cfg, req, Watch(s, a), NextPrep(cfg, c, p, a).value)
  {
  }

  lemma CheckGoesOn(cfg: Config, req: Request, s: Seen, c: Ctx, p: PrepStage, a: Act)
    requires Executing(cfg, req, s, c) && WorkTells(cfg, s.work, p) && NextPrep(cfg, c, p, a).Some?
    requires p.Rechecking? || p.Confirming?
    requires !Over(NextPrep(cfg, c, p, a).value)
    ensures Tells(cfg, req, Watch(s, a), NextPrep(cfg, c, p, a).value)
  {
  }

  lemma PrepGoesOn(cfg: Config, req: Request, s: Seen, c: Ctx, p: PrepStage, a: Act)
    requires Executing(cfg, req, s, c) && WorkTells(cfg, s.work, p) && NextPrep(cfg, c, p, a).Some?
    requires !Over(NextPrep(cfg, c, p, a).value)
    ensures Tells(cfg, req, Watch(s, a), NextPrep(cfg, c, p, a).value)
  {
    match p
    case Rechecking(_, _) => CheckGoesOn(cfg, req, s, c, p, a);
    case Confirming(_, _) => CheckGoesOn(cfg, req, s, c, p, a);
    case Refreshing(_, _) => CredentialGoesOn(cfg, req, s, c, p, a);
    case Decrypting(_) => CredentialGoesOn(cfg, req, s, c, p, a);
    case _ => LoadGoesOn(cfg, req, s, c, p, a);
  }

  lemma EarlyDenied(cfg: Config, req: Request, s: Seen, c: Ctx, p: PrepStage, a: Act)
    requires Executing(cfg, req, s, c) && WorkTells(cfg, s.work, p) && NextPrep(cfg, c, p, a).Some?
    requires p.Loading? || p.Overdue? || p.Decrypting?
    requires Over(NextPrep(cfg, c, p, a).value)
    ensures DenialCaused(cfg, req, Watch(s, a), NextPrep(cfg, c, p, a).value.outcome)
  {
  }

  lemma EarlyFailed(cfg: Config, req: Request, s: Seen, c: Ctx, p: PrepStage, a: Act)
    requires Executing(cfg, req, s, c) && WorkTells(cfg, s.work, p) && NextPrep(cfg, c, p, a).Some?
    requires p.Loading? || p.Overdue? || p.Decrypting?
    requires Over(NextPrep(cfg, c, p, a).value)
    ensures FailureCaused(cfg, Watch(s, a), NextPrep(cfg, c, p, a).value.outcome)
  {
  }

  lemma EarlyAnswered(cfg: Config, req: Request, s: Seen, c: Ctx, p: PrepStage, a: Act)
    requires Executing(cfg, req, s, c) && WorkTells(cfg, s.work, p) && NextPrep(cfg, c, p, a).Some?
    requires p.Loading? || p.Overdue? || p.Decrypting?
    requires Over(NextPrep(cfg, c, p, a).value)
    ensures ProviderCaused(cfg, Watch(s, a), NextPrep(cfg, c, p, a).value.outcome)
    ensures SuccessCaused(Watch(s, a), NextPrep(cfg, c, p, a).value.outcome)
  {
  }

  lemma EarlyStops(cfg: Config, req: Request, s: Seen, c: Ctx, p: PrepStage, a: Act)
    requires Executing(cfg, req, s, c) && WorkTells(cfg, s.work, p) && NextPrep(cfg, c, p, a).Some?
    requires p.Loading? || p.Overdue? || p.Decrypting?
    requires Over(NextPrep(cfg, c, p, a).value)
    ensures NothingDue(cfg, req, Watch(s, a))
  {
  }

  lemma LateDenied(cfg: Config, req: Request, s: Seen, c: Ctx, p: PrepStage, a: Act)
    requires Executing(cfg, req, s, c) && WorkTells(cfg, s.work, p) && NextPrep(cfg, c, p, a).Some?
    requires p.Refreshing? || p.Rechecking? || p.Confirming?
    requires Over(NextPrep(cfg, c, p, a).value)
    ensures DenialCaused(cfg, req, Watch(s, a), NextPrep(cfg, c, p, a).value.outcome)
  {
  }

  lemma LateFailed(cfg: Config, req: Request, s: Seen, c: Ctx, p: PrepStage, a: Act)
    requires Executing(cfg, req, s, c) && WorkTells(cfg, s.work, p) && NextPrep(cfg, c, p, a).Some?
    requires p.Refreshing? || p.Rechecking? || p.Confirming?
    requires Over(NextPrep(cfg, c, p, a).value)
    ensures FailureCaused(cfg, Watch(s, a), NextPrep(cfg, c, p, a).value.outcome)
  {
  }

  lemma LateAnswered(cfg: Config, req: Request, s: Seen, c: Ctx, p: PrepStage, a: Act)
    requires Executing(cfg, req, s, c) && WorkTells(cfg, s.work, p) && NextPrep(cfg, c, p, a).Some?
    requires p.Refreshing? || p.Rechecking? || p.Confirming?
    requires Over(NextPrep(cfg, c, p, a).value)
    ensures ProviderCaused(cfg, Watch(s, a), NextPrep(cfg, c, p, a).value.outcome)
    ensures SuccessCaused(Watch(s, a), NextPrep(cfg, c, p, a).value.outcome)
  {
  }

  lemma LateStops(cfg: Config, req: Request, s: Seen, c: Ctx, p: PrepStage, a: Act)
    requires Executing(cfg, req, s, c) && WorkTells(cfg, s.work, p) && NextPrep(cfg, c, p, a).Some?
    requires p.Refreshing? || p.Rechecking? || p.Confirming?
    requires Over(NextPrep(cfg, c, p, a).value)
    ensures NothingDue(cfg, req, Watch(s, a))
  {
  }

  lemma PrepEnds(cfg: Config, req: Request, s: Seen, c: Ctx, p: PrepStage, a: Act)
    requires Executing(cfg, req, s, c) && WorkTells(cfg, s.work, p) && NextPrep(cfg, c, p, a).Some?
    requires Over(NextPrep(cfg, c, p, a).value)
    ensures Tells(cfg, req, Watch(s, a), NextPrep(cfg, c, p, a).value)
  {
    if p.Loading? || p.Overdue? || p.Decrypting? {
      EarlyDenied(cfg, req, s, c, p, a);
      EarlyFailed(cfg, req, s, c, p, a);
      EarlyAnswered(cfg, req, s, c, p, a);
      EarlyStops(cfg, req, s, c, p, a);
    } else {
      LateDenied(cfg, req, s, c, p, a);
      LateFailed(cfg, req, s, c, p, a);
      LateAnswered(cfg, req, s, c, p, a);
      LateStops(cfg, req, s, c, p, a);
    }
  }

  lemma PrepDue(cfg: Config, req: Request, s: Seen, c: Ctx, p: PrepStage, a: Act)
    requires Executing(cfg, req, s, c) && WorkTells(cfg, s.work, p)
    ensures NextPrep(cfg, c, p, a).Some? <==> Due(cfg, req, s, a)
  {
  }

  lemma CallGoesOn(cfg: Config, req: Request, s: Seen, c: Ctx, acc: Account, cred: Credential, l: R.Loop, a: Act)
    requires Executing(cfg, req, s, c) && CallTells(cfg, s.work, acc, cred, l) && NextCalling(cfg, c, acc, cred, l, a).Some?
    requires !Over(NextCalling(cfg, c, acc, cred, l, a).value)
    ensures Tells(cfg, req, Watch(s, a), NextCalling(cfg, c, acc, cred, l, a).value)
  {
    assert (s.work.steps + [a.step])[..|s.work.steps|] == s.work.steps;
  }

  lemma CallDenied(cfg: Config, req: Request, s: Seen, c: Ctx, acc: Account, cred: Credential, l: R.Loop, a: Act)
    requires Executing(cfg, req, s, c) && CallTells(cfg, s.work, acc, cred, l) && NextCalling(cfg, c, acc, cred, l, a).Some?
    requires Over(NextCalling(cfg, c, acc, cred, l, a).value)
    ensures DenialCaused(cfg, req, Watch(s, a), NextCalling(cfg, c, acc, cred, l, a).value.outcome)
  {
    assert (s.work.steps + [a.step])[..|s.work.steps|] == s.work.steps;
  }

  lemma CallFailed(cfg: Config, req: Request, s: Seen, c: Ctx, acc: Account, cred: Credential, l: R.Loop, a: Act)
    requires Executing(cfg, req, s, c) && CallTells(cfg, s.work, acc, cred, l) && NextCalling(cfg, c, acc, cred, l, a).Some?
    requires Over(NextCalling(cfg, c, acc, cred, l, a).value)
    ensures FailureCaused(cfg, Watch(s, a), NextCalling(cfg, c, acc, cred, l, a).value.outcome)
  {
    assert (s.work.steps + [a.step])[..|s.work.steps|] == s.work.steps;
  }

  lemma CallAnswered(cfg: Config, req: Request, s: Seen, c: Ctx, acc: Account, cred: Credential, l: R.Loop, a: Act)
    requires Executing(cfg, req, s, c) && CallTells(cfg, s.work, acc, cred, l) && NextCalling(cfg, c, acc, cred, l, a).Some?
    requires Over(NextCalling(cfg, c, acc, cred, l, a).value)
    ensures ProviderCaused(cfg, Watch(s, a), NextCalling(cfg, c, acc, cred, l, a).value.outcome)
  {
    assert (s.work.steps + [a.step])[..|s.work.steps|] == s.work.steps;
  }

  lemma CallSucceeded(cfg: Config, req: Request, s: Seen, c: Ctx, acc: Account, cred: Credential, l: R.Loop, a: Act)
    requires Executing(cfg, req, s, c) && CallTells(cfg, s.work, acc, cred, l) && NextCalling(cfg, c, acc, cred, l, a).Some?
    requires Over(NextCalling(cfg, c, acc, cred, l, a).value)
    ensures SuccessCaused(Watch(s, a), NextCalling(cfg, c, acc, cred, l, a).value.outcome)
  {
    assert (s.work.steps + [a.step])[..|s.work.steps|] == s.work.steps;
  }

  // Once a call has been made, nothing that comes before it is due any more.
  lemma CallPrecludes(cfg: Config, req: Request, s: Seen, c: Ctx, acc: Account, cred: Credential, l: R.Loop, step: R.Act)
    requires Executing(cfg, req, s, c) && CallTells(cfg, s.work, acc, cred, l)
    ensures
      var t := s.(work := s.work.(steps := s.work.steps + [step]));
      && t != NOTHING && !FastDue(cfg, req, t) && !FindDue(cfg, req, t) && !ClockDue(t)
      && !RateDue(cfg, t) && !GetDue(cfg, req, t) && !ReserveDue(cfg, req, t) && !LoadDue(cfg, req, t)
      && !DecryptDue(t) && !HitDue(cfg, t) && !RowDue(cfg, t)
  {
  }

  // A call that ends the invocation leaves no call to make, and no rejected token worth a refresh.
  lemma CallIsLast(cfg: Config, req: Request, s: Seen, c: Ctx, acc: Account, cred: Credential, l: R.Loop, a: Act)
    requires Executing(cfg, req, s, c) && CallTells(cfg, s.work, acc, cred, l) && NextCalling(cfg, c, acc, cred, l, a).Some?
    requires Over(NextCalling(cfg, c, acc, cred, l, a).value)
    ensures !CallDue(cfg, Watch(s, a)) && !RefreshDue(Watch(s, a))
  {
    assert Watch(s, a).work.steps[..|s.work.steps|] == s.work.steps;
  }

  lemma CallStops(cfg: Config, req: Request, s: Seen, c: Ctx, acc: Account, cred: Credential, l: R.Loop, a: Act)
    requires Executing(cfg, req, s, c) && CallTells(cfg, s.work, acc, cred, l) && NextCalling(cfg, c, acc, cred, l, a).Some?
    requires Over(NextCalling(cfg, c, acc, cred, l, a).value)
    ensures NothingDue(cfg, req, Watch(s, a))
  {
    CallIsLast(cfg, req, s, c, acc, cred, l, a);
    CallPrecludes(cfg, req, s, c, acc, cred, l, a.step);
  }

  lemma CallEnds(cfg: Config, req: Request, s: Seen, c: Ctx, acc: Account, cred: Credential, l: R.Loop, a: Act)
    requires Executing(cfg, req, s, c) && CallTells(cfg, s.work, acc, cred, l) && NextCalling(cfg, c, acc, cred, l, a).Some?
    requires Over(NextCalling(cfg, c, acc, cred, l, a).value)
    ensures Tells(cfg, req, Watch(s, a), NextCalling(cfg, c, acc, cred, l, a).value)
  {
    CallDenied(cfg, req, s, c, acc, cred, l, a);
    CallFailed(cfg, req, s, c, acc, cred, l, a);
    CallAnswered(cfg, req, s, c, acc, cred, l, a);
    CallSucceeded(cfg, req, s, c, acc, cred, l, a);
    CallStops(cfg, req, s, c, acc, cred, l, a);
  }

  lemma CallIsDue(cfg: Config, req: Request, s: Seen, c: Ctx, acc: Account, cred: Credential, l: R.Loop, a: Act)
    requires Executing(cfg, req, s, c) && CallTells(cfg, s.work, acc, cred, l)
    ensures NextCalling(cfg, c, acc, cred, l, a).Some? <==> Due(cfg, req, s, a)
  {
    if a.Provide? {
      assert (s.work.steps + [a.step])[..|s.work.steps|] == s.work.steps;
    }
  }

  // The settlement observes nothing that an outcome depends on.
  lemma CloseTold(cfg: Config, req: Request, s: Seen, f: Found, stage: CloseStage, o: Outcome, a: Act)
    requires NextClosing(req, f, stage, o, a).Some?
    ensures Watch(s, a) == s && Over(NextClosing(req, f, stage, o, a).value) && NextClosing(req, f, stage, o, a).value.outcome == o
  {
  }

  lemma StepTold(cfg: Config, req: Request, s: Seen, p: Phase, a: Act)
    requires Tells(cfg, req, s, p) && Next(cfg, req, p, a).Some?
    ensures Tells(cfg, req, Watch(s, a), Next(cfg, req, p, a).value)
  {
    var over := Over(Next(cfg, req, p, a).value);
    match p
    case Gate(g) => if over { GateEnds(cfg, req, s, g, a); } else { GateGoesOn(cfg, req, s, g, a); }
    case Prep(c, stage) => if over { PrepEnds(cfg, req, s, c, stage, a); } else { PrepGoesOn(cfg, req, s, c, stage, a); }
    case Calling(c, acc, cred, l) => if over { CallEnds(cfg, req, s, c, acc, cred, l, a); } else { CallGoesOn(cfg, req, s, c, acc, cred, l, a); }
    case Closing(f, stage, o) => CloseTold(cfg, req, s, f, stage, o, a);
    case Ended(_, _) =>
  }

  /** In every state of a path its observations are those of its phase. */
  lemma {:induction false} AlwaysTold(cfg: Config, req: Request, acts: seq<Act>)
    requires PhaseAfter(cfg, req, acts).Some?
    ensures Tells(cfg, req, SeenIn(acts), PhaseAfter(cfg, req, acts).value)
  {
    if acts != [] {
      var prior := acts[..|acts| - 1];
      AlwaysTold(cfg, req, prior);
      StepTold(cfg, req, SeenIn(prior), PhaseAfter(cfg, req, prior).value, acts[|acts| - 1]);
    }
  }

  // An act of the settlement: the reservation and the audit row.
  predicate Settles(a: Act) {
    a.Compare? || a.Write? || a.Audit?
  }

  /**
   What follows is decided by what was observed: an act, other than those of the settlement, may
   come next if and only if it is due.  So a check is made exactly when all before it have passed,
   and an invocation whose checks have all passed goes on to load its account.
   */
  lemma ActIffDue(cfg: Config, req: Request, acts: seq<Act>, a: Act)
    requires PhaseAfter(cfg, req, acts).Some? && !Settles(a)
    ensures PhaseAfter(cfg, req, acts + [a]).Some? <==> Due(cfg, req, SeenIn(acts), a)
  {
    AlwaysTold(cfg, req, acts);
    assert (acts + [a])[..|acts|] == acts;
    var s := SeenIn(acts);
    match PhaseAfter(cfg, req, acts).value
    case Gate(g) => GateDue(cfg, req, s, g, a);
    case Prep(c, stage) => PrepDue(cfg, req, s, c, stage, a);
    case Calling(c, acc, cred, l) => CallIsDue(cfg, req, s, c, acc, cred, l, a);
    case Closing(f, stage, o) =>
    case Ended(_, _) =>
  }

  /** Each outcome has its causes: an invocation ends with it if and only if one of them was observed. */
  lemma EndExplained(cfg: Config, req: Request, acts: seq<Act>, o: Outcome, audited: bool)
    requires PhaseAfter(cfg, req, acts) == Some(Ended(o, audited))
    ensures Caused(cfg, req, SeenIn(acts), o)
    ensures Passed(cfg, req, SeenIn(acts).entry) ==> SeenIn(acts).work.account.Some? || SeenIn(acts).crashed
  {
    AlwaysTold(cfg, req, acts);
  }

  // ---- What is left of the reservation ----

  // Whether the reservation was still the invocation's own when it compared.
  function OwnedIn(acts: seq<Act>): Option<bool> {
    if acts == [] then None
    else if acts[|acts| - 1].Compare? then Some(acts[|acts| - 1].owns)
    else OwnedIn(acts[..|acts| - 1])
  }

  // What was written in its place, if anything: a result, or nothing at all.
  function WrittenIn(acts: seq<Act>): Option<Option<string>> {
    if acts == [] then None
    else if acts[|acts| - 1].Write? then Some(acts[|acts| - 1].stored)
    else WrittenIn(acts[..|acts| - 1])
  }

  // What takes the place of a reservation: the result of a success, and nothing after any other end.
  ghost predicate Replaces(stored: Option<string>, o: Outcome) {
    (stored.Some? <==> o.Success?) && (stored.Some? ==> stored.value == o.result)
  }

  ghost predicate WritesRight(acts: seq<Act>, p: Phase) {
    match p
    case Closing(_, Settling(_), _) => OwnedIn(acts).None? && WrittenIn(acts).None?
    case Closing(_, Writing(_), _) => OwnedIn(acts) == Some(true) && WrittenIn(acts).None?
    case Closing(_, Auditing, o) => WrittenFor(acts, o)
    case Ended(o, _) => WrittenFor(acts, o)
    case _ => OwnedIn(acts).None? && WrittenIn(acts).None?
  }

  ghost predicate WrittenFor(acts: seq<Act>, o: Outcome) {
    (WrittenIn(acts).Some? <==> OwnedIn(acts) == Some(true)) && (WrittenIn(acts).Some? ==> Replaces(WrittenIn(acts).value, o))
  }

  lemma WritesStep(cfg: Config, req: Request, acts: seq<Act>, p: Phase)
    requires acts != [] && WritesRight(acts[..|acts| - 1], p) && Next(cfg, req, p, acts[|acts| - 1]).Some?
    ensures WritesRight(acts, Next(cfg, req, p, acts[|acts| - 1]).value)
  {
  }

  lemma {:induction false} AlwaysWritesRight(cfg: Config, req: Request, acts: seq<Act>)
    requires PhaseAfter(cfg, req, acts).Some?
    ensures WritesRight(acts, PhaseAfter(cfg, req, acts).value)
  {
    if acts != [] {
      AlwaysWritesRight(cfg, req, acts[..|acts| - 1]);
      WritesStep(cfg, req, acts, PhaseAfter(cfg, req, acts[..|acts| - 1]).value);
    }
  }

  /** An invocation writes under its key if and only if the reservation was still its own: the result if it succeeded, a deletion if it did not. */
  lemma OwnReservationIsReplaced(cfg: Config, req: Request, acts: seq<Act>, o: Outcome, audited: bool)
    requires PhaseAfter(cfg, req, acts) == Some(Ended(o, audited))
    ensures WrittenIn(acts).Some? <==> OwnedIn(acts) == Some(true)
    ensures WrittenIn(acts).Some? ==> Replaces(WrittenIn(acts).value, o)
  {
    AlwaysWritesRight(cfg, req, acts);
  }
}
