/**
 Any number of invocations over the grant tables.

 A run interleaves the steps of `GrantRuns` with the acts of invocations; an act happens only if
 the automaton of its invocation takes it and if what it observes is what the stores show.
 */
module InvokeRuns {
  import opened Common
  import opened InvokePath
  import opened InvokeView
  import E = Envelope
  import F = Refresh
  import GrantToken
  import G = Grants
  import I = Idempotency
  import L = RateLimiter
  import B = CircuitBreaker
  import R = Retry
  import Redis
  import W = GrantRuns

  // The settings of one deployment.
  datatype Site = Site(st: G.Settings, cfg: Config, invokesPerMinute: int, window: int,
                       aead: E.Aead, codec: E.Codec, manager: E.KeyManager)

  function DeskOf(site: Site): Desk {
    Desk(site.st.signer, site.st.issuer, site.invokesPerMinute, site.window, site.aead, site.codec, site.manager)
  }

  // `times` are the clock readings at the acts.
  datatype Invocation = Invocation(req: Request, acts: seq<Act>, phase: Phase, times: seq<real>)

  datatype AuditEntry = AuditEntry(invocation: nat, grant: string, status: Status)

  // A result written under an idempotency key.
  datatype Completion = Completion(invocation: nat, key: string, result: string, at: real)

  // `creds` are the stored credentials of the accounts, `calls` what each provider's breaker has received.
  datatype State = State(world: W.State, creds: map<string, F.Cred>, invs: map<nat, Invocation>, audit: seq<AuditEntry>,
                         owners: set<string>, completions: seq<Completion>, calls: map<string, seq<B.Call>>)

  function StoresOf(s: State): Stores {
    Stores(s.world.now, s.world.space, s.world.tables.grants, s.world.tables.accounts, s.creds)
  }

  // `Deposit` is any other write of a credential: a sign-in, or the flush of a torn refresh.
  datatype Event = World(event: W.Event) | Deposit(id: string, cred: F.Cred) | Begin(i: nat, req: Request) | Do(i: nat, act: Act)

  predicate At(s: State, i: nat) {
    i in s.invs
  }

  // Owner tokens are drawn from a source that never repeats itself.
  predicate FreshOwner(s: State, a: Act) {
    a.ReserveKey? && a.held.Some? ==> a.held.value !in s.owners
  }

  function ProviderOf(site: Site, req: Request): string {
    if req.tool in site.cfg.tools then site.cfg.tools[req.tool].provider else ""
  }

  function CallsTo(s: State, provider: string): seq<B.Call> {
    if provider in s.calls then s.calls[provider] else []
  }

  // What a step of an outbound phase is to the breaker.
  function BreakerCall(step: R.Act, now: real): Option<B.Call> {
    match step
    case Asked(_) => Some(B.Ask(now))
    case Answered(Replied(_)) => Some(B.Succeed(now))
    case Answered(Failed(failure)) => if R.Retryable(failure) then Some(B.Fail(now, now)) else None
    case Slept(_) => None
  }

  // The breaker hears of each step what the loop's own record of it is.
  lemma BreakerHears(step: R.Act, now: real)
    ensures R.KindsOf(step) == if BreakerCall(step, now).Some? then R.KindOf(BreakerCall(step, now).value) else []
    ensures BreakerCall(step, now).Some? ==> BreakerCall(step, now).value.at == now
  {
  }

  // The provider's breaker grants a call or refuses it.
  predicate BreakerSays(site: Site, s: State, req: Request, a: Act) {
    a.Provide? && a.step.Asked? ==>
      a.step.granted == B.Grants(site.cfg.breaker, B.Play(site.cfg.breaker, CallsTo(s, ProviderOf(site, req))), s.world.now)
  }

  function CallsAfter(site: Site, s: State, req: Request, a: Act): map<string, seq<B.Call>> {
    if a.Provide? && BreakerCall(a.step, s.world.now).Some?
    then s.calls[ProviderOf(site, req) := CallsTo(s, ProviderOf(site, req)) + [BreakerCall(a.step, s.world.now).value]]
    else s.calls
  }

  ghost predicate DoEnabled(site: Site, s: State, i: nat, a: Act) {
    && At(s, i) && FreshOwner(s, a)
    && Truthful(DeskOf(site), s.invs[i].req, a, StoresOf(s))
    && BreakerSays(site, s, s.invs[i].req, a)
    && (a.CheckRate? ==> a.read <= s.world.now)
    && Next(site.cfg, s.invs[i].req, s.invs[i].phase, a).Some?
  }

  ghost predicate Enabled(site: Site, s: State, e: Event) {
    match e
    case World(event) => W.Enabled(site.st, s.world, event)
    case Deposit(_, _) => true
    case Begin(i, _) => !At(s, i)
    case Do(i, a) => DoEnabled(site, s, i, a)
  }

  // An invocation one act further.
  function Acted(site: Site, v: Invocation, a: Act, now: real): Invocation
    requires Next(site.cfg, v.req, v.phase, a).Some?
  {
    Invocation(v.req, v.acts + [a], Next(site.cfg, v.req, v.phase, a).value, v.times + [now])
  }

  ghost function Step(site: Site, s: State, e: Event): State
    requires Enabled(site, s, e)
  {
    match e
    case World(event) => s.(world := W.Step(site.st, s.world, event))
    case Deposit(id, cred) => s.(creds := s.creds[id := cred])
    case Begin(i, req) => s.(invs := s.invs[i := Invocation(req, [], Gate(Start), [])])
    case Do(i, a) =>
      State(s.world.(space := Applied(DeskOf(site), a, StoresOf(s))),
            AppliedCreds(DeskOf(site), a, StoresOf(s)),
            s.invs[i := Acted(site, s.invs[i], a, s.world.now)],
            if a.Audit? then s.audit + [AuditEntry(i, a.grant, a.status)] else s.audit,
            if a.ReserveKey? && a.held.Some? then s.owners + {a.held.value} else s.owners,
            if a.Write? && a.stored.Some? then s.completions + [Completion(i, a.key, a.stored.value, s.world.now)] else s.completions,
            CallsAfter(site, s, s.invs[i].req, a))
  }

  ghost predicate Initial(s: State) {
    W.Initial(s.world) && s.invs == map[] && s.audit == [] && s.owners == {} && s.completions == [] && s.calls == map[] && forall n :: n in s.world.space ==> !n.IdemName?
  }

  ghost predicate Run(site: Site, ss: seq<State>, es: seq<Event>) {
    && |ss| == |es| + 1
    && Initial(ss[0])
    && forall k :: 0 <= k < |es| ==> Enabled(site, ss[k], es[k]) && ss[k + 1] == Step(site, ss[k], es[k])
  }

  // ---- Each run is a run of the grant tables ----

  // What the grant tables see of an event: an act is a write by another component, or nothing.
  ghost function Seen(site: Site, s: State, e: Event): W.Event
    requires Enabled(site, s, e)
  {
    match e
    case World(event) => event
    case Deposit(_, _) => W.Tick(0.0)
    case Begin(_, _) => W.Tick(0.0)
    case Do(_, a) => W.Foreign(Applied(DeskOf(site), a, StoresOf(s)))
  }

  // A check of the rate changes its own counter and nothing else.
  lemma CountTouchesOne(s: Stores, agent: string, read: real, n: Redis.Name)
    requires n != Redis.CounterName("invoke:" + agent, L.WindowOf(read, 60))
    ensures n in Counted(s, agent, read) <==> n in s.space
    ensures n in s.space ==> Counted(s, agent, read)[n] == s.space[n]
  {
    var subject, index := "invoke:" + agent, L.WindowOf(read, 60);
    var hit, bound := L.Hit(read, s.now), L.Bound(s.now, index);
    assert [hit][..0] == [] && [hit, bound][..1] == [hit];
    assert L.Run(s.space, subject, 60, [hit]) == L.After(s.space, subject, 60, hit);
    assert L.Run(s.space, subject, 60, [hit, bound]) == L.After(L.After(s.space, subject, 60, hit), subject, 60, bound);
  }

  lemma CountKeepsMarkers(s: Stores, agent: string, read: real)
    ensures W.SameMarkers(s.space, Counted(s, agent, read))
  {
    forall n: Redis.Name | n.RevokedName?
      ensures (n in Counted(s, agent, read) <==> n in s.space) && (n in s.space ==> Counted(s, agent, read)[n] == s.space[n])
    {
      CountTouchesOne(s, agent, read, n);
    }
  }

  lemma ActsKeepMarkers(d: Desk, a: Act, s: Stores)
    ensures W.SameMarkers(s.space, Applied(d, a, s))
  {
    if a.CheckRate? {
      CountKeepsMarkers(s, a.agent, a.read);
    }
  }

  lemma StepProjects(site: Site, s: State, e: Event)
    requires Enabled(site, s, e)
    ensures W.Enabled(site.st, s.world, Seen(site, s, e))
    ensures Step(site, s, e).world == W.Step(site.st, s.world, Seen(site, s, e))
  {
    if e.Do? {
      ActsKeepMarkers(DeskOf(site), e.act, StoresOf(s));
    }
  }

  ghost function Worlds(ss: seq<State>): (ws: seq<W.State>)
    ensures |ws| == |ss| && forall k :: 0 <= k < |ss| ==> ws[k] == ss[k].world
  {
    seq(|ss|, k requires 0 <= k < |ss| => ss[k].world)
  }

  ghost function SeenIn(site: Site, ss: seq<State>, es: seq<Event>): (ws: seq<W.Event>)
    requires Run(site, ss, es)
    ensures |ws| == |es| && forall k :: 0 <= k < |es| ==> ws[k] == Seen(site, ss[k], es[k])
  {
    seq(|es|, k requires 0 <= k < |es| => Seen(site, ss[k], es[k]))
  }

  /** What the grant tables see of a run is a run of theirs, so everything proved of those holds under any invocations. */
  lemma RunProjects(site: Site, ss: seq<State>, es: seq<Event>)
    requires Run(site, ss, es)
    ensures W.Run(site.st, Worlds(ss), SeenIn(site, ss, es))
  {
    forall k | 0 <= k < |es|
      ensures W.Enabled(site.st, Worlds(ss)[k], SeenIn(site, ss, es)[k]) && Worlds(ss)[k + 1] == W.Step(site.st, Worlds(ss)[k], SeenIn(site, ss, es)[k])
    {
      StepProjects(site, ss[k], es[k]);
    }
  }

  lemma WorldGrows(site: Site, ss: seq<State>, es: seq<Event>, k: nat, m: nat)
    requires Run(site, ss, es) && k <= m < |ss|
    ensures W.Grows(ss[k].world, ss[m].world)
  {
    RunProjects(site, ss, es);
    W.RunGrows(site.st, Worlds(ss), SeenIn(site, ss, es), k, m);
  }

  lemma WorldTraced(site: Site, ss: seq<State>, es: seq<Event>, k: nat)
    requires Run(site, ss, es) && k < |ss|
    ensures W.Traced(site.st, ss[k].world)
  {
    RunProjects(site, ss, es);
    W.AlwaysTraced(site.st, Worlds(ss), SeenIn(site, ss, es), k);
  }

  // ---- Each invocation is a path ----

  lemma StepOthers(site: Site, s: State, e: Event, i: nat)
    requires Enabled(site, s, e) && At(s, i)
    ensures At(Step(site, s, e), i)
    ensures !(e.Do? && e.i == i) ==> Step(site, s, e).invs[i] == s.invs[i]
    ensures e.Do? && e.i == i ==> Step(site, s, e).invs[i] == Acted(site, s.invs[i], e.act, s.world.now)
  {
  }

  lemma StepNewcomer(site: Site, s: State, e: Event, i: nat)
    requires Enabled(site, s, e) && !At(s, i) && At(Step(site, s, e), i)
    ensures e.Begin? && e.i == i && Step(site, s, e).invs[i] == Invocation(e.req, [], Gate(Start), [])
  {
  }

  /** Every invocation of every run follows the automaton, so every theorem about its paths holds of it. */
  lemma {:induction false} EachIsAPath(site: Site, ss: seq<State>, es: seq<Event>, k: nat, i: nat)
    requires Run(site, ss, es) && k < |ss| && At(ss[k], i)
    ensures PhaseAfter(site.cfg, ss[k].invs[i].req, ss[k].invs[i].acts) == Some(ss[k].invs[i].phase)
  {
    if k > 0 {
      if At(ss[k - 1], i) {
        EachIsAPath(site, ss, es, k - 1, i);
        StepOthers(site, ss[k - 1], es[k - 1], i);
        var acts := ss[k].invs[i].acts;
        if es[k - 1].Do? && es[k - 1].i == i {
          assert acts[..|acts| - 1] == ss[k - 1].invs[i].acts;
        }
      } else {
        StepNewcomer(site, ss[k - 1], es[k - 1], i);
      }
    }
  }

  // ---- The checks a path has passed ----

  // The clock reading of the expiry check: the first one of the path.
  function ExpiryRead(acts: seq<Act>): Option<real> {
    if acts == [] then None
    else
      var earlier := ExpiryRead(acts[..|acts| - 1]);
      if earlier.None? && acts[|acts| - 1].ReadClock? then Some(acts[|acts| - 1].now) else earlier
  }

  // The rate limit's last word.
  function RateAllowed(acts: seq<Act>): bool {
    acts != [] && if acts[|acts| - 1].CheckRate? then acts[|acts| - 1].allowed else RateAllowed(acts[..|acts| - 1])
  }

  ghost predicate Screened(cfg: Config, req: Request, acts: seq<Act>, p: Phase) {
    var inTime := ExpiryRead(acts).Some? && FoundOf(p).Some? && ExpiryRead(acts).value < FoundOf(p).value.row.expiresAt && FoundOf(p).value.row.revokedAt.None?;
    var inScope := req.tool in cfg.tools && FoundOf(p).Some? && FoundOf(p).value.row.scope == cfg.tools[req.tool].scope;
    var inRate := cfg.hasLimiter ==> RateAllowed(acts);
    var reserved := req.key.Some? && cfg.hasStore ==> HoldOf(p).Some?;
    match p
    case Gate(Resolved(f)) => ExpiryRead(acts).None? && f.row.revokedAt.None?
    case Gate(Timely(_)) => inTime
    case Gate(Admitted(_)) => inTime && inScope && inRate
    case Gate(Missed(_)) => inTime && inScope && inRate
    case Gate(_) => ExpiryRead(acts).None?
    case Prep(_, _) => inTime && inScope && inRate && reserved
    case Calling(_, _, _, _) => inTime && inScope && inRate && reserved
    case _ => true
  }

  lemma ScreenedGate(cfg: Config, req: Request, acts: seq<Act>, g: GateStage, a: Act)
    requires NextGate(cfg, req, g, a).Some? && acts != [] && acts[|acts| - 1] == a && Screened(cfg, req, acts[..|acts| - 1], Gate(g))
    ensures Screened(cfg, req, acts, NextGate(cfg, req, g, a).value)
  {
  }

  lemma ScreenedPrep(cfg: Config, req: Request, acts: seq<Act>, c: Ctx, s: PrepStage, a: Act)
    requires NextPrep(cfg, c, s, a).Some? && acts != [] && acts[|acts| - 1] == a && Screened(cfg, req, acts[..|acts| - 1], Prep(c, s))
    ensures Screened(cfg, req, acts, NextPrep(cfg, c, s, a).value)
  {
  }

  lemma ScreenedCalling(cfg: Config, req: Request, acts: seq<Act>, c: Ctx, acc: Account, cred: Credential, l: R.Loop, a: Act)
    requires NextCalling(cfg, c, acc, cred, l, a).Some? && acts != [] && acts[|acts| - 1] == a
    requires Screened(cfg, req, acts[..|acts| - 1], Calling(c, acc, cred, l))
    ensures Screened(cfg, req, acts, NextCalling(cfg, c, acc, cred, l, a).value)
  {
  }

  /**
   Past the gate a path has read a clock before its grant's expiry, found the row unrevoked and
   its scope the tool's, been allowed by the rate limit, and holds a reservation if it needs one.
   */
  lemma {:induction false} AlwaysScreened(cfg: Config, req: Request, acts: seq<Act>)
    requires PhaseAfter(cfg, req, acts).Some?
    ensures Screened(cfg, req, acts, PhaseAfter(cfg, req, acts).value)
  {
    if acts != [] {
      var prior := acts[..|acts| - 1];
      AlwaysScreened(cfg, req, prior);
      var p, a := PhaseAfter(cfg, req, prior).value, acts[|acts| - 1];
      match p
      case Gate(g) => ScreenedGate(cfg, req, acts, g, a);
      case Prep(c, s) => ScreenedPrep(cfg, req, acts, c, s, a);
      case Calling(c, acc, cred, l) => ScreenedCalling(cfg, req, acts, c, acc, cred, l, a);
      case _ =>
    }
  }

  // ---- What an invocation knows of the tables stays true ----

  ghost predicate RowKnown(w: W.State, hash: string, f: Found) {
    && f.id in w.tables.grants && w.tables.grants[f.id].hash == hash
    && w.tables.grants[f.id].(revokedAt := f.row.revokedAt) == f.row
  }

  ghost predicate SomeRevoked(w: W.State, hash: string) {
    exists id :: W.RevokedRow(w, id, hash)
  }

  ghost predicate Linked(site: Site, w: W.State, v: Invocation) {
    var hash := site.st.signer.hash(v.req.token);
    && (FoundOf(v.phase).Some? ==> RowKnown(w, hash, FoundOf(v.phase).value))
    && (v.phase.Gate? && v.phase.gate.Checked? && v.phase.gate.fast ==> SomeRevoked(w, hash))
  }

  lemma LinkedLater(site: Site, w: W.State, later: W.State, v: Invocation)
    requires Linked(site, w, v) && W.Grows(w, later)
    ensures Linked(site, later, v)
  {
    var hash := site.st.signer.hash(v.req.token);
    if SomeRevoked(w, hash) {
      var id :| W.RevokedRow(w, id, hash);
      W.RevokedRowStays(w, later, id, hash);
    }
  }

  lemma FoundComesFromRow(cfg: Config, req: Request, p: Phase, a: Act)
    requires Next(cfg, req, p, a).Some?
    ensures
      var q := Next(cfg, req, p, a).value;
      FoundOf(q).Some? ==> FoundOf(q) == FoundOf(p) || (a.ReadRow? && a.row == FoundOf(q))
  {
  }

  lemma FastComesFromMarker(cfg: Config, req: Request, p: Phase, a: Act)
    requires Next(cfg, req, p, a).Some?
    ensures
      var q := Next(cfg, req, p, a).value;
      q.Gate? && q.gate.Checked? && q.gate.fast ==> a == ReadMarker(true)
  {
  }

  lemma LinkedAct(site: Site, s: State, v: Invocation, a: Act)
    requires Linked(site, s.world, v) && Truthful(DeskOf(site), v.req, a, StoresOf(s)) && Next(site.cfg, v.req, v.phase, a).Some?
    requires W.MarkerTrue(s.world, site.st.signer.hash(v.req.token))
    ensures Linked(site, s.world, Acted(site, v, a, s.world.now))
  {
    FoundComesFromRow(site.cfg, v.req, v.phase, a);
    FastComesFromMarker(site.cfg, v.req, v.phase, a);
  }

  lemma LinkedStep(site: Site, s: State, e: Event, i: nat)
    requires Enabled(site, s, e) && At(s, i) && Linked(site, s.world, s.invs[i]) && W.Traced(site.st, s.world)
    ensures At(Step(site, s, e), i) && Linked(site, Step(site, s, e).world, Step(site, s, e).invs[i])
  {
    StepOthers(site, s, e, i);
    StepProjects(site, s, e);
    W.StepGrows(site.st, s.world, Seen(site, s, e));
    if e.Do? && e.i == i {
      LinkedAct(site, s, s.invs[i], e.act);
    }
    LinkedLater(site, s.world, Step(site, s, e).world, Step(site, s, e).invs[i]);
  }

  lemma {:induction false} AlwaysLinked(site: Site, ss: seq<State>, es: seq<Event>, k: nat, i: nat)
    requires Run(site, ss, es) && k < |ss| && At(ss[k], i)
    ensures Linked(site, ss[k].world, ss[k].invs[i])
  {
    if k > 0 {
      if At(ss[k - 1], i) {
        AlwaysLinked(site, ss, es, k - 1, i);
        WorldTraced(site, ss, es, k - 1);
        LinkedStep(site, ss[k - 1], es[k - 1], i);
      } else {
        StepNewcomer(site, ss[k - 1], es[k - 1], i);
      }
    }
  }

  // ---- The cache against the table ----

  lemma OneRow(site: Site, w: W.State, hash: string, id: string)
    requires GrantToken.Sound(site.st.signer) && W.Traced(site.st, w) && SomeRevoked(w, hash)
    requires id in w.tables.grants && w.tables.grants[id].hash == hash
    ensures w.tables.grants[id].revokedAt.Some?
  {
    var other :| W.RevokedRow(w, other, hash);
    W.HashNamesOneRow(site.st, w, id, other);
  }

  lemma RowIsReadWhenChecked(cfg: Config, req: Request, p: Phase, a: Act)
    requires Next(cfg, req, p, a).Some? && a.ReadRow?
    ensures p.Gate? && p.gate.Checked?
  {
  }

  /**
   The cache agrees with the table, whatever is flushed or expires: an invocation whose fast
   check hit a marker then reads a row that is revoked, so the verdict `fast or revoked_at` is
   that of the row alone.
   */
  lemma CacheAgreesWithTable(site: Site, ss: seq<State>, es: seq<Event>, k: nat, i: nat, f: Found)
    requires Run(site, ss, es) && GrantToken.Sound(site.st.signer) && k < |es| && es[k] == Do(i, ReadRow(Some(f)))
    ensures ss[k].invs[i].phase.Gate? && ss[k].invs[i].phase.gate.Checked?
    ensures ss[k].invs[i].phase.gate.fast || f.row.revokedAt.Some? <==> f.row.revokedAt.Some?
  {
    assert Enabled(site, ss[k], es[k]);
    RowIsReadWhenChecked(site.cfg, ss[k].invs[i].req, ss[k].invs[i].phase, ReadRow(Some(f)));
    AlwaysLinked(site, ss, es, k, i);
    WorldTraced(site, ss, es, k);
    if ss[k].invs[i].phase.gate.fast {
      OneRow(site, ss[k].world, site.st.signer.hash(ss[k].invs[i].req.token), f.id);
    }
  }

  /** The same for the re-check: a marker hit denies only what the database read that it replaces would have denied. */
  lemma RecheckHitAgreesWithTable(site: Site, ss: seq<State>, es: seq<Event>, k: nat, i: nat)
    requires Run(site, ss, es) && GrantToken.Sound(site.st.signer) && k < |es| && es[k] == Do(i, RecheckMarker(true))
    ensures FoundOf(ss[k].invs[i].phase).Some?
    ensures RevokedNow(ss[k].world.tables.grants, FoundOf(ss[k].invs[i].phase).value.id)
  {
    AlwaysLinked(site, ss, es, k, i);
    WorldTraced(site, ss, es, k);
    var hash := site.st.signer.hash(ss[k].invs[i].req.token);
    assert W.MarkerTrue(ss[k].world, hash);
    OneRow(site, ss[k].world, hash, FoundOf(ss[k].invs[i].phase).value.id);
  }

  // ---- Revocation in mid-flight ----

  predicate FreshSuccess(p: Phase) {
    (p.Closing? || p.Ended?) && p.outcome.Success? && !p.outcome.fromCache
  }

  // A call phase is entered only over a database read that found the grant unrevoked.
  lemma EntryIsChecked(cfg: Config, req: Request, p: Phase, a: Act)
    requires Next(cfg, req, p, a).Some? && !p.Calling?
    ensures !a.Provide?
    ensures Next(cfg, req, p, a).value.Calling? ==> FoundOf(p).Some? && a == RecheckRow(FoundOf(p).value.id, false)
    ensures FreshSuccess(Next(cfg, req, p, a).value) ==> FreshSuccess(p)
  {
  }

  lemma RowOfRevokedIsRevoked(site: Site, w: W.State, v: Invocation)
    requires Linked(site, w, v) && GrantToken.Sound(site.st.signer) && W.Traced(site.st, w)
    requires SomeRevoked(w, site.st.signer.hash(v.req.token))
    ensures FoundOf(v.phase).Some? ==> RevokedNow(w.tables.grants, FoundOf(v.phase).value.id)
  {
    if FoundOf(v.phase).Some? {
      OneRow(site, w, site.st.signer.hash(v.req.token), FoundOf(v.phase).value.id);
    }
  }

  // The invocation has made no provider step between v and u, and cannot be in a call phase.
  ghost predicate Idle(v: Invocation, u: Invocation) {
    u.req == v.req && !u.phase.Calling? && Sends(u.acts) == Sends(v.acts) && (FreshSuccess(u.phase) ==> FreshSuccess(v.phase))
  }

  lemma BarredAct(site: Site, s: State, v: Invocation, a: Act)
    requires Truthful(DeskOf(site), v.req, a, StoresOf(s)) && Next(site.cfg, v.req, v.phase, a).Some?
    requires FoundOf(v.phase).Some? ==> RevokedNow(s.world.tables.grants, FoundOf(v.phase).value.id)
    requires !v.phase.Calling?
    ensures Idle(v, Acted(site, v, a, s.world.now))
  {
    EntryIsChecked(site.cfg, v.req, v.phase, a);
    assert Acted(site, v, a, s.world.now).acts[..|v.acts|] == v.acts;
  }

  lemma BarredStep(site: Site, s: State, e: Event, i: nat)
    requires Enabled(site, s, e) && At(s, i) && !s.invs[i].phase.Calling?
    requires Linked(site, s.world, s.invs[i]) && GrantToken.Sound(site.st.signer) && W.Traced(site.st, s.world)
    requires SomeRevoked(s.world, site.st.signer.hash(s.invs[i].req.token))
    ensures At(Step(site, s, e), i) && Idle(s.invs[i], Step(site, s, e).invs[i])
  {
    StepOthers(site, s, e, i);
    if e.Do? && e.i == i {
      RowOfRevokedIsRevoked(site, s.world, s.invs[i]);
      BarredAct(site, s, s.invs[i], e.act);
    }
  }

  lemma BarredHere(site: Site, ss: seq<State>, es: seq<Event>, k: nat, m: nat, i: nat, token: string)
    requires Run(site, ss, es) && GrantToken.Sound(site.st.signer) && k <= m < |es|
    requires SomeRevoked(ss[k].world, site.st.signer.hash(token))
    requires At(ss[m], i) && ss[m].invs[i].req.token == token && !ss[m].invs[i].phase.Calling?
    ensures At(ss[m + 1], i) && Idle(ss[m].invs[i], ss[m + 1].invs[i])
  {
    AlwaysLinked(site, ss, es, m, i);
    WorldTraced(site, ss, es, m);
    RevokedStays(site, ss, es, k, m, site.st.signer.hash(token));
    BarredStep(site, ss[m], es[m], i);
  }

  /**
   Mid-flight revocation: once the revocation of its grant is committed, an invocation that is
   not in the middle of an outbound phase never enters one again, sends nothing more, and does
   not end as a fresh success unless its result was already in.
   */
  lemma {:induction false} RevocationStopsCalls(site: Site, ss: seq<State>, es: seq<Event>, k: nat, m: nat, i: nat)
    requires Run(site, ss, es) && GrantToken.Sound(site.st.signer) && k <= m < |ss| && At(ss[k], i)
    requires SomeRevoked(ss[k].world, site.st.signer.hash(ss[k].invs[i].req.token)) && !ss[k].invs[i].phase.Calling?
    ensures At(ss[m], i) && Idle(ss[k].invs[i], ss[m].invs[i])
    decreases m
  {
    if k < m {
      RevocationStopsCalls(site, ss, es, k, m - 1, i);
      BarredHere(site, ss, es, k, m - 1, i, ss[k].invs[i].req.token);
    }
  }

  lemma RevokedStays(site: Site, ss: seq<State>, es: seq<Event>, k: nat, m: nat, hash: string)
    requires Run(site, ss, es) && k <= m < |ss| && SomeRevoked(ss[k].world, hash)
    ensures SomeRevoked(ss[m].world, hash)
  {
    WorldGrows(site, ss, es, k, m);
    var id :| W.RevokedRow(ss[k].world, id, hash);
    W.RevokedRowStays(ss[k].world, ss[m].world, id, hash);
  }

  lemma CallingKeepsCredential(cfg: Config, req: Request, p: Phase, a: Act)
    requires Next(cfg, req, p, a).Some? && p.Calling? && Next(cfg, req, p, a).value.Calling?
    ensures Next(cfg, req, p, a).value.cred == p.cred
  {
  }

  // In an outbound phase with this credential, or in none.
  predicate OnlyWith(v: Invocation, cred: Credential) {
    v.phase.Calling? ==> v.phase.cred == cred
  }

  lemma CaughtStep(site: Site, s: State, e: Event, i: nat, cred: Credential)
    requires Enabled(site, s, e) && At(s, i) && OnlyWith(s.invs[i], cred)
    requires Linked(site, s.world, s.invs[i]) && GrantToken.Sound(site.st.signer) && W.Traced(site.st, s.world)
    requires SomeRevoked(s.world, site.st.signer.hash(s.invs[i].req.token))
    ensures At(Step(site, s, e), i) && Step(site, s, e).invs[i].req == s.invs[i].req && OnlyWith(Step(site, s, e).invs[i], cred)
  {
    StepOthers(site, s, e, i);
    if !s.invs[i].phase.Calling? {
      BarredStep(site, s, e, i);
    } else if e.Do? && e.i == i && Step(site, s, e).invs[i].phase.Calling? {
      CallingKeepsCredential(site.cfg, s.invs[i].req, s.invs[i].phase, e.act);
    }
  }

  lemma CaughtHere(site: Site, ss: seq<State>, es: seq<Event>, k: nat, m: nat, i: nat, token: string, cred: Credential)
    requires Run(site, ss, es) && GrantToken.Sound(site.st.signer) && k <= m < |es|
    requires SomeRevoked(ss[k].world, site.st.signer.hash(token))
    requires At(ss[m], i) && ss[m].invs[i].req.token == token && OnlyWith(ss[m].invs[i], cred)
    ensures At(ss[m + 1], i) && ss[m + 1].invs[i].req == ss[m].invs[i].req && OnlyWith(ss[m + 1].invs[i], cred)
  {
    AlwaysLinked(site, ss, es, m, i);
    WorldTraced(site, ss, es, m);
    RevokedStays(site, ss, es, k, m, site.st.signer.hash(token));
    CaughtStep(site, ss[m], es[m], i, cred);
  }

  /** An invocation caught inside an outbound phase may finish that phase, retries included, but starts no other. */
  lemma {:induction false} OnlyThePhaseUnderWay(site: Site, ss: seq<State>, es: seq<Event>, k: nat, m: nat, i: nat)
    requires Run(site, ss, es) && GrantToken.Sound(site.st.signer) && k <= m < |ss| && At(ss[k], i)
    requires SomeRevoked(ss[k].world, site.st.signer.hash(ss[k].invs[i].req.token)) && ss[k].invs[i].phase.Calling?
    ensures At(ss[m], i) && ss[m].invs[i].req == ss[k].invs[i].req && OnlyWith(ss[m].invs[i], ss[k].invs[i].phase.cred)
    decreases m
  {
    if k < m {
      OnlyThePhaseUnderWay(site, ss, es, k, m - 1, i);
      CaughtHere(site, ss, es, k, m - 1, i, ss[k].invs[i].req.token, ss[k].invs[i].phase.cred);
    }
  }

  // ---- The authorisation chain ----

  // The invocation acts under a grant that was issued to its own token, for its own tool, by policy.
  ghost predicate Authorised(site: Site, w: W.State, v: Invocation, id: string) {
    && id in w.tables.grants && id in w.issues &&
    var row, issue := w.tables.grants[id], w.issues[id];
    && v.req.token == issue.token && row.tool == v.req.tool
    && v.req.tool in issue.backing.policy.allowed
    && v.req.tool in site.st.tools && row.scope == site.st.tools[v.req.tool].scope
    && row.account == issue.backing.account && issue.backing.record.user == issue.backing.policy.user
    && issue.backing.record.provider == site.st.tools[v.req.tool].provider
    && ExpiryRead(v.acts).Some? && ExpiryRead(v.acts).value < issue.at + site.st.ttl as real
    && (site.cfg.hasLimiter ==> RateAllowed(v.acts))
  }

  // The token decodes to claims for the tool that is asked for, once it has been verified.
  ghost predicate ForItsTool(site: Site, v: Invocation) {
    v.phase.Ended? || v.phase == Gate(Start) ||
    (site.st.signer.decode(v.req.token).Some? && site.st.signer.decode(v.req.token).value.tool == v.req.tool)
  }

  lemma ForItsToolAct(site: Site, s: State, v: Invocation, a: Act)
    requires ForItsTool(site, v) && Truthful(DeskOf(site), v.req, a, StoresOf(s)) && Next(site.cfg, v.req, v.phase, a).Some?
    ensures ForItsTool(site, Acted(site, v, a, s.world.now))
  {
    if v.phase == Gate(Start) && a.verdict.Ok? {
      assert site.st.signer.decode(v.req.token) == Some(a.verdict.value);
    }
  }

  lemma {:induction false} AlwaysForItsTool(site: Site, ss: seq<State>, es: seq<Event>, k: nat, i: nat)
    requires Run(site, ss, es) && k < |ss| && At(ss[k], i)
    ensures ForItsTool(site, ss[k].invs[i])
  {
    if k > 0 {
      if At(ss[k - 1], i) {
        AlwaysForItsTool(site, ss, es, k - 1, i);
        StepOthers(site, ss[k - 1], es[k - 1], i);
        if es[k - 1].Do? && es[k - 1].i == i {
          ForItsToolAct(site, ss[k - 1], ss[k - 1].invs[i], es[k - 1].act);
        }
      } else {
        StepNewcomer(site, ss[k - 1], es[k - 1], i);
      }
    }
  }

  lemma GrantOfToken(site: Site, w: W.State, id: string, token: string)
    requires GrantToken.Sound(site.st.signer) && W.Traced(site.st, w)
    requires id in w.tables.grants && w.tables.grants[id].hash == site.st.signer.hash(token)
    ensures id in w.issues && w.issues[id].token == token
    ensures site.st.signer.decode(token).Some? && site.st.signer.decode(token).value.tool == w.tables.grants[id].tool
  {
    assert W.RowTraced(site.st, w, id);
    var row, at := w.tables.grants[id], w.issues[id].at;
    var claims := GrantToken.Claims(site.st.issuer, row.agent, id, row.tool, row.scope, Truncate(at), Truncate(at + site.st.ttl as real));
    assert site.st.signer.decode(site.st.signer.encode(claims)) == Some(claims);
  }

  lemma KnownRowIsAuthorised(site: Site, w: W.State, v: Invocation)
    requires GrantToken.Sound(site.st.signer) && W.Traced(site.st, w) && site.cfg.tools == site.st.tools
    requires Linked(site, w, v) && ForItsTool(site, v) && Screened(site.cfg, v.req, v.acts, v.phase) && v.phase.Calling?
    ensures Authorised(site, w, v, v.phase.ctx.found.id)
  {
    var id := v.phase.ctx.found.id;
    GrantOfToken(site, w, id, v.req.token);
    assert W.RowTraced(site.st, w, id);
  }

  lemma ProvideIsInCalling(cfg: Config, req: Request, p: Phase, a: Act)
    requires Next(cfg, req, p, a).Some? && a.Provide?
    ensures p.Calling? && p.cred.token == a.token
  {
  }

  // ---- Where the token in use comes from ----

  function AccountOf(p: Phase): Option<Account> {
    match p
    case Prep(_, Loading) => None
    case Prep(_, prep) => Some(prep.account)
    case Calling(_, account, _, _) => Some(account)
    case _ => None
  }

  function CredOf(p: Phase): Option<Credential> {
    match p
    case Prep(_, Rechecking(_, cred)) => Some(cred)
    case Prep(_, Confirming(_, cred)) => Some(cred)
    case Calling(_, _, cred, _) => Some(cred)
    case _ => None
  }

  lemma AccountComesFromLoad(cfg: Config, req: Request, p: Phase, a: Act)
    requires Next(cfg, req, p, a).Some?
    ensures
      var q := Next(cfg, req, p, a).value;
      AccountOf(q).Some? ==>
        FoundOf(p).Some? && FoundOf(q) == FoundOf(p)
        && (AccountOf(q) == AccountOf(p) || a == LoadAccount(FoundOf(p).value.row.account, AccountOf(q)))
  {
  }

  ghost predicate LoadedAt(ss: seq<State>, es: seq<Event>, x: nat, i: nat, id: string, acc: Account)
    requires |ss| == |es| + 1
  {
    x < |es| && es[x] == Do(i, LoadAccount(id, Some(acc))) && HasAccount(StoresOf(ss[x]), id)
    && acc == Account(ss[x].world.tables.accounts[id].provider, ss[x].creds[id])
  }

  // An account in use was in use before, or was loaded just now.
  lemma AccountStep(site: Site, s: State, e: Event, i: nat)
    requires Enabled(site, s, e) && At(Step(site, s, e), i) && AccountOf(Step(site, s, e).invs[i].phase).Some?
    ensures
      var q := Step(site, s, e).invs[i].phase;
      && At(s, i) && FoundOf(q).Some? && FoundOf(s.invs[i].phase) == FoundOf(q)
      && (AccountOf(s.invs[i].phase) == AccountOf(q) ||
          var id := FoundOf(q).value.row.account;
          && e == Do(i, LoadAccount(id, AccountOf(q))) && HasAccount(StoresOf(s), id)
          && AccountOf(q).value == Account(s.world.tables.accounts[id].provider, s.creds[id]))
  {
    if !At(s, i) {
      StepNewcomer(site, s, e, i);
    } else {
      StepOthers(site, s, e, i);
      if e.Do? && e.i == i {
        AccountComesFromLoad(site.cfg, s.invs[i].req, s.invs[i].phase, e.act);
      } else {
        AccountHasRow(s.invs[i].phase);
      }
    }
  }

  lemma AccountHasRow(p: Phase)
    requires AccountOf(p).Some?
    ensures FoundOf(p).Some?
  {
  }

  lemma {:induction false} AccountWasStored(site: Site, ss: seq<State>, es: seq<Event>, k: nat, i: nat)
    requires Run(site, ss, es) && k < |ss| && At(ss[k], i) && AccountOf(ss[k].invs[i].phase).Some?
    ensures FoundOf(ss[k].invs[i].phase).Some?
    ensures exists x: nat :: x < k && LoadedAt(ss, es, x, i, FoundOf(ss[k].invs[i].phase).value.row.account, AccountOf(ss[k].invs[i].phase).value)
  {
    if k > 0 {
      AccountStep(site, ss[k - 1], es[k - 1], i);
      if AccountOf(ss[k - 1].invs[i].phase) == AccountOf(ss[k].invs[i].phase) {
        AccountWasStored(site, ss, es, k - 1, i);
      } else {
        assert LoadedAt(ss, es, k - 1, i, FoundOf(ss[k].invs[i].phase).value.row.account, AccountOf(ss[k].invs[i].phase).value);
      }
    }
  }

  lemma CredComesFromAccount(cfg: Config, req: Request, p: Phase, a: Act)
    requires Next(cfg, req, p, a).Some?
    ensures
      var q := Next(cfg, req, p, a).value;
      CredOf(q).Some? ==>
        && AccountOf(p).Some? && AccountOf(q) == AccountOf(p) && FoundOf(p).Some? && FoundOf(q) == FoundOf(p)
        && (CredOf(p) == CredOf(q) || Gives(a, FoundOf(p).value.row.account, AccountOf(p).value, CredOf(q).value))
  {
  }

  // The act by which an invocation comes by its credential: decrypting the stored token, or refreshing the credential as loaded.
  predicate Gives(a: Act, account: string, acc: Account, cred: Credential) {
    if cred.Stored? then a == Decrypt(acc.cred.access, Some(cred.token))
    else a.Refresh? && a.id == account && a.cred == acc.cred && a.end == F.Fresh(cred.token)
  }

  // The act, with what makes it truthful: the token is the decryption of the stored one, or what this very refresh returned.
  predicate Yields(d: Desk, a: Act, account: string, acc: Account, cred: Credential) {
    && Gives(a, account, acc, cred)
    && (a.Decrypt? ==> Opened(d, acc.cred.access) == Some(cred.token))
    && (a.Refresh? ==> acc.cred.refresh.Some? && F.Rotate(d.aead, d.codec, d.manager, acc.cred, a.rotation).0 == F.Fresh(cred.token))
  }

  lemma {:induction false} CredWasObtained(site: Site, ss: seq<State>, es: seq<Event>, k: nat, i: nat) returns (y: nat)
    requires Run(site, ss, es) && k < |ss| && At(ss[k], i) && CredOf(ss[k].invs[i].phase).Some?
    ensures y < k && es[y].Do? && es[y].i == i && At(ss[y], i)
    ensures FoundOf(ss[k].invs[i].phase).Some? && AccountOf(ss[k].invs[i].phase).Some?
    ensures FoundOf(ss[y].invs[i].phase) == FoundOf(ss[k].invs[i].phase) && AccountOf(ss[y].invs[i].phase) == AccountOf(ss[k].invs[i].phase)
    ensures Gives(es[y].act, FoundOf(ss[k].invs[i].phase).value.row.account, AccountOf(ss[k].invs[i].phase).value, CredOf(ss[k].invs[i].phase).value)
  {
    var s, e := ss[k - 1], es[k - 1];
    if !At(s, i) {
      StepNewcomer(site, s, e, i);
    }
    StepOthers(site, s, e, i);
    if e.Do? && e.i == i {
      CredComesFromAccount(site.cfg, s.invs[i].req, s.invs[i].phase, e.act);
    }
    if CredOf(s.invs[i].phase) == CredOf(ss[k].invs[i].phase) {
      y := CredWasObtained(site, ss, es, k - 1, i);
    } else {
      y := k - 1;
    }
  }

  // Some earlier commit issued the grant, while its own agent's row was the policy the issue records.
  ghost predicate GrantedBy(ss: seq<State>, es: seq<Event>, k: nat, id: string)
    requires |ss| == |es| + 1 && k < |ss| && id in ss[k].world.tables.grants && id in ss[k].world.issues
  {
    exists x: nat :: x < k && es[x].World?
      && W.CommittedBy(ss[x].world, es[x].event, id, ss[k].world.tables.grants[id].agent, ss[k].world.issues[id].backing.policy)
  }

  lemma GrantHasCommit(site: Site, ss: seq<State>, es: seq<Event>, k: nat, id: string)
    requires Run(site, ss, es) && k < |ss| && id in ss[k].world.tables.grants
    ensures id in ss[k].world.issues && GrantedBy(ss, es, k, id)
  {
    RunProjects(site, ss, es);
    var x := W.GrantWasIssued(site.st, Worlds(ss), SeenIn(site, ss, es), k, id);
    assert SeenIn(site, ss, es)[x] == Seen(site, ss[x], es[x]);
    assert es[x].World?;
  }

  /**
   The authorisation chain: every provider step of every run traces to one issued grant, for the
   invocation's token and tool.  When the grant was committed, its own agent's row allowed the
   tool; the scope is the tool's, the account belonged to that agent's user with the tool's
   provider, and the expiry check read a clock before issuance plus ttl.  At that step the
   credential in use was obtained before a database read that found this grant unrevoked.
   */
  lemma AuthorisationChain(site: Site, ss: seq<State>, es: seq<Event>, k: nat, i: nat, token: string, step: R.Act)
    requires Run(site, ss, es) && GrantToken.Sound(site.st.signer) && site.cfg.tools == site.st.tools
    requires k < |es| && es[k] == Do(i, Provide(token, step))
    ensures FoundOf(ss[k].invs[i].phase).Some? && Authorised(site, ss[k].world, ss[k].invs[i], FoundOf(ss[k].invs[i].phase).value.id)
    ensures GrantedBy(ss, es, k, FoundOf(ss[k].invs[i].phase).value.id)
    ensures ClearedFor(ss[k].invs[i].acts, FoundOf(ss[k].invs[i].phase).value.id) && TokenIn(ss[k].invs[i].acts) == Some(token)
  {
    var v := ss[k].invs[i];
    assert Enabled(site, ss[k], es[k]);
    ProvideIsInCalling(site.cfg, v.req, v.phase, Provide(token, step));
    AlwaysLinked(site, ss, es, k, i);
    AlwaysForItsTool(site, ss, es, k, i);
    EachIsAPath(site, ss, es, k, i);
    AlwaysScreened(site.cfg, v.req, v.acts);
    AlwaysBooked(site.cfg, v.req, v.acts);
    WorldTraced(site, ss, es, k);
    KnownRowIsAuthorised(site, ss[k].world, v);
    GrantHasCommit(site, ss, es, k, FoundOf(v.phase).value.id);
  }

  // The invocation loaded this account, as it was stored at that moment, and by a later act of its
  // own came by the credential from what it loaded.
  ghost predicate TokenFrom(site: Site, ss: seq<State>, es: seq<Event>, k: nat, i: nat, account: string, record: G.Account, cred: Credential)
    requires |ss| == |es| + 1
  {
    exists x: nat, y: nat, acc ::
      && x < y < k && y < |es| && LoadedAt(ss, es, x, i, account, acc) && acc.provider == record.provider
      && es[y].Do? && es[y].i == i && Yields(DeskOf(site), es[y].act, account, acc, cred)
  }

  // The grant's account is still the one it was issued for: of the agent's user and the tool's provider.
  ghost predicate StillBacked(site: Site, w: W.State, id: string) {
    && id in w.tables.grants && id in w.issues &&
    var row, backing := w.tables.grants[id], w.issues[id].backing;
    && row.account == backing.account && row.account in w.tables.accounts && w.tables.accounts[row.account] == backing.record
    && row.tool in site.st.tools && backing.record.provider == site.st.tools[row.tool].provider
    && backing.record.user == backing.policy.user
  }

  lemma AuthorisedIsBacked(site: Site, ss: seq<State>, es: seq<Event>, k: nat, v: Invocation, id: string)
    requires Run(site, ss, es) && k < |ss| && Authorised(site, ss[k].world, v, id)
    ensures StillBacked(site, ss[k].world, id)
  {
    AccountAsIssued(site, ss, es, k, id);
  }

  lemma TokenSource(site: Site, ss: seq<State>, es: seq<Event>, k: nat, i: nat, id: string)
    requires Run(site, ss, es) && k < |ss| && At(ss[k], i) && StillBacked(site, ss[k].world, id)
    requires ss[k].invs[i].phase.Calling? && ss[k].invs[i].phase.ctx.found.row.account == ss[k].world.tables.grants[id].account
    ensures TokenFrom(site, ss, es, k, i, ss[k].world.tables.grants[id].account, ss[k].world.issues[id].backing.record, ss[k].invs[i].phase.cred)
  {
    var account := ss[k].world.tables.grants[id].account;
    var y := CredWasObtained(site, ss, es, k, i);
    var acc := AccountOf(ss[k].invs[i].phase).value;
    AccountWasStored(site, ss, es, y, i);
    var x: nat :| x < y && LoadedAt(ss, es, x, i, account, acc);
    AccountKept(site, ss, es, x, k, account);
    assert Enabled(site, ss[y], es[y]);
    assert Yields(DeskOf(site), es[y].act, account, acc, ss[k].invs[i].phase.cred);
  }

  /**
   The token sent is the granted account's: the decryption of what was stored for the account the
   grant was issued for when the invocation loaded it, or what this invocation's own refresh of
   that credential returned; and the account still is the one of the agent's user and the tool's
   provider, the agent's row being the policy of the commit that issued the grant.
   */
  lemma TokenIsTheAccounts(site: Site, ss: seq<State>, es: seq<Event>, k: nat, i: nat, token: string, step: R.Act)
    requires Run(site, ss, es) && GrantToken.Sound(site.st.signer) && site.cfg.tools == site.st.tools
    requires k < |es| && es[k] == Do(i, Provide(token, step))
    ensures ss[k].invs[i].phase.Calling? && ss[k].invs[i].phase.cred.token == token
    ensures
      var id := ss[k].invs[i].phase.ctx.found.id;
      && StillBacked(site, ss[k].world, id) && GrantedBy(ss, es, k, id)
      && TokenFrom(site, ss, es, k, i, ss[k].world.tables.grants[id].account, ss[k].world.issues[id].backing.record, ss[k].invs[i].phase.cred)
  {
    assert Enabled(site, ss[k], es[k]);
    ProvideIsInCalling(site.cfg, ss[k].invs[i].req, ss[k].invs[i].phase, Provide(token, step));
    AuthorisationChain(site, ss, es, k, i, token, step);
    var f := ss[k].invs[i].phase.ctx.found;
    AuthorisedIsBacked(site, ss, es, k, ss[k].invs[i], f.id);
    AlwaysLinked(site, ss, es, k, i);
    TokenSource(site, ss, es, k, i, f.id);
  }

  // The account of an issued grant is stored as it was when the grant was issued.
  lemma AccountAsIssued(site: Site, ss: seq<State>, es: seq<Event>, k: nat, id: string)
    requires Run(site, ss, es) && k < |ss| && id in ss[k].world.issues
    ensures
      var backing := ss[k].world.issues[id].backing;
      backing.account in ss[k].world.tables.accounts && ss[k].world.tables.accounts[backing.account] == backing.record
  {
    RunProjects(site, ss, es);
    W.AlwaysBound(site.st, Worlds(ss), SeenIn(site, ss, es), k);
    assert W.StoredBacking(ss[k].world, ss[k].world.issues[id].backing);
  }

  lemma AccountKept(site: Site, ss: seq<State>, es: seq<Event>, x: nat, k: nat, account: string)
    requires Run(site, ss, es) && x <= k < |ss| && account in ss[x].world.tables.accounts
    ensures account in ss[k].world.tables.accounts && ss[k].world.tables.accounts[account] == ss[x].world.tables.accounts[account]
  {
    RunProjects(site, ss, es);
    W.RunKeepsAccounts(site.st, Worlds(ss), SeenIn(site, ss, es), x, k, W.Backing(G.Agent("", {}), account, ss[x].world.tables.accounts[account]));
  }

  /** A refresh that succeeds replaces the stored credential of its account, and of no other, by the renewed one. */
  lemma RefreshIsStored(site: Site, s: State, i: nat, a: Act)
    requires DoEnabled(site, s, i, a) && a.Refresh? && a.end.Fresh?
    ensures
      var t := Step(site, s, Do(i, a));
      && a.id in t.creds && F.Renews(site.aead, site.codec, a.cred, a.rotation, t.creds[a.id])
      && forall id :: id != a.id ==> (id in t.creds <==> id in s.creds) && (id in s.creds ==> t.creds[id] == s.creds[id])
  {
    F.RefreshExplained(site.aead, site.codec, site.manager, a.cred, a.rotation);
  }

  // ---- Audit conservation ----

  predicate Finished(p: Phase) {
    p.Ended? && p.audited
  }

  // A row is that of a finished invocation, with its grant and status.
  ghost predicate RowOk(s: State, n: nat)
    requires n < |s.audit|
  {
    var row := s.audit[n];
    && At(s, row.invocation) && Finished(s.invs[row.invocation].phase)
    && RowIn(s.invs[row.invocation].acts).Some? && row.grant == RowIn(s.invs[row.invocation].acts).value.id
    && Reports(row.status, s.invs[row.invocation].phase.outcome)
  }

  ghost predicate HasRow(s: State, i: nat) {
    exists n :: 0 <= n < |s.audit| && s.audit[n].invocation == i
  }

  ghost predicate Balanced(s: State) {
    && (forall n :: 0 <= n < |s.audit| ==> RowOk(s, n))
    && (forall m, n :: 0 <= m < n < |s.audit| ==> s.audit[m].invocation != s.audit[n].invocation)
    && (forall i :: At(s, i) && Finished(s.invs[i].phase) ==> HasRow(s, i))
  }

  lemma FinishIsAudit(cfg: Config, req: Request, acts: seq<Act>, p: Phase, a: Act)
    requires PhaseAfter(cfg, req, acts) == Some(p) && Next(cfg, req, p, a).Some?
    ensures !p.Ended?
    ensures Finished(Next(cfg, req, p, a).value) <==> a.Audit?
    ensures a.Audit? ==> RowIn(acts + [a]).Some? && a.grant == RowIn(acts + [a]).value.id && Reports(a.status, Next(cfg, req, p, a).value.outcome)
  {
    AlwaysBooked(cfg, req, acts);
    assert (acts + [a])[..|acts|] == acts;
  }

  lemma RowOkStep(site: Site, s: State, e: Event, n: nat)
    requires Enabled(site, s, e) && n < |s.audit| && RowOk(s, n)
    ensures n < |Step(site, s, e).audit| && Step(site, s, e).audit[n] == s.audit[n] && RowOk(Step(site, s, e), n)
  {
    StepOthers(site, s, e, s.audit[n].invocation);
  }

  // The one row an act adds, if it adds one.
  lemma NewRow(site: Site, s: State, e: Event)
    requires Enabled(site, s, e)
    ensures
      var t := Step(site, s, e);
      if e.Do? && e.act.Audit? then t.audit == s.audit + [AuditEntry(e.i, e.act.grant, e.act.status)] else t.audit == s.audit
  {
  }

  lemma HasRowStep(site: Site, s: State, e: Event, i: nat)
    requires Enabled(site, s, e) && HasRow(s, i)
    ensures HasRow(Step(site, s, e), i)
  {
    NewRow(site, s, e);
    var n :| 0 <= n < |s.audit| && s.audit[n].invocation == i;
    assert Step(site, s, e).audit[n] == s.audit[n];
  }

  lemma FinishedHasRow(site: Site, s: State, e: Event, i: nat)
    requires Enabled(site, s, e) && At(Step(site, s, e), i) && Finished(Step(site, s, e).invs[i].phase)
    requires At(s, i) ==> PhaseAfter(site.cfg, s.invs[i].req, s.invs[i].acts) == Some(s.invs[i].phase)
    requires At(s, i) && Finished(s.invs[i].phase) ==> HasRow(s, i)
    ensures HasRow(Step(site, s, e), i)
  {
    var t := Step(site, s, e);
    if !At(s, i) {
      StepNewcomer(site, s, e, i);
    } else if e.Do? && e.i == i {
      StepOthers(site, s, e, i);
      FinishIsAudit(site.cfg, s.invs[i].req, s.invs[i].acts, s.invs[i].phase, e.act);
      NewRow(site, s, e);
      assert t.audit[|s.audit|].invocation == i;
    } else {
      StepOthers(site, s, e, i);
      HasRowStep(site, s, e, i);
    }
  }

  lemma AddedRowOk(site: Site, s: State, e: Event)
    requires Enabled(site, s, e) && e.Do? && e.act.Audit? && Balanced(s)
    requires PhaseAfter(site.cfg, s.invs[e.i].req, s.invs[e.i].acts) == Some(s.invs[e.i].phase)
    ensures |Step(site, s, e).audit| == |s.audit| + 1 && RowOk(Step(site, s, e), |s.audit|)
    ensures forall m :: 0 <= m < |s.audit| ==> s.audit[m].invocation != e.i
  {
    NewRow(site, s, e);
    StepOthers(site, s, e, e.i);
    FinishIsAudit(site.cfg, s.invs[e.i].req, s.invs[e.i].acts, s.invs[e.i].phase, e.act);
    forall m | 0 <= m < |s.audit| ensures s.audit[m].invocation != e.i {
      assert RowOk(s, m);
    }
  }

  lemma BalancedStep(site: Site, s: State, e: Event)
    requires Enabled(site, s, e) && Balanced(s)
    requires forall i :: At(s, i) ==> PhaseAfter(site.cfg, s.invs[i].req, s.invs[i].acts) == Some(s.invs[i].phase)
    ensures Balanced(Step(site, s, e))
  {
    var t := Step(site, s, e);
    NewRow(site, s, e);
    if e.Do? && e.act.Audit? {
      AddedRowOk(site, s, e);
    }
    forall n | 0 <= n < |t.audit| ensures RowOk(t, n) {
      if n < |s.audit| {
        RowOkStep(site, s, e, n);
      }
    }
    forall i | At(t, i) && Finished(t.invs[i].phase) ensures HasRow(t, i) {
      FinishedHasRow(site, s, e, i);
    }
  }

  lemma {:induction false} AlwaysBalanced(site: Site, ss: seq<State>, es: seq<Event>, k: nat)
    requires Run(site, ss, es) && k < |ss|
    ensures Balanced(ss[k])
  {
    if k > 0 {
      AlwaysBalanced(site, ss, es, k - 1);
      var s := ss[k - 1];
      forall i | At(s, i) ensures PhaseAfter(site.cfg, s.invs[i].req, s.invs[i].acts) == Some(s.invs[i].phase) {
        EachIsAPath(site, ss, es, k - 1, i);
      }
      BalancedStep(site, ss[k - 1], es[k - 1]);
    }
  }

  /**
   Audit conservation: in every state the audit rows match one to one, in grant and status, the
   finished invocations that resolved a grant; a finished invocation that resolved none has no row.
   */
  lemma AuditConservation(site: Site, ss: seq<State>, es: seq<Event>, k: nat, i: nat)
    requires Run(site, ss, es) && k < |ss| && At(ss[k], i)
    ensures HasRow(ss[k], i) <==> ss[k].invs[i].phase.Ended? && RowIn(ss[k].invs[i].acts).Some?
    ensures forall m, n :: 0 <= m < n < |ss[k].audit| ==> ss[k].audit[m].invocation != ss[k].audit[n].invocation
    ensures forall n :: 0 <= n < |ss[k].audit| ==> RowOk(ss[k], n)
  {
    AlwaysBalanced(site, ss, es, k);
    EachIsAPath(site, ss, es, k, i);
    AlwaysBooked(site.cfg, ss[k].invs[i].req, ss[k].invs[i].acts);
    if HasRow(ss[k], i) {
      var n :| 0 <= n < |ss[k].audit| && ss[k].audit[n].invocation == i;
      assert RowOk(ss[k], n);
    }
  }

  // ---- No wedged key ----

  // The owner token of a reservation not yet given up or completed.
  function HolderOf(p: Phase): Option<string> {
    match p
    case Closing(_, Writing(owner), _) => Some(owner)
    case _ => HoldOf(p)
  }

  ghost predicate HoldsKey(s: State, i: nat, key: string, owner: string) {
    && At(s, i) && HolderOf(s.invs[i].phase) == Some(owner)
    && FoundOf(s.invs[i].phase).Some? && FullKey(s.invs[i].req, FoundOf(s.invs[i].phase).value) == key
  }

  ghost predicate MarkerHeld(s: State, key: string) {
    var v := Redis.Lookup(s.world.space, s.world.now, Redis.IdemName(key));
    v.Some? && I.IsPending(v.value) ==> exists i, owner :: HoldsKey(s, i, key, owner) && v.value == Redis.Text(I.PendingValue(owner))
  }

  // Other components leave idempotency keys alone.
  ghost predicate KeepsIdem(s: State, e: Event) {
    e.World? && e.event.Foreign? ==> forall key :: Redis.IdemName(key) in e.event.space ==>
      Redis.IdemName(key) in s.world.space && e.event.space[Redis.IdemName(key)] == s.world.space[Redis.IdemName(key)]
  }

  // What an act does to the reservation its invocation holds.
  ghost predicate HoldMoves(req: Request, p: Phase, a: Act, q: Phase) {
    || (HolderOf(q) == HolderOf(p) && (HolderOf(p).Some? ==> FoundOf(p).Some? && FoundOf(q) == FoundOf(p)) && !a.Write? && (a.ReserveKey? ==> a.held.None?))
    || (a.ReserveKey? && a.held.Some? && HolderOf(p).None? && HolderOf(q) == a.held && FoundOf(q).Some? && FullKey(req, FoundOf(q).value) == a.key)
    || (HolderOf(q).None? && FoundOf(p).Some? && (a.Write? || (a.Compare? && !a.owns))
        && HolderOf(p) == Some(a.owner) && a.key == FullKey(req, FoundOf(p).value))
  }

  lemma GateMovesHolds(cfg: Config, req: Request, g: GateStage, a: Act)
    requires NextGate(cfg, req, g, a).Some?
    ensures HoldMoves(req, Gate(g), a, NextGate(cfg, req, g, a).value)
  {
  }

  lemma PrepMovesHolds(cfg: Config, req: Request, c: Ctx, s: PrepStage, a: Act)
    requires NextPrep(cfg, c, s, a).Some?
    ensures HoldMoves(req, Prep(c, s), a, NextPrep(cfg, c, s, a).value)
  {
  }

  lemma CallingMovesHolds(cfg: Config, req: Request, c: Ctx, acc: Account, cred: Credential, l: R.Loop, a: Act)
    requires NextCalling(cfg, c, acc, cred, l, a).Some?
    ensures HoldMoves(req, Calling(c, acc, cred, l), a, NextCalling(cfg, c, acc, cred, l, a).value)
  {
  }

  lemma ClosingMovesHolds(req: Request, f: Found, s: CloseStage, o: Outcome, a: Act)
    requires NextClosing(req, f, s, o, a).Some?
    ensures HoldMoves(req, Closing(f, s, o), a, NextClosing(req, f, s, o, a).value)
  {
  }

  lemma ActsMoveHolds(cfg: Config, req: Request, p: Phase, a: Act)
    requires Next(cfg, req, p, a).Some?
    ensures HoldMoves(req, p, a, Next(cfg, req, p, a).value)
  {
    match p
    case Gate(g) => GateMovesHolds(cfg, req, g, a);
    case Prep(c, s) => PrepMovesHolds(cfg, req, c, s, a);
    case Calling(c, acc, cred, l) => CallingMovesHolds(cfg, req, c, acc, cred, l, a);
    case Closing(f, s, o) => ClosingMovesHolds(req, f, s, o, a);
  }

  // A result about to be stored came from a provider, so it is a JSON object.
  ghost predicate StoresObject(p: Phase) {
    p.Closing? && !p.close.Auditing? && p.outcome.Success? ==> IsObject(p.outcome.result)
  }

  lemma StoresObjectAct(cfg: Config, req: Request, p: Phase, a: Act)
    requires Next(cfg, req, p, a).Some? && StoresObject(p)
    ensures StoresObject(Next(cfg, req, p, a).value)
    ensures a.Write? && a.stored.Some? ==> IsObject(a.stored.value)
  {
  }

  lemma {:induction false} AlwaysStoresObject(site: Site, ss: seq<State>, es: seq<Event>, k: nat, i: nat)
    requires Run(site, ss, es) && k < |ss| && At(ss[k], i)
    ensures StoresObject(ss[k].invs[i].phase)
  {
    if k > 0 {
      if At(ss[k - 1], i) {
        AlwaysStoresObject(site, ss, es, k - 1, i);
        StepOthers(site, ss[k - 1], es[k - 1], i);
        if es[k - 1].Do? && es[k - 1].i == i {
          StoresObjectAct(site.cfg, ss[k - 1].invs[i].req, ss[k - 1].invs[i].phase, es[k - 1].act);
        }
      } else {
        StepNewcomer(site, ss[k - 1], es[k - 1], i);
      }
    }
  }

  // What an act leaves of an idempotency key.
  lemma AppliedToKey(d: Desk, a: Act, s: Stores, key: string)
    requires a.Write? && a.stored.Some? ==> IsObject(a.stored.value)
    requires a.ReserveKey? && a.held.Some? ==> I.Reserve(s.space, s.now, a.key, a.held.value).1
    ensures
      var after := Redis.Lookup(Applied(d, a, s), s.now, Redis.IdemName(key));
      if a.ReserveKey? && a.held.Some? && a.key == key then after == Some(Redis.Text(I.PendingValue(a.held.value)))
      else if a.Write? && a.key == key then after.Some? ==> !I.IsPending(after.value)
      else after == Redis.Lookup(s.space, s.now, Redis.IdemName(key))
  {
    if a.CheckRate? {
      CountTouchesOne(s, a.agent, a.read, Redis.IdemName(key));
    } else if a.Write? && a.stored.Some? {
      var json: Json := a.stored.value;
      I.PendingIsNeverAResult("", json);
    }
  }

  // Another holder of the key is not touched by an act, as its owner token differs.
  lemma HolderStays(site: Site, s: State, i: nat, a: Act, j: nat, key: string, owner: string)
    requires DoEnabled(site, s, i, a) && HoldsKey(s, j, key, owner)
    requires i == j ==> !a.Write? || a.key != key
    requires Redis.Lookup(s.world.space, s.world.now, Redis.IdemName(key)) == Some(Redis.Text(I.PendingValue(owner)))
    ensures HoldsKey(Step(site, s, Do(i, a)), j, key, owner)
  {
    StepOthers(site, s, Do(i, a), j);
    ActsMoveHolds(site.cfg, s.invs[i].req, s.invs[i].phase, a);
  }

  lemma MarkerHeldAct(site: Site, s: State, i: nat, a: Act, key: string)
    requires DoEnabled(site, s, i, a) && MarkerHeld(s, key) && StoresObject(s.invs[i].phase)
    ensures MarkerHeld(Step(site, s, Do(i, a)), key)
  {
    var t := Step(site, s, Do(i, a));
    StoresObjectAct(site.cfg, s.invs[i].req, s.invs[i].phase, a);
    AppliedToKey(DeskOf(site), a, StoresOf(s), key);
    if a.ReserveKey? && a.held.Some? && a.key == key {
      StepOthers(site, s, Do(i, a), i);
      ActsMoveHolds(site.cfg, s.invs[i].req, s.invs[i].phase, a);
      assert HoldsKey(t, i, key, a.held.value);
    } else if !(a.Write? && a.key == key) {
      var v := Redis.Lookup(s.world.space, s.world.now, Redis.IdemName(key));
      if v.Some? && I.IsPending(v.value) {
        var j, owner :| HoldsKey(s, j, key, owner) && v.value == Redis.Text(I.PendingValue(owner));
        HolderStays(site, s, i, a, j, key, owner);
      }
    }
  }

  // The grant tables never write an idempotency key.
  lemma WorldKeepsKeys(site: Site, s: State, e: Event, key: string)
    requires Enabled(site, s, e) && e.World? && KeepsIdem(s, e)
    ensures
      var t := Step(site, s, e).world;
      Redis.Live(t.space, t.now, Redis.IdemName(key)) ==>
        Redis.Lookup(t.space, t.now, Redis.IdemName(key)) == Redis.Lookup(s.world.space, s.world.now, Redis.IdemName(key))
  {
    W.ClockAdvances(site.st, s.world, e.event);
    if e.event.Requesting? {
      RequestKeepsKeys(site.st, s.world, e.event.r, e.event.ask, key);
    }
  }

  lemma RequestKeepsKeys(st: G.Settings, w: W.State, r: nat, m: W.RequestMove, key: string)
    requires W.RequestEnabled(st, w, r, m)
    ensures
      var t := W.RequestStep(st, w, r, m);
      && (Redis.IdemName(key) in t.space <==> Redis.IdemName(key) in w.space)
      && (Redis.IdemName(key) in w.space ==> t.space[Redis.IdemName(key)] == w.space[Redis.IdemName(key)])
  {
  }

  lemma MarkerHeldStep(site: Site, s: State, e: Event, key: string)
    requires Enabled(site, s, e) && MarkerHeld(s, key) && KeepsIdem(s, e)
    requires e.Do? ==> StoresObject(s.invs[e.i].phase)
    ensures MarkerHeld(Step(site, s, e), key)
  {
    match e
    case Do(i, a) => MarkerHeldAct(site, s, i, a, key);
    case World(_) =>
      WorldKeepsKeys(site, s, e, key);
      OthersKeepHolds(site, s, e);
    case _ =>
      OthersKeepHolds(site, s, e);
  }

  lemma OthersKeepHolds(site: Site, s: State, e: Event)
    requires Enabled(site, s, e) && !e.Do?
    ensures forall i, key, owner :: HoldsKey(s, i, key, owner) ==> HoldsKey(Step(site, s, e), i, key, owner)
  {
  }

  /**
   No wedged key: a pending marker that is live was written by an invocation that still holds it
   and has yet to complete or release it.  So no invocation that has ended, by an exception or
   otherwise, leaves its own marker behind.
   */
  lemma {:induction false} LiveMarkerIsHeld(site: Site, ss: seq<State>, es: seq<Event>, k: nat, key: string)
    requires Run(site, ss, es) && k < |ss|
    requires forall x :: 0 <= x < k ==> KeepsIdem(ss[x], es[x])
    ensures MarkerHeld(ss[k], key)
  {
    if k > 0 {
      LiveMarkerIsHeld(site, ss, es, k - 1, key);
      if es[k - 1].Do? {
        AlwaysStoresObject(site, ss, es, k - 1, es[k - 1].i);
      }
      MarkerHeldStep(site, ss[k - 1], es[k - 1], key);
    }
  }

  // ---- One holder for each key ----

  // Idempotency keys are neither flushed nor touched by other components.
  ghost predicate LeavesKeys(s: State, e: Event) {
    && (e.World? && e.event.Lose? ==> forall n :: n in e.event.names ==> !n.IdemName?)
    && (e.World? && e.event.Foreign? ==> forall key :: SameEntry(s.world.space, e.event.space, key))
  }

  predicate SameEntry(a: Redis.Space, b: Redis.Space, key: string) {
    var n := Redis.IdemName(key);
    if n in a then n in b && b[n] == a[n] else n !in b
  }

  predicate Marked(s: State, key: string, owner: string) {
    Redis.IdemName(key) in s.world.space && s.world.space[Redis.IdemName(key)].value == Redis.Text(I.PendingValue(owner))
  }

  // A marker still stored under its holder has not expired: the holder acts before its reservation ends.
  ghost predicate InTime(s: State) {
    forall i, key, owner :: HoldsKey(s, i, key, owner) && Marked(s, key, owner) ==> Redis.Live(s.world.space, s.world.now, Redis.IdemName(key))
  }

  ghost predicate Intact(s: State, i: nat, key: string, owner: string) {
    HoldsKey(s, i, key, owner) ==>
      owner in s.owners && Redis.Lookup(s.world.space, s.world.now, Redis.IdemName(key)) == Some(Redis.Text(I.PendingValue(owner)))
  }

  ghost predicate Distinct(s: State, i: nat, j: nat) {
    i != j && At(s, i) && At(s, j) && HolderOf(s.invs[i].phase).Some? ==> HolderOf(s.invs[i].phase) != HolderOf(s.invs[j].phase)
  }

  ghost predicate Owned(s: State, i: nat) {
    At(s, i) && HolderOf(s.invs[i].phase).Some? ==> HolderOf(s.invs[i].phase).value in s.owners && FoundOf(s.invs[i].phase).Some?
  }

  lemma OwnedStep(site: Site, s: State, e: Event, i: nat)
    requires Enabled(site, s, e) && Owned(s, i)
    ensures Owned(Step(site, s, e), i)
  {
    if At(s, i) {
      StepOthers(site, s, e, i);
      if e.Do? && e.i == i {
        ActsMoveHolds(site.cfg, s.invs[i].req, s.invs[i].phase, e.act);
      }
    } else if At(Step(site, s, e), i) {
      StepNewcomer(site, s, e, i);
    }
  }

  // Only a reservation gives an invocation an owner token it did not have, and that token is new.
  lemma HoldIsOldOrNew(site: Site, s: State, e: Event, i: nat)
    requires Enabled(site, s, e) && At(Step(site, s, e), i) && HolderOf(Step(site, s, e).invs[i].phase).Some?
    ensures
      var hold := HolderOf(Step(site, s, e).invs[i].phase);
      || (At(s, i) && HolderOf(s.invs[i].phase) == hold)
      || (e.Do? && e.i == i && hold.value !in s.owners)
  {
    if At(s, i) {
      StepOthers(site, s, e, i);
      if e.Do? && e.i == i {
        ActsMoveHolds(site.cfg, s.invs[i].req, s.invs[i].phase, e.act);
      }
    } else {
      StepNewcomer(site, s, e, i);
    }
  }

  lemma DistinctStep(site: Site, s: State, e: Event, i: nat, j: nat)
    requires Enabled(site, s, e) && Distinct(s, i, j) && Owned(s, i) && Owned(s, j)
    ensures Distinct(Step(site, s, e), i, j)
  {
    var t := Step(site, s, e);
    if At(t, i) && HolderOf(t.invs[i].phase).Some? {
      HoldIsOldOrNew(site, s, e, i);
    }
    if At(t, j) && HolderOf(t.invs[j].phase).Some? {
      HoldIsOldOrNew(site, s, e, j);
    }
  }

  // Only the holder's own write takes a live marker away, and only a missing key is reserved.
  lemma IntactAct(site: Site, s: State, i: nat, a: Act, j: nat, key: string, owner: string)
    requires DoEnabled(site, s, i, a) && StoresObject(s.invs[i].phase)
    requires Intact(s, j, key, owner) && (HolderOf(s.invs[i].phase).Some? ==> Intact(s, i, key, HolderOf(s.invs[i].phase).value))
    requires Distinct(s, i, j)
    ensures Intact(Step(site, s, Do(i, a)), j, key, owner)
  {
    var t := Step(site, s, Do(i, a));
    if HoldsKey(t, j, key, owner) {
      StepObjectAndKey(site, s, i, a, key);
      HeldBefore(site, s, i, a, j, key, owner);
      if a.Write? && a.key == key {
        WriterHolds(site, s, i, a);
        I.PendingValueInjective(owner, HolderOf(s.invs[i].phase).value);
      }
    }
  }

  lemma StepObjectAndKey(site: Site, s: State, i: nat, a: Act, key: string)
    requires DoEnabled(site, s, i, a) && StoresObject(s.invs[i].phase)
    ensures
      var after := Redis.Lookup(Step(site, s, Do(i, a)).world.space, s.world.now, Redis.IdemName(key));
      if a.ReserveKey? && a.held.Some? && a.key == key then after == Some(Redis.Text(I.PendingValue(a.held.value)))
      else if a.Write? && a.key == key then after.Some? ==> !I.IsPending(after.value)
      else after == Redis.Lookup(s.world.space, s.world.now, Redis.IdemName(key))
  {
    StoresObjectAct(site.cfg, s.invs[i].req, s.invs[i].phase, a);
    AppliedToKey(DeskOf(site), a, StoresOf(s), key);
  }

  lemma WriterHolds(site: Site, s: State, i: nat, a: Act)
    requires DoEnabled(site, s, i, a) && a.Write?
    ensures HoldsKey(s, i, a.key, a.owner)
    ensures HolderOf(Step(site, s, Do(i, a)).invs[i].phase).None?
  {
    ActsMoveHolds(site.cfg, s.invs[i].req, s.invs[i].phase, a);
  }

  // A holder after an act held the key before, or has just reserved it over nothing live.
  lemma HeldBefore(site: Site, s: State, i: nat, a: Act, j: nat, key: string, owner: string)
    requires DoEnabled(site, s, i, a) && HoldsKey(Step(site, s, Do(i, a)), j, key, owner)
    ensures HoldsKey(s, j, key, owner) || (i == j && a == ReserveKey(key, Some(owner)))
    ensures a.ReserveKey? && a.held.Some? ==> Redis.Lookup(s.world.space, s.world.now, Redis.IdemName(a.key)) == None
  {
    if At(s, j) {
      StepOthers(site, s, Do(i, a), j);
      ActsMoveHolds(site.cfg, s.invs[i].req, s.invs[i].phase, a);
    }
  }

  lemma WorldLeavesKeys(site: Site, w: W.State, e: W.Event, key: string)
    requires W.Enabled(site.st, w, e) && Redis.Live(w.space, w.now, Redis.IdemName(key))
    requires e.Lose? ==> Redis.IdemName(key) !in e.names
    requires e.Foreign? ==> SameEntry(w.space, e.space, key)
    ensures
      var t := W.Step(site.st, w, e);
      Redis.IdemName(key) in t.space && t.space[Redis.IdemName(key)] == w.space[Redis.IdemName(key)]
  {
    if e.Requesting? {
      RequestKeepsKeys(site.st, w, e.r, e.ask, key);
    }
  }

  lemma IntactQuiet(site: Site, s: State, e: Event, j: nat, key: string, owner: string)
    requires Enabled(site, s, e) && !e.Do? && LeavesKeys(s, e) && InTime(Step(site, s, e)) && Intact(s, j, key, owner)
    ensures Intact(Step(site, s, e), j, key, owner)
  {
    var t := Step(site, s, e);
    if HoldsKey(t, j, key, owner) {
      if At(s, j) {
        StepOthers(site, s, e, j);
      } else {
        StepNewcomer(site, s, e, j);
      }
      if e.World? {
        WorldLeavesKeys(site, s.world, e.event, key);
      }
      assert Marked(t, key, owner);
    }
  }

  ghost predicate Exclusive(s: State) {
    && (forall i, j :: Distinct(s, i, j))
    && (forall i :: Owned(s, i))
    && (forall i, key, owner :: Intact(s, i, key, owner))
  }

  lemma ExclusiveStep(site: Site, s: State, e: Event)
    requires Enabled(site, s, e) && Exclusive(s) && LeavesKeys(s, e) && InTime(Step(site, s, e))
    requires e.Do? ==> StoresObject(s.invs[e.i].phase)
    ensures Exclusive(Step(site, s, e))
  {
    var t := Step(site, s, e);
    forall i, j ensures Distinct(t, i, j) {
      assert Distinct(s, i, j);
      DistinctStep(site, s, e, i, j);
    }
    forall i ensures Owned(t, i) {
      OwnedStep(site, s, e, i);
    }
    forall j, key, owner ensures Intact(t, j, key, owner) {
      assert Intact(s, j, key, owner);
      if e.Do? {
        assert Distinct(s, e.i, j);
        IntactAct(site, s, e.i, e.act, j, key, owner);
      } else {
        IntactQuiet(site, s, e, j, key, owner);
      }
    }
  }

  // Up to the k-th state no key is flushed and every holder settles in time.
  ghost predicate Undisturbed(ss: seq<State>, es: seq<Event>, k: nat)
    requires |ss| == |es| + 1 && k < |ss|
  {
    && (forall x :: 0 <= x < k ==> LeavesKeys(ss[x], es[x]))
    && (forall x :: 0 <= x <= k ==> InTime(ss[x]))
  }

  lemma {:induction false} AlwaysExclusive(site: Site, ss: seq<State>, es: seq<Event>, k: nat)
    requires Run(site, ss, es) && k < |ss|
    requires Undisturbed(ss, es, k)
    ensures Exclusive(ss[k])
  {
    if k > 0 {
      AlwaysExclusive(site, ss, es, k - 1);
      assert LeavesKeys(ss[k - 1], es[k - 1]) && InTime(ss[k]) && ss[k] == Step(site, ss[k - 1], es[k - 1]);
      if es[k - 1].Do? {
        AlwaysStoresObject(site, ss, es, k - 1, es[k - 1].i);
      }
      ExclusiveStep(site, ss[k - 1], es[k - 1]);
    }
  }

  /**
   Mutual exclusion of the whole pipeline: if no key is flushed and every holder settles before
   its reservation ends, at most one invocation holds an idempotency key at any time, from its
   reservation to its completion or release; any other is then shown a conflict.
   */
  lemma KeyHasOneHolder(site: Site, ss: seq<State>, es: seq<Event>, k: nat, i: nat, j: nat, key: string, a: string, b: string)
    requires Run(site, ss, es) && k < |ss|
    requires Undisturbed(ss, es, k)
    requires HoldsKey(ss[k], i, key, a)
    ensures HoldsKey(ss[k], j, key, b) ==> i == j
    ensures I.Viewed(ss[k].world.space, ss[k].world.now, key) == I.Conflict
    ensures !I.Reserve(ss[k].world.space, ss[k].world.now, key, b).1
  {
    AlwaysExclusive(site, ss, es, k);
    assert Intact(ss[k], i, key, a) && Distinct(ss[k], i, j);
    I.PendingIsNeverAResult(a, "{}");
    if HoldsKey(ss[k], j, key, b) {
      assert Intact(ss[k], j, key, b);
      I.PendingValueInjective(a, b);
    }
  }
}
