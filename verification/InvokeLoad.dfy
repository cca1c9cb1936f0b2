/**
 What the components promise, for the pipeline that uses them.

 `InvokeProgress` says that no invocation is ever stuck, `InvokeRates` that the rate bound holds
 of the invocations of an agent, `InvokeProbes` that the breakers do their work whoever calls.
 */
module InvokeProgress {
  import opened Common
  import opened InvokePath
  import opened InvokeView
  import opened InvokeRuns
  import B = CircuitBreaker
  import F = Refresh
  import G = Grants
  import GrantToken
  import I = Idempotency
  import R = Retry
  import Redis

  // Calls are made only on a breaker that can be built, refreshes only of a credential that allows it.
  predicate WellFormed(cfg: Config, p: Phase) {
    && (p.Calling? ==> B.ValidConfig(cfg.breaker))
    && (p.Prep? && p.prep.Refreshing? ==> CanRefresh(p.prep.account))
  }

  lemma ActsKeepForm(cfg: Config, req: Request, p: Phase, a: Act)
    requires Next(cfg, req, p, a).Some? && WellFormed(cfg, p)
    ensures WellFormed(cfg, Next(cfg, req, p, a).value)
  {
  }

  lemma {:induction false} AlwaysWellFormed(cfg: Config, req: Request, acts: seq<Act>)
    requires PhaseAfter(cfg, req, acts).Some?
    ensures WellFormed(cfg, PhaseAfter(cfg, req, acts).value)
  {
    if acts != [] {
      AlwaysWellFormed(cfg, req, acts[..|acts| - 1]);
      ActsKeepForm(cfg, req, PhaseAfter(cfg, req, acts[..|acts| - 1]).value, acts[|acts| - 1]);
    }
  }

  lemma {:induction false} LongerThanAll(owners: set<string>) returns (n: nat)
    ensures forall o :: o in owners ==> |o| < n
    decreases |owners|
  {
    if owners == {} {
      n := 0;
    } else {
      var o :| o in owners;
      var m := LongerThanAll(owners - {o});
      n := if |o| < m then m else |o| + 1;
      assert forall p :: p in owners ==> p == o || p in owners - {o};
    }
  }

  // A token not drawn so far.
  lemma NewOwner(owners: set<string>) returns (owner: string)
    ensures owner !in owners
  {
    var n := LongerThanAll(owners);
    owner := seq(n, _ => 'a');
  }

  lemma RowToFind(hash: string, grants: map<string, G.Row>) returns (row: Option<Found>)
    ensures FindsRow(row, hash, grants)
  {
    if exists id :: id in grants && grants[id].hash == hash {
      var id :| id in grants && grants[id].hash == hash;
      row := Some(Found(id, grants[id]));
    } else {
      row := None;
    }
  }

  lemma GateProgress(site: Site, s: State, i: nat) returns (a: Act)
    requires At(s, i) && s.invs[i].phase.Gate?
    ensures !a.Crash? && DoEnabled(site, s, i, a)
  {
    var d, req, hash := DeskOf(site), s.invs[i].req, site.st.signer.hash(s.invs[i].req.token);
    match s.invs[i].phase.gate
    case Start => a := Verify(GrantToken.VerifyGrant(d.signer, d.issuer, req.token, s.world.now));
    case Verified(_) => a := ReadMarker(G.HasMarker(s.world.space, s.world.now, hash));
    case Checked(_, _) =>
      var row := RowToFind(hash, s.world.tables.grants);
      a := ReadRow(row);
    case Resolved(_) => a := ReadClock(s.world.now);
    case Timely(f) => a := CheckRate(f.row.agent, s.world.now, AllowedNow(d, StoresOf(s), f.row.agent, s.world.now));
    case Admitted(f) => a := GetKey(FullKey(req, f), I.Viewed(s.world.space, s.world.now, FullKey(req, f)));
    case Missed(f) =>
      var owner := NewOwner(s.owners);
      a := ReserveKey(FullKey(req, f), if Redis.Live(s.world.space, s.world.now, Redis.IdemName(FullKey(req, f))) then None else Some(owner));
  }

  lemma PrepProgress(site: Site, s: State, i: nat) returns (a: Act)
    requires At(s, i) && s.invs[i].phase.Prep? && WellFormed(site.cfg, s.invs[i].phase)
    ensures !a.Crash? && DoEnabled(site, s, i, a)
  {
    var d, c := DeskOf(site), s.invs[i].phase.ctx;
    match s.invs[i].phase.prep
    case Loading =>
      var id := c.found.row.account;
      a := LoadAccount(id, if HasAccount(StoresOf(s), id) then Some(Account(s.world.tables.accounts[id].provider, s.creds[id])) else None);
    case Dating(_) => a := ReadClock(s.world.now);
    case Overdue(_) => a := ReadClock(s.world.now);
    case Refreshing(acc, _) =>
      var r := F.Rotation(F.Refused, F.KeyManagerDown, F.KeyManagerDown, s.world.now, true);
      a := InvokePath.Act.Refresh(c.found.row.account, acc.cred, r, F.Rotate(d.aead, d.codec, d.manager, acc.cred, r).0);
    case Decrypting(acc) => a := Decrypt(acc.cred.access, Opened(d, acc.cred.access));
    case Rechecking(_, _) => a := RecheckMarker(G.HasMarker(s.world.space, s.world.now, site.st.signer.hash(s.invs[i].req.token)));
    case Confirming(_, _) => a := RecheckRow(c.found.id, RevokedNow(s.world.tables.grants, c.found.id));
  }

  lemma CallingProgress(site: Site, s: State, i: nat) returns (a: Act)
    requires At(s, i) && s.invs[i].phase.Calling? && Sane(site.cfg, s.invs[i].phase)
    ensures !a.Crash? && DoEnabled(site, s, i, a)
  {
    var token, provider := s.invs[i].phase.cred.token, ProviderOf(site, s.invs[i].req);
    match s.invs[i].phase.loop
    case Ready(_) => a := Provide(token, R.Asked(B.Grants(site.cfg.breaker, B.Play(site.cfg.breaker, CallsTo(s, provider)), s.world.now)));
    case Waiting(_) => a := Provide(token, R.Answered(R.Failed(R.Timeout)));
    case Backoff(n) => a := Provide(token, R.Slept(R.Delay(LoopParams(site.cfg), n)));
  }

  lemma ClosingProgress(site: Site, s: State, i: nat) returns (a: Act)
    requires At(s, i) && s.invs[i].phase.Closing?
    ensures !a.Crash? && DoEnabled(site, s, i, a)
  {
    var f, o, key := s.invs[i].phase.found, s.invs[i].phase.outcome, FullKey(s.invs[i].req, s.invs[i].phase.found);
    match s.invs[i].phase.close
    case Settling(owner) => a := Compare(key, owner, I.MayComplete(s.world.space, s.world.now, key, Some(owner)));
    case Writing(owner) => a := Write(key, owner, Kept(o));
    case Auditing => a := Audit(f.id, StatusOf(o));
  }

  /**
   Progress: in every state of every run an invocation that has not ended has an act it can take,
   other than a crash, and what that act observes is what the stores and the breaker then show.
   */
  lemma NeverStuck(site: Site, ss: seq<State>, es: seq<Event>, k: nat, i: nat) returns (a: Act)
    requires Run(site, ss, es) && k < |ss| && At(ss[k], i) && !ss[k].invs[i].phase.Ended?
    ensures !a.Crash? && Enabled(site, ss[k], Do(i, a))
  {
    var v := ss[k].invs[i];
    EachIsAPath(site, ss, es, k, i);
    AlwaysWellFormed(site.cfg, v.req, v.acts);
    PathsAreShort(site.cfg, v.req, v.acts);
    match v.phase
    case Gate(_) => a := GateProgress(site, ss[k], i);
    case Prep(_, _) => a := PrepProgress(site, ss[k], i);
    case Calling(_, _, _, _) => a := CallingProgress(site, ss[k], i);
    case Closing(_, _, _) => a := ClosingProgress(site, ss[k], i);
  }
}

module InvokeProbes {
  import opened Common
  import opened InvokePath
  import opened InvokeRuns
  import opened InvokeProgress
  import B = CircuitBreaker
  import R = Retry
  import W = GrantRuns

  // A call to the provider goes out.
  ghost predicate Starts(site: Site, s: State, e: Event, provider: string) {
    e.Do? && At(s, e.i) && e.act.Provide? && e.act.step == R.Asked(true)
    && s.invs[e.i].req.tool in site.cfg.tools && site.cfg.tools[s.invs[e.i].req.tool].provider == provider
  }

  // A result of the provider is recorded: a success, or a failure that counts against it.
  ghost predicate Records(site: Site, s: State, e: Event, provider: string) {
    e.Do? && At(s, e.i) && e.act.Provide? && e.act.step.Answered?
    && (e.act.step.reply.Replied? || R.Outage(e.act.step.reply.failure))
    && ProviderOf(site, s.invs[e.i].req) == provider
  }

  // The call an event adds to a provider's breaker, if any.
  ghost function Added(site: Site, s: State, e: Event, provider: string): Option<B.Call> {
    if e.Do? && At(s, e.i) && e.act.Provide? && ProviderOf(site, s.invs[e.i].req) == provider then BreakerCall(e.act.step, s.world.now) else None
  }

  lemma CallsGrow(site: Site, s: State, e: Event, provider: string)
    requires Enabled(site, s, e)
    ensures
      var added := Added(site, s, e, provider);
      CallsTo(Step(site, s, e), provider) == CallsTo(s, provider) + if added.Some? then [added.value] else []
  {
  }

  ghost predicate Timed(s: State, provider: string) {
    var cs := CallsTo(s, provider);
    B.Monotone(cs) && (cs != [] ==> cs[|cs| - 1].at <= s.world.now)
  }

  lemma MonotoneGrows(cs: seq<B.Call>, c: B.Call)
    requires B.Monotone(cs) && (cs != [] ==> cs[|cs| - 1].at <= c.at) && (c.Fail? ==> c.syncAt == c.at)
    ensures B.Monotone(cs + [c])
  {
    assert forall i :: 0 <= i < |cs| ==> cs[i].at <= cs[|cs| - 1].at;
  }

  lemma ClockNeverGoesBack(site: Site, s: State, e: Event)
    requires Enabled(site, s, e)
    ensures s.world.now <= Step(site, s, e).world.now
  {
    StepProjects(site, s, e);
    W.ClockAdvances(site.st, s.world, Seen(site, s, e));
  }

  lemma TimedStep(site: Site, s: State, e: Event, provider: string)
    requires Enabled(site, s, e) && Timed(s, provider)
    ensures Timed(Step(site, s, e), provider)
  {
    CallsGrow(site, s, e, provider);
    ClockNeverGoesBack(site, s, e);
    var added := Added(site, s, e, provider);
    if added.Some? {
      MonotoneGrows(CallsTo(s, provider), added.value);
    } else {
      assert CallsTo(s, provider) + [] == CallsTo(s, provider);
    }
  }

  lemma {:induction false} AlwaysTimed(site: Site, ss: seq<State>, es: seq<Event>, k: nat, provider: string)
    requires Run(site, ss, es) && k < |ss|
    ensures Timed(ss[k], provider)
  {
    if k > 0 {
      AlwaysTimed(site, ss, es, k - 1, provider);
      TimedStep(site, ss[k - 1], es[k - 1], provider);
    }
  }

  /** In every state of every run each provider's breaker is the one its history dictates, whoever made the calls. */
  lemma BreakersAreExplained(site: Site, ss: seq<State>, es: seq<Event>, k: nat, provider: string)
    requires Run(site, ss, es) && k < |ss| && B.ValidConfig(site.cfg.breaker)
    ensures B.Explained(site.cfg.breaker, CallsTo(ss[k], provider), B.Play(site.cfg.breaker, CallsTo(ss[k], provider)))
  {
    AlwaysTimed(site, ss, es, k, provider);
    B.FieldsExplained(site.cfg.breaker, CallsTo(ss[k], provider));
  }

  // Invocations call only on a breaker that can be built.
  lemma CallsNeedABreaker(site: Site, ss: seq<State>, es: seq<Event>, k: nat, i: nat, token: string, step: R.Act)
    requires Run(site, ss, es) && k < |es| && es[k] == Do(i, Provide(token, step))
    ensures B.ValidConfig(site.cfg.breaker)
  {
    assert Enabled(site, ss[k], es[k]);
    EachIsAPath(site, ss, es, k, i);
    AlwaysWellFormed(site.cfg, ss[k].invs[i].req, ss[k].invs[i].acts);
    ProvideIsInCalling(site.cfg, ss[k].invs[i].req, ss[k].invs[i].phase, Provide(token, step));
  }

  lemma StartIsGranted(site: Site, ss: seq<State>, es: seq<Event>, k: nat, provider: string)
    requires Run(site, ss, es) && k < |es| && Starts(site, ss[k], es[k], provider)
    ensures B.ShouldGrant(site.cfg.breaker, CallsTo(ss[k], provider), ss[k].world.now)
  {
    var cs, now := CallsTo(ss[k], provider), ss[k].world.now;
    assert Enabled(site, ss[k], es[k]);
    CallsNeedABreaker(site, ss, es, k, es[k].i, es[k].act.token, es[k].act.step);
    AlwaysTimed(site, ss, es, k, provider);
    MonotoneGrows(cs, B.Ask(now));
    B.AllowRefinesHistory(site.cfg.breaker, cs, now);
  }

  // The slot stays taken from a start on, as long as nobody records.
  lemma {:induction false} SlotStaysTaken(site: Site, ss: seq<State>, es: seq<Event>, k: nat, m: nat, provider: string)
    requires Run(site, ss, es) && k < m < |ss| && Starts(site, ss[k], es[k], provider)
    requires forall x :: k < x < m ==> !Records(site, ss[x], es[x], provider)
    ensures B.GrantedSinceFailure(site.cfg.breaker, CallsTo(ss[m], provider))
    decreases m
  {
    if k == m - 1 {
      StartIsGranted(site, ss, es, k, provider);
      StartTakesSlot(site, ss[k], es[k], provider);
    } else {
      SlotStaysTaken(site, ss, es, k, m - 1, provider);
      assert !Records(site, ss[m - 1], es[m - 1], provider);
      SlotStays(site, ss[m - 1], es[m - 1], provider);
    }
  }

  lemma StartTakesSlot(site: Site, s: State, e: Event, provider: string)
    requires Enabled(site, s, e) && Starts(site, s, e, provider) && B.ShouldGrant(site.cfg.breaker, CallsTo(s, provider), s.world.now)
    ensures B.GrantedSinceFailure(site.cfg.breaker, CallsTo(Step(site, s, e), provider))
  {
    CallsGrow(site, s, e, provider);
    var cs := CallsTo(s, provider);
    assert (cs + [B.Ask(s.world.now)])[..|cs|] == cs;
  }

  lemma SlotStays(site: Site, s: State, e: Event, provider: string)
    requires Enabled(site, s, e) && !Records(site, s, e, provider) && B.GrantedSinceFailure(site.cfg.breaker, CallsTo(s, provider))
    ensures B.GrantedSinceFailure(site.cfg.breaker, CallsTo(Step(site, s, e), provider))
  {
    CallsGrow(site, s, e, provider);
    var cs, added := CallsTo(s, provider), Added(site, s, e, provider);
    if added.Some? {
      assert (cs + [added.value])[..|cs|] == cs;
    } else {
      assert cs + [] == cs;
    }
  }

  /** Probe exclusivity of the pipeline: while a provider's breaker is tripped, no two calls of any invocations go out to it without a record in between. */
  lemma ProbesAreSeparated(site: Site, ss: seq<State>, es: seq<Event>, k: nat, m: nat, provider: string)
    requires Run(site, ss, es) && k < m < |es|
    requires Starts(site, ss[k], es[k], provider) && Starts(site, ss[m], es[m], provider)
    requires B.IsTripped(site.cfg.breaker, CallsTo(ss[m], provider))
    ensures exists x :: k < x < m && Records(site, ss[x], es[x], provider)
  {
    StartIsGranted(site, ss, es, m, provider);
    if forall x :: k < x < m ==> !Records(site, ss[x], es[x], provider) {
      SlotStaysTaken(site, ss, es, k, m, provider);
    }
  }
}

module InvokeRates {
  import opened Common
  import opened InvokePath
  import opened InvokeView
  import opened InvokeRuns
  import L = RateLimiter
  import Redis
  import W = GrantRuns

  function Subject(agent: string): string {
    "invoke:" + agent
  }

  // The checks of one agent's rate that a run has made so far, as events of its counters.
  ghost function ChecksIn(ss: seq<State>, es: seq<Event>, k: nat, agent: string): seq<L.Event>
    requires |ss| == |es| + 1 && k <= |es|
  {
    if k == 0 then [] else ChecksIn(ss, es, k - 1, agent) + ChecksAt(ss[k - 1], es[k - 1], agent)
  }

  function ChecksAt(s: State, e: Event, agent: string): seq<L.Event> {
    if e.Do? && e.act.CheckRate? && e.act.agent == agent then ChecksOf(StoresOf(s), agent, e.act.read) else []
  }

  predicate AllowsIn(e: Event, agent: string, index: int) {
    e.Do? && e.act.CheckRate? && e.act.agent == agent && e.act.allowed && L.WindowOf(e.act.read, 60) == index
  }

  // The invocations of an agent let through in one minute.
  function AllowedIn(es: seq<Event>, k: nat, agent: string, index: int): nat
    requires k <= |es|
  {
    if k == 0 then 0 else AllowedIn(es, k - 1, agent, index) + if AllowsIn(es[k - 1], agent, index) then 1 else 0
  }

  predicate SameAt(a: Redis.Space, b: Redis.Space, n: Redis.Name) {
    if n in a then n in b && b[n] == a[n] else n !in b
  }

  // Two key spaces agree on the counters of one subject.
  ghost predicate SameCounters(a: Redis.Space, b: Redis.Space, subject: string) {
    forall index: int :: SameAt(a, b, Redis.CounterName(subject, index))
  }

  // Nobody else touches the agent's counters.
  ghost predicate LeavesCounters(s: State, e: Event, agent: string) {
    && (e.World? && e.event.Lose? ==> forall index: int :: Redis.CounterName(Subject(agent), index) !in e.event.names)
    && (e.World? && e.event.Foreign? ==> SameCounters(s.world.space, e.event.space, Subject(agent)))
  }

  lemma AfterAgrees(a: Redis.Space, b: Redis.Space, subject: string, e: L.Event)
    requires SameCounters(a, b, subject)
    ensures SameCounters(L.After(a, subject, 60, e), L.After(b, subject, 60, e), subject)
  {
    var touched := Redis.CounterName(subject, if e.Hit? then L.WindowOf(e.read, 60) else e.index);
    assert SameAt(a, b, touched);
    forall index: int ensures SameAt(L.After(a, subject, 60, e), L.After(b, subject, 60, e), Redis.CounterName(subject, index)) {
      assert SameAt(a, b, Redis.CounterName(subject, index));
    }
  }

  lemma RunSnoc(start: Redis.Space, subject: string, es: seq<L.Event>, e: L.Event)
    ensures L.Run(start, subject, 60, es + [e]) == L.After(L.Run(start, subject, 60, es), subject, 60, e)
  {
    assert (es + [e])[..|es|] == es;
  }

  // Running on agrees if it agreed before.
  lemma {:induction false} RunAgrees(a: Redis.Space, start: Redis.Space, subject: string, es: seq<L.Event>, more: seq<L.Event>)
    requires SameCounters(a, L.Run(start, subject, 60, es), subject)
    ensures SameCounters(L.Run(a, subject, 60, more), L.Run(start, subject, 60, es + more), subject)
    decreases |more|
  {
    if more == [] {
      assert es + more == es;
    } else {
      var prior, last := more[..|more| - 1], more[|more| - 1];
      RunAgrees(a, start, subject, es, prior);
      AfterAgrees(L.Run(a, subject, 60, prior), L.Run(start, subject, 60, es + prior), subject, last);
      RunSnoc(start, subject, es + prior, last);
      assert es + more == es + prior + [last];
    }
  }

  lemma SubjectsDiffer(a: string, b: string)
    requires a != b
    ensures Subject(a) != Subject(b)
  {
    assert Subject(a)[7..] == a && Subject(b)[7..] == b;
  }

  lemma ActKeepsCounter(site: Site, s: State, i: nat, a: Act, agent: string, index: int)
    requires DoEnabled(site, s, i, a) && !(a.CheckRate? && a.agent == agent)
    ensures SameAt(s.world.space, Step(site, s, Do(i, a)).world.space, Redis.CounterName(Subject(agent), index))
  {
    if a.CheckRate? {
      SubjectsDiffer(a.agent, agent);
      CountTouchesOne(StoresOf(s), a.agent, a.read, Redis.CounterName(Subject(agent), index));
    }
  }

  lemma WorldKeepsCounter(site: Site, w: W.State, e: W.Event, n: Redis.Name)
    requires W.Enabled(site.st, w, e) && n.CounterName?
    requires e.Lose? ==> n !in e.names
    requires e.Foreign? ==> SameAt(w.space, e.space, n)
    ensures SameAt(w.space, W.Step(site.st, w, e).space, n)
  {
    if e.Requesting? {
      RequestKeepsCounter(site, w, e.r, e.ask, n);
    }
  }

  lemma RequestKeepsCounter(site: Site, w: W.State, r: nat, m: W.RequestMove, n: Redis.Name)
    requires W.RequestEnabled(site.st, w, r, m) && n.CounterName?
    ensures SameAt(w.space, W.RequestStep(site.st, w, r, m).space, n)
  {
  }

  lemma CountersStep(site: Site, s: State, e: Event, agent: string, start: Redis.Space, checks: seq<L.Event>)
    requires Enabled(site, s, e) && LeavesCounters(s, e, agent)
    requires SameCounters(s.world.space, L.Run(start, Subject(agent), 60, checks), Subject(agent))
    ensures SameCounters(Step(site, s, e).world.space, L.Run(start, Subject(agent), 60, checks + ChecksAt(s, e, agent)), Subject(agent))
  {
    var t := Step(site, s, e);
    if e.Do? && e.act.CheckRate? && e.act.agent == agent {
      RunAgrees(s.world.space, start, Subject(agent), checks, ChecksAt(s, e, agent));
    } else {
      assert checks + ChecksAt(s, e, agent) == checks;
      forall index: int ensures SameAt(t.world.space, L.Run(start, Subject(agent), 60, checks), Redis.CounterName(Subject(agent), index)) {
        var n := Redis.CounterName(Subject(agent), index);
        assert SameAt(s.world.space, L.Run(start, Subject(agent), 60, checks), n);
        if e.Do? {
          ActKeepsCounter(site, s, e.i, e.act, agent, index);
        } else if e.World? {
          WorldKeepsCounter(site, s.world, e.event, n);
        }
      }
    }
  }

  ghost predicate CountersLeft(ss: seq<State>, es: seq<Event>, k: nat, agent: string)
    requires |ss| == |es| + 1 && k < |ss|
  {
    forall x :: 0 <= x < k ==> LeavesCounters(ss[x], es[x], agent)
  }

  // In every state the agent's counters are those its checks make, run on their own.
  lemma {:induction false} CountersAreTheChecks(site: Site, ss: seq<State>, es: seq<Event>, k: nat, agent: string)
    requires Run(site, ss, es) && k < |ss| && CountersLeft(ss, es, k, agent)
    ensures SameCounters(ss[k].world.space, L.Run(ss[0].world.space, Subject(agent), 60, ChecksIn(ss, es, k, agent)), Subject(agent))
  {
    if k > 0 {
      CountersAreTheChecks(site, ss, es, k - 1, agent);
      assert LeavesCounters(ss[k - 1], es[k - 1], agent);
      CountersStep(site, ss[k - 1], es[k - 1], agent, ss[0].world.space, ChecksIn(ss, es, k - 1, agent));
    }
  }

  // One check admits in the run of counters exactly if the pipeline lets the invocation through.
  lemma CheckAdmits(site: Site, s: State, i: nat, a: Act, start: Redis.Space, checks: seq<L.Event>, index: int)
    requires DoEnabled(site, s, i, a) && a.CheckRate?
    requires SameCounters(s.world.space, L.Run(start, Subject(a.agent), 60, checks), Subject(a.agent))
    ensures L.AdmittedInWindow(start, Subject(a.agent), site.invokesPerMinute, 60, checks + ChecksAt(s, Do(i, a), a.agent), index)
         == L.AdmittedInWindow(start, Subject(a.agent), site.invokesPerMinute, 60, checks, index)
            + if AllowsIn(Do(i, a), a.agent, index) then 1 else 0
  {
    var subject, limit := Subject(a.agent), site.invokesPerMinute;
    var hit := L.Hit(a.read, s.world.now);
    var name := Redis.CounterName(subject, L.WindowOf(a.read, 60));
    var one := checks + [hit];
    assert one[..|checks|] == checks;
    RunSnoc(start, subject, checks, hit);
    L.CountAfterHit(L.Run(start, subject, 60, checks), subject, 60, hit);
    assert SameAt(s.world.space, L.Run(start, subject, 60, checks), name);
    assert L.Admitted(start, subject, limit, 60, one) <==> a.allowed;
    var more := checks + ChecksAt(s, Do(i, a), a.agent);
    if more != one {
      assert more == one + [L.Bound(s.world.now, L.WindowOf(a.read, 60))];
      assert more[..|one|] == one;
    }
  }

  lemma {:induction false} AllowedIsAdmitted(site: Site, ss: seq<State>, es: seq<Event>, k: nat, agent: string, index: int)
    requires Run(site, ss, es) && k < |ss| && CountersLeft(ss, es, k, agent)
    ensures AllowedIn(es, k, agent, index)
         == L.AdmittedInWindow(ss[0].world.space, Subject(agent), site.invokesPerMinute, 60, ChecksIn(ss, es, k, agent), index)
  {
    if k > 0 {
      var s, e := ss[k - 1], es[k - 1];
      AllowedIsAdmitted(site, ss, es, k - 1, agent, index);
      CountersAreTheChecks(site, ss, es, k - 1, agent);
      if e.Do? && e.act.CheckRate? && e.act.agent == agent {
        assert Enabled(site, s, e);
        CheckAdmits(site, s, e.i, e.act, ss[0].world.space, ChecksIn(ss, es, k - 1, agent), index);
      } else {
        assert ChecksIn(ss, es, k, agent) == ChecksIn(ss, es, k - 1, agent);
      }
    }
  }

  /**
   The rate bound of the pipeline: of the invocations of one agent whose checks read the clock in
   one minute, exactly min(checks, limit) are let through, if and only if no INCR arrived after
   the minute's counter had expired, or there are no more checks than the limit, or it is zero.
   */
  lemma RateBound(site: Site, ss: seq<State>, es: seq<Event>, k: nat, agent: string, index: int)
    requires Run(site, ss, es) && k < |ss| && CountersLeft(ss, es, k, agent) && site.invokesPerMinute >= 0
    requires L.NoCounters(ss[0].world.space, Subject(agent))
    ensures
      var checks := ChecksIn(ss, es, k, agent);
      var hits, limit := L.Hits(checks, 60, index), site.invokesPerMinute;
      var allowed, restarts := AllowedIn(es, k, agent, index), L.RestartsOf(ss[0].world.space, Subject(agent), 60, checks, index);
      && (allowed == (if hits <= limit then hits else limit) <==> restarts == 0 || hits <= limit || limit == 0)
      && (restarts == 0 ==> allowed <= limit)
  {
    AllowedIsAdmitted(site, ss, es, k, agent, index);
    L.WindowAdmitsMinIff(ss[0].world.space, Subject(agent), site.invokesPerMinute, 60, ChecksIn(ss, es, k, agent), index);
  }

  // Up to the k-th state the INCRs of the agent's checks have arrived within the minutes of their clock readings.
  ghost predicate PromptChecks(ss: seq<State>, es: seq<Event>, k: nat, agent: string)
    requires |ss| == |es| + 1 && k < |ss|
  {
    forall x :: 0 <= x < k ==> PromptCheck(ss[x], es[x], agent)
  }

  ghost predicate PromptCheck(s: State, e: Event, agent: string) {
    e.Do? && e.act.CheckRate? && e.act.agent == agent ==> s.world.now < (L.WindowOf(e.act.read, 60) + 1) as real * 60.0
  }

  ghost predicate Orderly(checks: seq<L.Event>, now: real) {
    L.Monotone(checks) && L.Prompt(checks, 60) && (checks != [] ==> checks[|checks| - 1].at <= now)
  }

  lemma OrderlyGrows(checks: seq<L.Event>, e: L.Event, now: real)
    requires Orderly(checks, now) && e.at == now
    requires e.Hit? ==> e.read <= e.at < (L.WindowOf(e.read, 60) + 1) as real * 60.0
    ensures Orderly(checks + [e], now)
  {
    assert forall i :: 0 <= i < |checks| ==> checks[i].at <= checks[|checks| - 1].at;
  }

  lemma OrderlyStep(site: Site, s: State, e: Event, agent: string, checks: seq<L.Event>)
    requires Enabled(site, s, e) && PromptCheck(s, e, agent) && Orderly(checks, s.world.now)
    ensures Orderly(checks + ChecksAt(s, e, agent), s.world.now)
  {
    if e.Do? && e.act.CheckRate? && e.act.agent == agent {
      var hit, bound := L.Hit(e.act.read, s.world.now), L.Bound(s.world.now, L.WindowOf(e.act.read, 60));
      OrderlyGrows(checks, hit, s.world.now);
      OrderlyGrows(checks + [hit], bound, s.world.now);
      assert checks + [hit] + [bound] == checks + [hit, bound];
    } else {
      assert checks + [] == checks;
    }
  }

  lemma {:induction false} ChecksAreOrderly(site: Site, ss: seq<State>, es: seq<Event>, k: nat, agent: string)
    requires Run(site, ss, es) && k < |ss| && PromptChecks(ss, es, k, agent)
    ensures Orderly(ChecksIn(ss, es, k, agent), ss[k].world.now)
  {
    if k > 0 {
      ChecksAreOrderly(site, ss, es, k - 1, agent);
      assert PromptCheck(ss[k - 1], es[k - 1], agent);
      OrderlyStep(site, ss[k - 1], es[k - 1], agent, ChecksIn(ss, es, k - 1, agent));
      WorldGrows(site, ss, es, k - 1, k);
    }
  }

  /** If the checks of an agent reach the server within their minutes, every minute lets through exactly min(checks, limit). */
  lemma PromptRateBound(site: Site, ss: seq<State>, es: seq<Event>, k: nat, agent: string, index: int)
    requires Run(site, ss, es) && k < |ss| && CountersLeft(ss, es, k, agent) && PromptChecks(ss, es, k, agent)
    requires L.NoCounters(ss[0].world.space, Subject(agent)) && site.invokesPerMinute >= 0
    ensures
      var hits := L.Hits(ChecksIn(ss, es, k, agent), 60, index);
      AllowedIn(es, k, agent, index) == if hits <= site.invokesPerMinute then hits else site.invokesPerMinute
  {
    ChecksAreOrderly(site, ss, es, k, agent);
    L.PromptNeverRestarts(ss[0].world.space, Subject(agent), 60, ChecksIn(ss, es, k, agent), index);
    RateBound(site, ss, es, k, agent, index);
  }
}
