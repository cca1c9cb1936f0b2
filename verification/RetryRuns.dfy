/**
 Any number of retry loops sharing one breaker, interleaved at their awaits.

 The clock moves between steps.  A loop asks the breaker, gets a reply and records it, or ends
 a backoff; everything between two awaits of one loop is one step.
 */
module RetryRuns {
  import opened Common
  import opened CircuitBreaker
  import opened Retry

  datatype Party = Party(loop: Loop, acts: seq<Act>)

  // `calls` is the history of the breaker, `fields` what it stores.
  datatype State = State(now: real, fields: Fields, calls: seq<Call>, parties: map<nat, Party>)

  datatype Event =
    | Join(c: nat)
    | AskFor(c: nat)
    | Reply(c: nat, reply: Reply)
    | Wake(c: nat)
    | Tick(elapsed: real)

  predicate ValidParams(p: Params) {
    p.hasCircuit && p.maxRetries >= 0 && p.baseDelay >= 0.0
  }

  predicate Enabled(s: State, e: Event) {
    match e
    case Join(c) => c !in s.parties
    case AskFor(c) => c in s.parties && s.parties[c].loop.Ready?
    case Reply(c, _) => c in s.parties && s.parties[c].loop.Waiting?
    case Wake(c) => c in s.parties && s.parties[c].loop.Backoff?
    case Tick(elapsed) => elapsed >= 0.0
  }

  function ActOf(cfg: Config, p: Params, s: State, e: Event): Act
    requires (e.AskFor? || e.Reply? || e.Wake?) && Enabled(s, e)
  {
    match e
    case AskFor(_) => Asked(Grants(cfg, s.fields, s.now))
    case Reply(_, reply) => Answered(reply)
    case Wake(c) => Slept(Delay(p, s.parties[c].loop.attempt))
  }

  // What the event does to the breaker, if anything.
  function CallOf(s: State, e: Event): Option<Call> {
    match e
    case AskFor(_) => Some(Ask(s.now))
    case Reply(_, Replied(_)) => Some(Succeed(s.now))
    case Reply(_, Failed(failure)) => if Retryable(failure) then Some(Fail(s.now, s.now)) else None
    case _ => None
  }

  function Step(cfg: Config, p: Params, s: State, e: Event): State
    requires Enabled(s, e)
  {
    match e
    case Join(c) => s.(parties := s.parties[c := Party(Begin(p), [])])
    case Tick(elapsed) => s.(now := s.now + elapsed)
    case _ =>
      var party := s.parties[e.c];
      var act := ActOf(cfg, p, s, e);
      var next := NextLoop(p, party.loop, act);
      var moved := Party(if next.Some? then next.value else party.loop, party.acts + [act]);
      var call := CallOf(s, e);
      State(s.now,
            if call.Some? then After(cfg, s.fields, call.value) else s.fields,
            if call.Some? then s.calls + [call.value] else s.calls,
            s.parties[e.c := moved])
  }

  ghost predicate Run(cfg: Config, p: Params, ss: seq<State>, es: seq<Event>) {
    && ValidConfig(cfg) && ValidParams(p)
    && |ss| == |es| + 1
    && ss[0].fields == INITIAL && ss[0].calls == [] && ss[0].parties == map[]
    && forall k :: 0 <= k < |es| ==> Enabled(ss[k], es[k]) && ss[k + 1] == Step(cfg, p, ss[k], es[k])
  }

  ghost predicate BreakerConsistent(cfg: Config, s: State) {
    && s.fields == Play(cfg, s.calls)
    && Monotone(s.calls)
    && (s.calls != [] ==> s.calls[|s.calls| - 1].at <= s.now)
  }

  ghost predicate LoopConsistent(p: Params, s: State, c: nat)
    requires c in s.parties
  {
    LoopAfter(p, s.parties[c].acts) == Some(s.parties[c].loop)
  }

  ghost predicate Consistent(cfg: Config, p: Params, s: State) {
    && BreakerConsistent(cfg, s)
    && forall c :: c in s.parties ==> LoopConsistent(p, s, c)
  }

  // An event adds at most its own call to the breaker's history.
  lemma HistoryGrows(cfg: Config, p: Params, s: State, e: Event)
    requires Enabled(s, e)
    ensures
      var t := Step(cfg, p, s, e);
      match CallOf(s, e)
      case None => t.calls == s.calls && t.fields == s.fields
      case Some(c) =>
        && |t.calls| == |s.calls| + 1 && t.calls[..|s.calls|] == s.calls && t.calls[|s.calls|] == c
        && t.fields == After(cfg, s.fields, c) && t.now == s.now == c.at
  {
  }

  lemma MonotoneExtends(cs: seq<Call>, c: Call)
    requires Monotone(cs) && (cs != [] ==> cs[|cs| - 1].at <= c.at) && (c.Fail? ==> c.syncAt == c.at)
    ensures Monotone(cs + [c])
  {
    assert forall i :: 0 <= i < |cs| ==> cs[i].at <= cs[|cs| - 1].at;
  }

  lemma PlayExtends(cfg: Config, cs: seq<Call>, c: Call)
    ensures Play(cfg, cs + [c]) == After(cfg, Play(cfg, cs), c)
  {
    assert (cs + [c])[..|cs|] == cs;
  }

  lemma BreakerConsistentStep(cfg: Config, p: Params, s: State, e: Event)
    requires Enabled(s, e) && BreakerConsistent(cfg, s)
    ensures BreakerConsistent(cfg, Step(cfg, p, s, e))
  {
    HistoryGrows(cfg, p, s, e);
    if CallOf(s, e).Some? {
      var c := CallOf(s, e).value;
      MonotoneExtends(s.calls, c);
      PlayExtends(cfg, s.calls, c);
      assert Step(cfg, p, s, e).calls == s.calls + [c];
    }
  }

  lemma LoopMoves(cfg: Config, p: Params, s: State, e: Event)
    requires (e.AskFor? || e.Reply? || e.Wake?) && Enabled(s, e)
    ensures NextLoop(p, s.parties[e.c].loop, ActOf(cfg, p, s, e)).Some?
  {
  }

  lemma OnePath(p: Params, acts: seq<Act>, a: Act)
    requires LoopAfter(p, acts).Some?
    ensures LoopAfter(p, acts + [a]) == NextLoop(p, LoopAfter(p, acts).value, a)
  {
    assert (acts + [a])[..|acts|] == acts;
  }

  lemma LoopConsistentStep(cfg: Config, p: Params, s: State, e: Event, c: nat)
    requires Enabled(s, e) && c in Step(cfg, p, s, e).parties
    requires c in s.parties ==> LoopConsistent(p, s, c)
    ensures LoopConsistent(p, Step(cfg, p, s, e), c)
  {
    if (e.AskFor? || e.Reply? || e.Wake?) && e.c == c {
      LoopMoves(cfg, p, s, e);
      OnePath(p, s.parties[c].acts, ActOf(cfg, p, s, e));
    }
  }

  lemma ConsistentStep(cfg: Config, p: Params, s: State, e: Event)
    requires Enabled(s, e) && Consistent(cfg, p, s)
    ensures Consistent(cfg, p, Step(cfg, p, s, e))
  {
    BreakerConsistentStep(cfg, p, s, e);
    forall c | c in Step(cfg, p, s, e).parties ensures LoopConsistent(p, Step(cfg, p, s, e), c) {
      LoopConsistentStep(cfg, p, s, e, c);
    }
  }

  /** Every loop of every run follows the loop automaton, and the breaker stores what its history dictates. */
  lemma {:induction false} AlwaysConsistent(cfg: Config, p: Params, ss: seq<State>, es: seq<Event>, k: nat)
    requires Run(cfg, p, ss, es) && k < |ss|
    ensures Consistent(cfg, p, ss[k])
    ensures Explained(cfg, ss[k].calls, ss[k].fields)
  {
    if k > 0 {
      AlwaysConsistent(cfg, p, ss, es, k - 1);
      ConsistentStep(cfg, p, ss[k - 1], es[k - 1]);
    }
    FieldsExplained(cfg, ss[k].calls);
  }

  // The event is an ask that the breaker grants.
  ghost predicate Starts(cfg: Config, s: State, e: Event) {
    e.AskFor? && Enabled(s, e) && Grants(cfg, s.fields, s.now)
  }

  ghost predicate RecordsSomething(s: State, e: Event) {
    CallOf(s, e).Some? && IsRecord(CallOf(s, e).value)
  }

  lemma GrantMatchesHistory(cfg: Config, p: Params, s: State)
    requires ValidConfig(cfg) && Consistent(cfg, p, s)
    ensures Grants(cfg, s.fields, s.now) <==> ShouldGrant(cfg, s.calls, s.now)
  {
    FieldsExplained(cfg, s.calls);
    GrantExplained(cfg, s.calls, s.fields, s.now);
  }

  lemma {:induction false} SlotStaysTaken(cfg: Config, p: Params, ss: seq<State>, es: seq<Event>, k: nat, m: nat)
    requires Run(cfg, p, ss, es) && k < m < |ss|
    requires Starts(cfg, ss[k], es[k])
    requires forall x :: k < x < m ==> !RecordsSomething(ss[x], es[x])
    ensures GrantedSinceFailure(cfg, ss[m].calls)
    decreases m
  {
    AlwaysConsistent(cfg, p, ss, es, m - 1);
    var s, e := ss[m - 1], es[m - 1];
    if m - 1 == k {
      GrantMatchesHistory(cfg, p, s);
    } else {
      SlotStaysTaken(cfg, p, ss, es, k, m - 1);
    }
    SlotKept(cfg, p, s, e);
  }

  // A grant takes the slot, and only a record frees it.
  lemma SlotKept(cfg: Config, p: Params, s: State, e: Event)
    requires Enabled(s, e) && !RecordsSomething(s, e)
    requires GrantedSinceFailure(cfg, s.calls) || (e.AskFor? && ShouldGrant(cfg, s.calls, s.now))
    ensures GrantedSinceFailure(cfg, Step(cfg, p, s, e).calls)
    ensures FailuresSinceSuccess(Step(cfg, p, s, e).calls) == FailuresSinceSuccess(s.calls)
  {
    HistoryGrows(cfg, p, s, e);
  }

  /** Probe exclusivity over runs: while the breaker is tripped, two calls never start without a record in between. */
  lemma ProbesAreSeparated(cfg: Config, p: Params, ss: seq<State>, es: seq<Event>, k: nat, m: nat)
    requires Run(cfg, p, ss, es) && k < m < |es|
    requires Starts(cfg, ss[k], es[k]) && Starts(cfg, ss[m], es[m])
    requires !ss[m].fields.status.Closed?
    ensures exists x :: k < x < m && RecordsSomething(ss[x], es[x])
  {
    AlwaysConsistent(cfg, p, ss, es, m);
    GrantMatchesHistory(cfg, p, ss[m]);
    if forall x :: k < x < m ==> !RecordsSomething(ss[x], es[x]) {
      SlotStaysTaken(cfg, p, ss, es, k, m);
    }
  }

  ghost predicate InFlight(s: State, c: nat) {
    c in s.parties && s.parties[c].loop.Waiting?
  }

  // A provider failure that the loop does not retry and the breaker never hears of.
  ghost predicate IsRejection(e: Event) {
    e.Reply? && e.reply.Failed? && !Retryable(e.reply.failure)
  }

  // The loop whose call holds the probe slot: the one granted last while tripped, if nobody has recorded since.
  ghost function ProberAt(cfg: Config, ss: seq<State>, es: seq<Event>, k: nat): Option<nat>
    requires |ss| == |es| + 1 && k <= |es|
    requires forall x :: 0 <= x < k ==> Enabled(ss[x], es[x])
  {
    if k == 0 then None
    else
      var s, e := ss[k - 1], es[k - 1];
      NextProber(cfg, s, e, ProberAt(cfg, ss, es, k - 1))
  }

  // The probe itself is answered with a failure that is neither retried nor recorded.
  ghost predicate RejectsProbe(cfg: Config, ss: seq<State>, es: seq<Event>, x: nat)
    requires |ss| == |es| + 1 && x < |es|
    requires forall y :: 0 <= y < x ==> Enabled(ss[y], es[y])
  {
    IsRejection(es[x]) && ProberAt(cfg, ss, es, x) == Some(es[x].c)
  }

  ghost function NextProber(cfg: Config, s: State, e: Event, prober: Option<nat>): Option<nat>
    requires Enabled(s, e)
  {
    if RecordsSomething(s, e) then None else if Starts(cfg, s, e) && IsTripped(cfg, s.calls) then Some(e.c) else prober
  }

  // The slot is taken exactly while there is a prober.
  ghost predicate SlotTaken(cfg: Config, s: State, prober: Option<nat>) {
    prober.Some? <==> IsTripped(cfg, s.calls) && GrantedSinceFailure(cfg, s.calls)
  }

  lemma SlotTakenStep(cfg: Config, p: Params, s: State, e: Event, prober: Option<nat>)
    requires ValidConfig(cfg) && Enabled(s, e) && Consistent(cfg, p, s) && SlotTaken(cfg, s, prober)
    ensures SlotTaken(cfg, Step(cfg, p, s, e), NextProber(cfg, s, e, prober))
  {
    HistoryGrows(cfg, p, s, e);
    GrantMatchesHistory(cfg, p, s);
  }

  lemma {:induction false} AlwaysTaken(cfg: Config, p: Params, ss: seq<State>, es: seq<Event>, k: nat)
    requires Run(cfg, p, ss, es) && k < |ss|
    ensures SlotTaken(cfg, ss[k], ProberAt(cfg, ss, es, k))
  {
    if k > 0 {
      AlwaysTaken(cfg, p, ss, es, k - 1);
      AlwaysConsistent(cfg, p, ss, es, k - 1);
      SlotTakenStep(cfg, p, ss[k - 1], es[k - 1], ProberAt(cfg, ss, es, k - 1));
    }
  }

  // A prober's call is in flight as long as no probe has been rejected.
  lemma {:induction false} ProberIsInFlight(cfg: Config, p: Params, ss: seq<State>, es: seq<Event>, k: nat)
    requires Run(cfg, p, ss, es) && k < |ss|
    requires forall x :: 0 <= x < k ==> !RejectsProbe(cfg, ss, es, x)
    ensures ProberAt(cfg, ss, es, k).Some? ==> InFlight(ss[k], ProberAt(cfg, ss, es, k).value)
  {
    if k > 0 {
      ProberIsInFlight(cfg, p, ss, es, k - 1);
      assert !RejectsProbe(cfg, ss, es, k - 1);
      FlightStep(cfg, p, ss[k - 1], es[k - 1], ProberAt(cfg, ss, es, k - 1));
    }
  }

  lemma FlightStep(cfg: Config, p: Params, s: State, e: Event, prober: Option<nat>)
    requires Enabled(s, e) && (prober.Some? ==> InFlight(s, prober.value)) && !(IsRejection(e) && prober == Some(e.c))
    ensures
      var next := NextProber(cfg, s, e, prober);
      next.Some? ==> InFlight(Step(cfg, p, s, e), next.value)
  {
  }

  /**
   Recovery: if every probe that was answered so far ended in success or a retryable failure, then
   in a tripped state whose reset window is over and whose probe, if any, is not in flight, the
   next ask is granted, and a success of that probe closes the breaker.  What other calls were
   answered, before the breaker tripped or as stragglers, does not matter.
   */
  lemma ElapsedWindowRecovers(cfg: Config, p: Params, ss: seq<State>, es: seq<Event>, k: nat, c: nat, result: Json)
    requires Run(cfg, p, ss, es) && k < |ss|
    requires forall x :: 0 <= x < k ==> !RejectsProbe(cfg, ss, es, x)
    requires !ss[k].fields.status.Closed? && (ProberAt(cfg, ss, es, k).Some? ==> !InFlight(ss[k], ProberAt(cfg, ss, es, k).value))
    requires ss[k].fields.openedAt.Some? && ss[k].now - ss[k].fields.openedAt.value >= cfg.reset
    requires c in ss[k].parties && ss[k].parties[c].loop.Ready?
    ensures
      var probing := Step(cfg, p, ss[k], AskFor(c));
      && InFlight(probing, c)
      && Step(cfg, p, probing, Reply(c, Replied(result))).fields == INITIAL
  {
    AlwaysConsistent(cfg, p, ss, es, k);
    AlwaysTaken(cfg, p, ss, es, k);
    ProberIsInFlight(cfg, p, ss, es, k);
    GrantMatchesHistory(cfg, p, ss[k]);
  }

  // Tripped, the probe slot taken, and nobody left who could record anything.
  ghost predicate Wedged(cfg: Config, s: State) {
    && IsTripped(cfg, s.calls) && GrantedSinceFailure(cfg, s.calls)
    && forall c :: !InFlight(s, c)
  }

  /** With no call in flight a breaker is wedged if and only if its last probe was answered without a record. */
  lemma WedgedIffProbeUnrecorded(cfg: Config, p: Params, ss: seq<State>, es: seq<Event>, k: nat)
    requires Run(cfg, p, ss, es) && k < |ss| && forall d :: !InFlight(ss[k], d)
    ensures Wedged(cfg, ss[k]) <==> ProberAt(cfg, ss, es, k).Some?
    ensures Wedged(cfg, ss[k]) ==> exists x :: 0 <= x < k && RejectsProbe(cfg, ss, es, x)
  {
    AlwaysTaken(cfg, p, ss, es, k);
    if Wedged(cfg, ss[k]) && forall x :: 0 <= x < k ==> !RejectsProbe(cfg, ss, es, x) {
      ProberIsInFlight(cfg, p, ss, es, k);
    }
  }

  lemma WedgedStep(cfg: Config, p: Params, s: State, e: Event)
    requires ValidParams(p) && Enabled(s, e) && Wedged(cfg, s) && !Grants(cfg, s.fields, s.now)
    ensures Wedged(cfg, Step(cfg, p, s, e))
  {
    var t := Step(cfg, p, s, e);
    assert e.Reply? ==> InFlight(s, e.c);
    SlotKept(cfg, p, s, e);
    forall c ensures !InFlight(t, c) {
      assert !InFlight(s, c);
    }
  }

  lemma WedgedRefuses(cfg: Config, p: Params, s: State)
    requires ValidConfig(cfg) && Consistent(cfg, p, s) && Wedged(cfg, s)
    ensures !Grants(cfg, s.fields, s.now)
  {
    GrantMatchesHistory(cfg, p, s);
  }

  lemma {:induction false} WedgedStays(cfg: Config, p: Params, ss: seq<State>, es: seq<Event>, k: nat, m: nat)
    requires Run(cfg, p, ss, es) && k <= m < |ss| && Wedged(cfg, ss[k])
    ensures Wedged(cfg, ss[m])
    decreases m
  {
    if k < m {
      WedgedStays(cfg, p, ss, es, k, m - 1);
      AlwaysConsistent(cfg, p, ss, es, m - 1);
      WedgedRefuses(cfg, p, ss[m - 1]);
      WedgedStep(cfg, p, ss[m - 1], es[m - 1]);
    }
  }

  /** Once wedged, always wedged: no later ask of any loop is ever granted. */
  lemma WedgedForever(cfg: Config, p: Params, ss: seq<State>, es: seq<Event>, k: nat, m: nat)
    requires Run(cfg, p, ss, es) && k <= m < |ss| && Wedged(cfg, ss[k])
    ensures Wedged(cfg, ss[m])
    ensures !Grants(cfg, ss[m].fields, ss[m].now)
  {
    WedgedStays(cfg, p, ss, es, k, m);
    AlwaysConsistent(cfg, p, ss, es, m);
    WedgedRefuses(cfg, p, ss[m]);
  }

  /**
   Exactly when a tripped breaker with no call in flight can recover: a later ask can be
   granted if and only if the probe slot is free, and then waiting out the reset window is enough.
   */
  lemma RecoversIffSlotFree(cfg: Config, p: Params, ss: seq<State>, es: seq<Event>, k: nat, c: nat)
    requires Run(cfg, p, ss, es) && k < |ss|
    requires !ss[k].fields.status.Closed? && (forall d :: !InFlight(ss[k], d))
    requires c in ss[k].parties && ss[k].parties[c].loop.Ready?
    ensures InFlight(Step(cfg, p, Step(cfg, p, ss[k], Tick(cfg.reset)), AskFor(c)), c)
       <==> !(ss[k].fields.status.HalfOpen? && ss[k].fields.probing)
    ensures Wedged(cfg, ss[k]) <==> ss[k].fields.status.HalfOpen? && ss[k].fields.probing
  {
    AlwaysConsistent(cfg, p, ss, es, k);
    var waited := Step(cfg, p, ss[k], Tick(cfg.reset));
    ConsistentStep(cfg, p, ss[k], Tick(cfg.reset));
    GrantMatchesHistory(cfg, p, waited);
    LastFailureIsPast(cfg, ss[k].calls, ss[k].now);
  }

  lemma {:induction false} LastFailureIsPast(cfg: Config, cs: seq<Call>, now: real)
    requires Monotone(cs) && (cs != [] ==> cs[|cs| - 1].at <= now)
    ensures LastFailure(cs).Some? ==> LastFailure(cs).value <= now
  {
    if cs != [] {
      LastFailureIsPast(cfg, cs[..|cs| - 1], now);
    }
  }

  // Threshold 1: a 503 has tripped the breaker, and the reset window is over.
  lemma TrippedExample(cfg: Config, p: Params) returns (ss: seq<State>, es: seq<Event>)
    requires cfg == Config(1, 30.0) && p == Params(0, 0.2, true)
    ensures Run(cfg, p, ss, es) && es == [Join(0), AskFor(0), Reply(0, Failed(ProviderStatus(Some(503)))), Tick(30.0)]
    ensures ss[4].now == 30.0 && ss[4].calls == [Ask(0.0), Fail(0.0, 0.0)] && ss[4].fields == Fields(Open, 1, Some(0.0), false)
    ensures ss[4].parties.Keys == {0} && ss[4].parties[0].loop.Over?
  {
    es := [Join(0), AskFor(0), Reply(0, Failed(ProviderStatus(Some(503)))), Tick(30.0)];
    var s0 := State(0.0, INITIAL, [], map[]);
    var s1 := Step(cfg, p, s0, es[0]);
    var s2 := Step(cfg, p, s1, es[1]);
    assert s2.parties[0].loop == Waiting(0);
    var s3 := Step(cfg, p, s2, es[2]);
    ss := [s0, s1, s2, s3, Step(cfg, p, s3, es[3])];
  }

  /** A probe answered with a 404 wedges the breaker: with threshold 1, one 503 and one 404 are enough. */
  lemma RejectedProbeWedges() returns (cfg: Config, p: Params, ss: seq<State>, es: seq<Event>)
    ensures Run(cfg, p, ss, es) && |es| == 7 && Wedged(cfg, ss[7])
    ensures es[2] == Reply(0, Failed(ProviderStatus(Some(503)))) && es[6] == Reply(1, Failed(ProviderStatus(Some(404))))
  {
    cfg, p := Config(1, 30.0), Params(0, 0.2, true);
    ss, es := TrippedExample(cfg, p);
    var more := [Join(1), AskFor(1), Reply(1, Failed(ProviderStatus(Some(404))))];
    var s5 := Step(cfg, p, ss[4], more[0]);
    var s6 := Step(cfg, p, s5, more[1]);
    assert s6.parties[1].loop == Waiting(0);
    var s7 := Step(cfg, p, s6, more[2]);
    ss, es := ss + [s5, s6, s7], es + more;
    var cs := s7.calls;
    assert cs == [Ask(0.0), Fail(0.0, 0.0), Ask(30.0)];
    assert cs[..2] == [Ask(0.0), Fail(0.0, 0.0)] && cs[..2][..1] == [Ask(0.0)];
    assert FailuresSinceSuccess(cs[..2]) == FailuresSinceSuccess([Ask(0.0)]) + 1;
    assert ShouldGrant(cfg, cs[..2], 30.0);
  }
}
