/**
 The time a reservation must last, derived from the settings.

 `RetryBudget` is about one outbound phase: the time its calls and backoffs can take, exactly.
 `PathBudget` bounds a whole invocation, `RunBudget` turns the bound into the timing hypothesis
 of the idempotency theorems.
 */
module RetryBudget {
  import opened Common
  import opened Retry
  import P = InvokePath
  import I = Idempotency

  // n times x
  function Times(x: real, n: nat): real {
    if n == 0 then 0.0 else Times(x, n - 1) + x
  }

  lemma {:induction false} TimesIsProduct(x: real, n: nat)
    ensures Times(x, n) == x * n as real
  {
    if n > 0 {
      TimesIsProduct(x, n - 1);
      assert x * (n - 1) as real + x == x * n as real;
    }
  }

  lemma {:induction false} Scaled(x: real, m: nat, n: nat)
    requires x >= 0.0 && m <= n
    ensures 0.0 <= Times(x, m) <= Times(x, n)
  {
    if m < n {
      Scaled(x, m, n - 1);
    } else if m > 0 {
      Scaled(x, m - 1, m - 1);
    }
  }

  // The time the calls and sleeps of a loop take when every call takes `perCall`.
  function Spent(acts: seq<Act>, perCall: real): real {
    Times(perCall, Calls(acts)) + TotalSleep(acts)
  }

  function WorstCase(p: Params, perCall: real): real {
    Times(perCall, 1 + AtLeastZero(p.maxRetries)) + Geometric(p.baseDelay, AtLeastZero(p.maxRetries))
  }

  lemma LoopStaysWithin(p: Params, acts: seq<Act>, perCall: real)
    requires LoopAfter(p, acts).Some? && perCall >= 0.0 && p.baseDelay >= 0.0
    ensures Spent(acts, perCall) <= WorstCase(p, perCall)
  {
    Accounting(p, acts);
    BackoffTotal(p, acts);
    Scaled(perCall, Calls(acts), 1 + AtLeastZero(p.maxRetries));
    P.GeometricGrows(p.baseDelay, Sleeps(acts), AtLeastZero(p.maxRetries));
  }

  // A granted attempt that times out.
  function Attempt(p: Params): seq<Act> {
    if p.hasCircuit then [Asked(true), Answered(Failed(Timeout))] else [Answered(Failed(Timeout))]
  }

  // n attempts time out, each followed by its backoff.
  function TimeOuts(p: Params, n: nat): seq<Act> {
    if n == 0 then [] else TimeOuts(p, n - 1) + Attempt(p) + [Slept(Delay(p, n - 1))]
  }

  lemma AttemptRuns(p: Params, acts: seq<Act>, n: nat)
    requires LoopAfter(p, acts) == Some(Enter(p, n)) && n <= p.maxRetries
    ensures LoopAfter(p, acts + Attempt(p)) == Some(if n >= p.maxRetries then Over(Raised(Timeout)) else Backoff(n))
    ensures Calls(acts + Attempt(p)) == Calls(acts) + 1 && Sleeps(acts + Attempt(p)) == Sleeps(acts)
  {
    if p.hasCircuit {
      var asked := acts + [Asked(true)];
      assert asked[..|acts|] == acts;
      assert acts + Attempt(p) == asked + [Answered(Failed(Timeout))];
      assert (asked + [Answered(Failed(Timeout))])[..|asked|] == asked;
    } else {
      assert (acts + [Answered(Failed(Timeout))])[..|acts|] == acts;
    }
  }

  lemma BackoffRuns(p: Params, acts: seq<Act>, n: nat)
    requires LoopAfter(p, acts) == Some(Backoff(n))
    ensures
      var longer := acts + [Slept(Delay(p, n))];
      LoopAfter(p, longer) == Some(Enter(p, n + 1)) && Calls(longer) == Calls(acts) && Sleeps(longer) == Sleeps(acts) + 1
  {
    assert (acts + [Slept(Delay(p, n))])[..|acts|] == acts;
  }

  // After n attempts that timed out the loop is at its next attempt.
  predicate TimedOut(p: Params, acts: seq<Act>, n: nat) {
    LoopAfter(p, acts) == Some(Enter(p, n)) && Calls(acts) == n && Sleeps(acts) == n
  }

  lemma OneMoreTimeOut(p: Params, prior: seq<Act>, n: nat)
    requires TimedOut(p, prior, n) && n < p.maxRetries
    ensures TimedOut(p, prior + Attempt(p) + [Slept(Delay(p, n))], n + 1)
  {
    AttemptRuns(p, prior, n);
    BackoffRuns(p, prior + Attempt(p), n);
  }

  lemma {:induction false} TimeOutsRun(p: Params, n: nat)
    requires p.maxRetries >= 0 && p.baseDelay >= 0.0 && n <= p.maxRetries
    ensures TimedOut(p, TimeOuts(p, n), n)
  {
    if n > 0 {
      TimeOutsRun(p, n - 1);
      OneMoreTimeOut(p, TimeOuts(p, n - 1), n - 1);
      assert TimeOuts(p, n) == TimeOuts(p, n - 1) + Attempt(p) + [Slept(Delay(p, n - 1))];
    }
  }

  /** The worst case happens: every attempt is granted and times out. */
  lemma WorstCaseHappens(p: Params, perCall: real) returns (acts: seq<Act>)
    requires p.maxRetries >= 0 && p.baseDelay >= 0.0
    ensures LoopAfter(p, acts) == Some(Over(Raised(Timeout))) && Spent(acts, perCall) == WorstCase(p, perCall)
  {
    TimeOutsRun(p, p.maxRetries);
    AttemptRuns(p, TimeOuts(p, p.maxRetries), p.maxRetries);
    acts := TimeOuts(p, p.maxRetries) + Attempt(p);
    BackoffTotal(p, acts);
  }

  /** One outbound phase always ends within a time limit if and only if (1 + max_retries) calls and the whole backoff do. */
  lemma PhaseFitsIff(p: Params, perCall: real, limit: real)
    requires p.maxRetries >= 0 && p.baseDelay >= 0.0 && perCall >= 0.0
    ensures (forall acts :: LoopAfter(p, acts).Some? ==> Spent(acts, perCall) < limit) <==> WorstCase(p, perCall) < limit
  {
    var worst := WorstCaseHappens(p, perCall);
    forall acts | LoopAfter(p, acts).Some? ensures Spent(acts, perCall) <= WorstCase(p, perCall) {
      LoopStaysWithin(p, acts, perCall);
    }
  }

  lemma DefaultWorstCase()
    ensures WorstCase(Params(3, 0.2, true), 15.0) == 61.4
  {
    assert Pow2(3) == 2 * Pow2(2) == 8;
    TimesIsProduct(15.0, 4);
  }

  /**
   With the default three retries and 0.2 s of base delay, and the client's 15 s timeout, an
   outbound phase that times out takes 61.4 s, which is longer than a reservation lasts.
   */
  lemma DefaultsOutlastReservation() returns (acts: seq<Act>)
    ensures LoopAfter(Params(3, 0.2, true), acts) == Some(Over(Raised(Timeout)))
    ensures Spent(acts, 15.0) == 61.4 > I.RESERVATION_TTL_SECONDS as real
  {
    acts := WorstCaseHappens(Params(3, 0.2, true), 15.0);
    DefaultWorstCase();
  }
}

module PathBudget {
  import opened Common
  import opened InvokePath
  import GrantToken
  import R = Retry
  import B = RetryBudget

  // At most this long for one provider call, and for anything else between two acts.
  datatype Pace = Pace(perCall: real, perStep: real)

  predicate ValidPace(pace: Pace) {
    pace.perCall >= 0.0 && pace.perStep >= 0.0
  }

  function Cost(pace: Pace, a: Act): real {
    pace.perStep
    + (if a.Provide? && a.step.Answered? then pace.perCall else 0.0)
    + (if a.Provide? && a.step.Slept? then a.step.delay else 0.0)
  }

  // How long the next act may take in a phase.
  function Allowance(cfg: Config, pace: Pace, p: Phase): real {
    pace.perStep
    + (if p.Calling? && p.loop.Waiting? then pace.perCall else 0.0)
    + (if p.Calling? && p.loop.Backoff? then R.Delay(LoopParams(cfg), p.loop.attempt) else 0.0)
  }

  lemma AllowanceIsCost(cfg: Config, req: Request, pace: Pace, p: Phase, a: Act)
    requires Next(cfg, req, p, a).Some?
    ensures Cost(pace, a) == Allowance(cfg, pace, p)
  {
  }

  function TotalCost(pace: Pace, acts: seq<Act>): real {
    if acts == [] then 0.0 else TotalCost(pace, acts[..|acts| - 1]) + Cost(pace, acts[|acts| - 1])
  }

  // What the acts after the reservation cost.
  function CostSince(pace: Pace, acts: seq<Act>): real {
    if acts == [] then 0.0
    else
      var a := acts[|acts| - 1];
      if a.ReserveKey? && a.held.Some? then 0.0 else CostSince(pace, acts[..|acts| - 1]) + Cost(pace, a)
  }

  // The longest an invocation can take.
  function Budget(cfg: Config, pace: Pace): real {
    B.Times(pace.perCall, 2 * PhaseCalls(cfg)) + 2.0 * PhaseSleep(cfg)
    + B.Times(pace.perStep, 6 * (1 + R.AtLeastZero(cfg.maxRetries)) + 19)
  }

  // Some act that is possible in a phase.
  function SomeAct(cfg: Config, req: Request, p: Phase): Act {
    match p
    case Gate(Start) => Verify(Err(GrantToken.Error.Invalid))
    case Gate(Verified(_)) => ReadMarker(false)
    case Gate(Checked(_, _)) => ReadRow(None)
    case Gate(Resolved(_)) => ReadClock(0.0)
    case Prep(_, Dating(_)) => ReadClock(0.0)
    case Prep(_, Overdue(_)) => ReadClock(0.0)
    case Calling(_, _, cred, Ready(_)) => Provide(cred.token, R.Asked(true))
    case Calling(_, _, cred, Waiting(_)) => Provide(cred.token, R.Answered(R.Failed(R.Timeout)))
    case Calling(_, _, cred, Backoff(n)) => Provide(cred.token, R.Slept(R.Delay(LoopParams(cfg), n)))
    case Closing(f, Settling(owner), _) => Compare(FullKey(req, f), owner, true)
    case Closing(f, Writing(owner), o) => Write(FullKey(req, f), owner, Kept(o))
    case Closing(f, Auditing, o) => Audit(f.id, StatusOf(o))
    case _ => Crash
  }

  // An invocation that has not ended can always take a further act.
  lemma SomeActFits(cfg: Config, req: Request, p: Phase)
    requires Sane(cfg, p) && !p.Ended?
    ensures Next(cfg, req, p, SomeAct(cfg, req, p)).Some?
  {
  }

  lemma {:induction false} CostIsSum(pace: Pace, acts: seq<Act>)
    ensures TotalCost(pace, acts) == B.Times(pace.perStep, |acts|) + B.Times(pace.perCall, Sends(acts)) + SleepTime(acts)
  {
    if acts != [] {
      var prior := acts[..|acts| - 1];
      CostIsSum(pace, prior);
    }
  }

  /** No path costs more than the budget. */
  lemma PathStaysWithin(cfg: Config, req: Request, pace: Pace, acts: seq<Act>)
    requires PhaseAfter(cfg, req, acts).Some? && ValidPace(pace)
    ensures TotalCost(pace, acts) <= Budget(cfg, pace)
  {
    CostIsSum(pace, acts);
    PathsAreShort(cfg, req, acts);
    OutboundBound(cfg, req, acts);
    BackoffBound(cfg, req, acts);
    B.Scaled(pace.perCall, Sends(acts), 2 * PhaseCalls(cfg));
    B.Scaled(pace.perStep, |acts|, 6 * (1 + R.AtLeastZero(cfg.maxRetries)) + 19);
  }

  lemma {:induction false} SinceIsPart(cfg: Config, req: Request, pace: Pace, acts: seq<Act>)
    requires PhaseAfter(cfg, req, acts).Some? && ValidPace(pace)
    ensures 0.0 <= CostSince(pace, acts) <= TotalCost(pace, acts)
  {
    if acts != [] {
      var prior := acts[..|acts| - 1];
      SinceIsPart(cfg, req, pace, prior);
      BackoffBound(cfg, req, prior);
      CostAtLeastZero(cfg, req, pace, SleepTime(prior), PhaseAfter(cfg, req, prior).value, acts[|acts| - 1]);
    }
  }

  lemma CostAtLeastZero(cfg: Config, req: Request, pace: Pace, slept: real, p: Phase, a: Act)
    requires Next(cfg, req, p, a).Some? && SleptSoFar(cfg, slept, p) && ValidPace(pace)
    ensures Cost(pace, a) >= 0.0
  {
    if p.Calling? && p.loop.Backoff? {
      DelayAtLeastZero(LoopParams(cfg), p.loop.attempt);
    }
  }

  /** From the reservation to the act that is still to come, an invocation takes at most the budget. */
  lemma HolderStaysWithin(cfg: Config, req: Request, pace: Pace, acts: seq<Act>)
    requires PhaseAfter(cfg, req, acts).Some? && !PhaseAfter(cfg, req, acts).value.Ended? && ValidPace(pace)
    ensures CostSince(pace, acts) + Allowance(cfg, pace, PhaseAfter(cfg, req, acts).value) <= Budget(cfg, pace)
  {
    var p := PhaseAfter(cfg, req, acts).value;
    PathsAreShort(cfg, req, acts);
    SomeActFits(cfg, req, p);
    var a := SomeAct(cfg, req, p);
    var longer := acts + [a];
    assert longer[..|acts|] == acts;
    AllowanceIsCost(cfg, req, pace, p, a);
    PathStaysWithin(cfg, req, pace, longer);
    SinceIsPart(cfg, req, pace, acts);
  }
}

module RunBudget {
  import opened Common
  import opened InvokePath
  import opened InvokeView
  import opened InvokeRuns
  import opened InvokeOnce
  import opened PathBudget
  import I = Idempotency
  import Redis

  // Nobody is overdue: each unfinished invocation is still within the time allowed for its next act.
  ghost predicate Prompt(site: Site, pace: Pace, s: State) {
    forall i :: At(s, i) ==> PromptOne(site, pace, s, i)
  }

  ghost predicate PromptOne(site: Site, pace: Pace, s: State, i: nat)
    requires At(s, i)
  {
    var v := s.invs[i];
    v.times != [] && !v.phase.Ended? ==> s.world.now <= v.times[|v.times| - 1] + Allowance(site.cfg, pace, v.phase)
  }

  // When the reservation was made.
  function ReservedAt(acts: seq<Act>, times: seq<real>): Option<real>
    requires |acts| == |times|
  {
    if acts == [] then None
    else
      var a := acts[|acts| - 1];
      if a.ReserveKey? && a.held.Some? then Some(times[|times| - 1]) else ReservedAt(acts[..|acts| - 1], times[..|times| - 1])
  }

  // Since its reservation an invocation has taken no longer than its acts may cost.
  ghost predicate Paced(pace: Pace, v: Invocation) {
    && |v.times| == |v.acts|
    && (ReservedAt(v.acts, v.times).Some? ==> v.times[|v.times| - 1] <= ReservedAt(v.acts, v.times).value + CostSince(pace, v.acts))
  }

  lemma {:induction false} ReservedAtNonempty(acts: seq<Act>, times: seq<real>)
    requires |acts| == |times| && ReservedAt(acts, times).Some?
    ensures acts != []
  {
  }

  lemma PacedAct(site: Site, pace: Pace, s: State, i: nat, a: Act)
    requires DoEnabled(site, s, i, a) && Paced(pace, s.invs[i]) && PromptOne(site, pace, s, i)
    requires !s.invs[i].phase.Ended?
    ensures Paced(pace, Acted(site, s.invs[i], a, s.world.now))
  {
    var v := s.invs[i];
    var u := Acted(site, v, a, s.world.now);
    assert u.acts[..|v.acts|] == v.acts && u.times[..|v.times|] == v.times;
    AllowanceIsCost(site.cfg, v.req, pace, v.phase, a);
  }

  lemma EndedStays(cfg: Config, req: Request, p: Phase, a: Act)
    requires Next(cfg, req, p, a).Some?
    ensures !p.Ended?
  {
  }

  lemma PacedStep(site: Site, pace: Pace, s: State, e: Event, i: nat)
    requires Enabled(site, s, e) && Prompt(site, pace, s) && At(Step(site, s, e), i) && (At(s, i) ==> Paced(pace, s.invs[i]))
    ensures Paced(pace, Step(site, s, e).invs[i])
  {
    if At(s, i) {
      StepOthers(site, s, e, i);
      if e.Do? && e.i == i {
        assert PromptOne(site, pace, s, i);
        EndedStays(site.cfg, s.invs[i].req, s.invs[i].phase, e.act);
        PacedAct(site, pace, s, i, e.act);
      }
    } else {
      StepNewcomer(site, s, e, i);
    }
  }

  ghost predicate PromptUntil(site: Site, pace: Pace, ss: seq<State>, k: nat)
    requires k < |ss|
  {
    forall x :: 0 <= x <= k ==> Prompt(site, pace, ss[x])
  }

  lemma {:induction false} AlwaysPaced(site: Site, pace: Pace, ss: seq<State>, es: seq<Event>, k: nat, i: nat)
    requires Run(site, ss, es) && k < |ss| && PromptUntil(site, pace, ss, k) && At(ss[k], i)
    ensures Paced(pace, ss[k].invs[i])
  {
    if k > 0 {
      if At(ss[k - 1], i) {
        AlwaysPaced(site, pace, ss, es, k - 1, i);
      }
      PacedStep(site, pace, ss[k - 1], es[k - 1], i);
    }
  }

  // ---- Whose marker is stored, and until when ----

  // No marker carries an owner token that has not been drawn.
  ghost predicate Unclaimed(s: State) {
    forall key, owner :: Marked(s, key, owner) ==> owner in s.owners
  }

  // A holder's marker dies with the reservation that wrote it.
  ghost predicate Dated(s: State, i: nat, key: string, owner: string) {
    HoldsKey(s, i, key, owner) && |s.invs[i].times| == |s.invs[i].acts| ==>
      var at := ReservedAt(s.invs[i].acts, s.invs[i].times);
      && at.Some?
      && (Marked(s, key, owner) ==>
            s.world.space[Redis.IdemName(key)].deadline == Some(at.value + I.RESERVATION_TTL_SECONDS as real))
  }

  // What an act writes under a key: its owner's marker, or a result.
  lemma WrittenValue(site: Site, s: State, i: nat, a: Act, key: string, owner: string)
    requires DoEnabled(site, s, i, a) && StoresObject(s.invs[i].phase) && Touches(a, key)
    requires Marked(Step(site, s, Do(i, a)), key, owner)
    ensures a.ReserveKey? && a.held == Some(owner)
    ensures Step(site, s, Do(i, a)).world.space[Redis.IdemName(key)].deadline == Some(s.world.now + I.RESERVATION_TTL_SECONDS as real)
  {
    StoresObjectAct(site.cfg, s.invs[i].req, s.invs[i].phase, a);
    assert I.PendingValue(owner)[0] == '_';
    if a.ReserveKey? {
      I.PendingValueInjective(owner, a.held.value);
    }
  }

  lemma StoredBefore(site: Site, s: State, i: nat, a: Act, key: string, owner: string)
    requires DoEnabled(site, s, i, a) && !Touches(a, key)
    ensures Marked(Step(site, s, Do(i, a)), key, owner) <==> Marked(s, key, owner)
    ensures Marked(s, key, owner) ==> Step(site, s, Do(i, a)).world.space[Redis.IdemName(key)] == s.world.space[Redis.IdemName(key)]
  {
    ActLeavesEntry(DeskOf(site), a, StoresOf(s), key);
  }

  lemma QuietKeepsIdem(s: State, e: Event)
    requires LeavesKeys(s, e)
    ensures KeepsIdem(s, e)
  {
    if e.World? && e.event.Foreign? {
      forall key | Redis.IdemName(key) in e.event.space
        ensures Redis.IdemName(key) in s.world.space && e.event.space[Redis.IdemName(key)] == s.world.space[Redis.IdemName(key)]
      {
        assert SameEntry(s.world.space, e.event.space, key);
      }
    }
  }

  lemma UnclaimedStep(site: Site, s: State, e: Event)
    requires Enabled(site, s, e) && LeavesKeys(s, e) && Unclaimed(s)
    requires e.Do? ==> StoresObject(s.invs[e.i].phase)
    ensures Unclaimed(Step(site, s, e))
  {
    var t := Step(site, s, e);
    forall key, owner | Marked(t, key, owner) ensures owner in t.owners {
      if e.Do? {
        if Touches(e.act, key) {
          WrittenValue(site, s, e.i, e.act, key, owner);
        } else {
          StoredBefore(site, s, e.i, e.act, key, owner);
        }
      } else {
        QuietKeepsIdem(s, e);
        WorldWritesNoKey(site, s, e, key);
        assert Marked(s, key, owner);
      }
    }
  }

  lemma ReservedAtActs(site: Site, v: Invocation, a: Act, now: real)
    requires Next(site.cfg, v.req, v.phase, a).Some? && |v.times| == |v.acts|
    ensures
      var u := Acted(site, v, a, now);
      ReservedAt(u.acts, u.times) == if a.ReserveKey? && a.held.Some? then Some(now) else ReservedAt(v.acts, v.times)
  {
    var u := Acted(site, v, a, now);
    assert u.acts[..|v.acts|] == v.acts && u.times[..|v.times|] == v.times;
  }

  lemma HolderReservesNoMore(site: Site, s: State, i: nat, a: Act)
    requires DoEnabled(site, s, i, a) && HolderOf(s.invs[i].phase).Some?
    ensures !(a.ReserveKey? && a.held.Some?)
  {
    ActsMoveHolds(site.cfg, s.invs[i].req, s.invs[i].phase, a);
  }

  // The marker a reservation has just written.
  lemma DatedNew(site: Site, s: State, i: nat, a: Act, key: string, owner: string)
    requires DoEnabled(site, s, i, a) && StoresObject(s.invs[i].phase) && a == ReserveKey(key, Some(owner))
    ensures Dated(Step(site, s, Do(i, a)), i, key, owner)
  {
    var t := Step(site, s, Do(i, a));
    StepOthers(site, s, Do(i, a), i);
    if |t.invs[i].times| == |t.invs[i].acts| {
      ReservedAtActs(site, s.invs[i], a, s.world.now);
      if Marked(t, key, owner) {
        WrittenValue(site, s, i, a, key, owner);
      }
    }
  }

  // A marker stored after an act of another kind was stored before, as it is.
  lemma OldMarker(site: Site, s: State, i: nat, a: Act, key: string, owner: string)
    requires DoEnabled(site, s, i, a) && StoresObject(s.invs[i].phase) && !(a.ReserveKey? && a.held == Some(owner))
    requires Marked(Step(site, s, Do(i, a)), key, owner)
    ensures Marked(s, key, owner) && Step(site, s, Do(i, a)).world.space[Redis.IdemName(key)] == s.world.space[Redis.IdemName(key)]
  {
    if Touches(a, key) {
      WrittenValue(site, s, i, a, key, owner);
    } else {
      StoredBefore(site, s, i, a, key, owner);
    }
  }

  // The marker the acting invocation already held.
  lemma DatedKept(site: Site, s: State, i: nat, a: Act, key: string, owner: string)
    requires DoEnabled(site, s, i, a) && StoresObject(s.invs[i].phase) && Dated(s, i, key, owner) && HoldsKey(s, i, key, owner)
    ensures Dated(Step(site, s, Do(i, a)), i, key, owner)
  {
    var t := Step(site, s, Do(i, a));
    StepOthers(site, s, Do(i, a), i);
    HolderReservesNoMore(site, s, i, a);
    if |s.invs[i].times| == |s.invs[i].acts| {
      ReservedAtActs(site, s.invs[i], a, s.world.now);
    }
    if Marked(t, key, owner) {
      OldMarker(site, s, i, a, key, owner);
    }
  }

  // The acting invocation's own marker.
  lemma DatedSelf(site: Site, s: State, i: nat, a: Act, key: string, owner: string)
    requires DoEnabled(site, s, i, a) && StoresObject(s.invs[i].phase) && Dated(s, i, key, owner)
    ensures Dated(Step(site, s, Do(i, a)), i, key, owner)
  {
    if HoldsKey(Step(site, s, Do(i, a)), i, key, owner) {
      HeldBefore(site, s, i, a, i, key, owner);
      if a == ReserveKey(key, Some(owner)) {
        DatedNew(site, s, i, a, key, owner);
      } else {
        DatedKept(site, s, i, a, key, owner);
      }
    }
  }

  // The marker of a holder while another invocation acts: a fresh owner token is not its own.
  lemma DatedOther(site: Site, s: State, i: nat, a: Act, j: nat, key: string, owner: string)
    requires DoEnabled(site, s, i, a) && StoresObject(s.invs[i].phase) && i != j
    requires Dated(s, j, key, owner) && Owned(s, j)
    ensures Dated(Step(site, s, Do(i, a)), j, key, owner)
  {
    var t := Step(site, s, Do(i, a));
    if HoldsKey(t, j, key, owner) && Marked(t, key, owner) {
      StepOthers(site, s, Do(i, a), j);
      if Touches(a, key) {
        WrittenValue(site, s, i, a, key, owner);
      } else {
        StoredBefore(site, s, i, a, key, owner);
      }
    }
  }

  lemma DatedQuiet(site: Site, s: State, e: Event, j: nat, key: string, owner: string)
    requires Enabled(site, s, e) && !e.Do? && LeavesKeys(s, e) && Dated(s, j, key, owner)
    ensures Dated(Step(site, s, e), j, key, owner)
  {
    if At(s, j) {
      StepOthers(site, s, e, j);
      QuietKeepsIdem(s, e);
      WorldWritesNoKey(site, s, e, key);
    } else if At(Step(site, s, e), j) {
      StepNewcomer(site, s, e, j);
    }
  }

  ghost predicate AllDated(s: State) {
    && Unclaimed(s)
    && (forall i :: Owned(s, i))
    && (forall i, key, owner :: Dated(s, i, key, owner))
  }

  lemma AllDatedStep(site: Site, s: State, e: Event)
    requires Enabled(site, s, e) && LeavesKeys(s, e) && AllDated(s)
    requires e.Do? ==> StoresObject(s.invs[e.i].phase)
    ensures AllDated(Step(site, s, e))
  {
    var t := Step(site, s, e);
    UnclaimedStep(site, s, e);
    forall i ensures Owned(t, i) {
      OwnedStep(site, s, e, i);
    }
    forall j, key, owner ensures Dated(t, j, key, owner) {
      assert Dated(s, j, key, owner) && Owned(s, j);
      if !e.Do? {
        DatedQuiet(site, s, e, j, key, owner);
      } else if e.i == j {
        DatedSelf(site, s, j, e.act, key, owner);
      } else {
        DatedOther(site, s, e.i, e.act, j, key, owner);
      }
    }
  }

  ghost predicate KeysLeft(ss: seq<State>, es: seq<Event>, k: nat)
    requires |ss| == |es| + 1 && k < |ss|
  {
    forall x :: 0 <= x < k ==> LeavesKeys(ss[x], es[x])
  }

  lemma {:induction false} AlwaysDated(site: Site, ss: seq<State>, es: seq<Event>, k: nat)
    requires Run(site, ss, es) && k < |ss| && KeysLeft(ss, es, k)
    ensures AllDated(ss[k])
  {
    if k > 0 {
      AlwaysDated(site, ss, es, k - 1);
      if es[k - 1].Do? {
        AlwaysStoresObject(site, ss, es, k - 1, es[k - 1].i);
      }
      assert LeavesKeys(ss[k - 1], es[k - 1]);
      AllDatedStep(site, ss[k - 1], es[k - 1]);
    }
  }

  // ---- The timing hypothesis, from the settings ----

  lemma HolderIsInTime(site: Site, pace: Pace, ss: seq<State>, es: seq<Event>, k: nat, i: nat, key: string, owner: string)
    requires Run(site, ss, es) && k < |ss| && KeysLeft(ss, es, k) && PromptUntil(site, pace, ss, k) && ValidPace(pace)
    requires Budget(site.cfg, pace) < I.RESERVATION_TTL_SECONDS as real
    requires HoldsKey(ss[k], i, key, owner) && Marked(ss[k], key, owner)
    ensures Redis.Live(ss[k].world.space, ss[k].world.now, Redis.IdemName(key))
  {
    var v := ss[k].invs[i];
    AlwaysPaced(site, pace, ss, es, k, i);
    AlwaysDated(site, ss, es, k);
    assert Dated(ss[k], i, key, owner);
    ReservedAtNonempty(v.acts, v.times);
    EachIsAPath(site, ss, es, k, i);
    HolderStaysWithin(site.cfg, v.req, pace, v.acts);
    assert Prompt(site, pace, ss[k]) && PromptOne(site, pace, ss[k], i);
  }

  /**
   The timing hypothesis of the idempotency theorems follows from the settings: if no key is
   flushed, nobody is overdue, and twice (1 + max_retries) calls, twice the whole backoff and the
   remaining steps together fit into a reservation, then every holder settles in time.
   */
  lemma SettingsKeepHoldersInTime(site: Site, pace: Pace, ss: seq<State>, es: seq<Event>, k: nat)
    requires Run(site, ss, es) && k < |ss| && KeysLeft(ss, es, k) && PromptUntil(site, pace, ss, k) && ValidPace(pace)
    requires Budget(site.cfg, pace) < I.RESERVATION_TTL_SECONDS as real
    ensures Undisturbed(ss, es, k)
  {
    forall x | 0 <= x <= k ensures InTime(ss[x]) {
      forall i, key, owner | HoldsKey(ss[x], i, key, owner) && Marked(ss[x], key, owner)
        ensures Redis.Live(ss[x].world.space, ss[x].world.now, Redis.IdemName(key))
      {
        HolderIsInTime(site, pace, ss, es, x, i, key, owner);
      }
    }
  }

  /** Mutual exclusion and at-most-once success of the pipeline, with settings in place of a timing hypothesis. */
  lemma AtMostOnceBySettings(site: Site, pace: Pace, ss: seq<State>, es: seq<Event>, k: nat, i: nat, j: nat, key: string, a: string, b: string)
    requires Run(site, ss, es) && k < |ss| && KeysLeft(ss, es, k) && PromptUntil(site, pace, ss, k) && ValidPace(pace)
    requires Budget(site.cfg, pace) < I.RESERVATION_TTL_SECONDS as real && i != j
    ensures !(HoldsKey(ss[k], i, key, a) && HoldsKey(ss[k], j, key, b))
    ensures SucceededUnder(site, ss[k], i, key) && SucceededUnder(site, ss[k], j, key) ==>
              exists m: nat, n: nat ::
                && Completes(ss[k], m, i, ss[k].invs[i].phase.outcome.result) && Completes(ss[k], n, j, ss[k].invs[j].phase.outcome.result)
                && (ss[k].completions[m].at + site.window as real <= ss[k].completions[n].at
                    || ss[k].completions[n].at + site.window as real <= ss[k].completions[m].at)
  {
    SettingsKeepHoldersInTime(site, pace, ss, es, k);
    if HoldsKey(ss[k], i, key, a) {
      KeyHasOneHolder(site, ss, es, k, i, j, key, a, b);
    }
    if SucceededUnder(site, ss[k], i, key) && SucceededUnder(site, ss[k], j, key) {
      AtMostOnceSuccess(site, ss, es, k, i, j, key);
    }
  }
}
