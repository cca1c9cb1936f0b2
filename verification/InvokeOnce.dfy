/**
 At most one success for each key and window, for the whole pipeline.

 The completions of a run are the results its invocations have written under idempotency keys.
 */
module InvokeOnce {
  import opened Common
  import opened InvokePath
  import opened InvokeView
  import opened InvokeRuns
  import I = Idempotency
  import L = RateLimiter
  import Redis
  import W = GrantRuns

  predicate Covers(site: Site, c: Completion, now: real) {
    now < c.at + site.window as real
  }

  function EntryOf(site: Site, c: Completion): Redis.Entry {
    Redis.Entry(Redis.Text(c.result), Some(c.at + site.window as real))
  }

  // ---- Every replay has a completion ----

  ghost predicate SourceOf(site: Site, s: State, n: nat, key: string) {
    && n < |s.completions| && s.completions[n].key == key && s.completions[n].at <= s.world.now
    && Redis.IdemName(key) in s.world.space && s.world.space[Redis.IdemName(key)] == EntryOf(site, s.completions[n])
  }

  // A live value that is no marker is the result of some completion of its key.
  ghost predicate Accounted(site: Site, s: State, key: string) {
    var v := Redis.Lookup(s.world.space, s.world.now, Redis.IdemName(key));
    v.Some? && !I.IsPending(v.value) ==> exists n: nat :: SourceOf(site, s, n, key)
  }

  lemma CompletionsGrow(site: Site, s: State, e: Event)
    requires Enabled(site, s, e)
    ensures
      var t := Step(site, s, e);
      if e.Do? && e.act.Write? && e.act.stored.Some?
      then t.completions == s.completions + [Completion(e.i, e.act.key, e.act.stored.value, s.world.now)]
      else t.completions == s.completions
  {
  }

  // Where an act leaves the entry of a key alone.
  predicate Touches(a: Act, key: string) {
    (a.ReserveKey? && a.held.Some? && a.key == key) || (a.Write? && a.key == key)
  }

  lemma ActLeavesEntry(d: Desk, a: Act, s: Stores, key: string)
    requires !Touches(a, key)
    ensures SameEntry(s.space, Applied(d, a, s), key)
  {
    if a.CheckRate? {
      CountTouchesOne(s, a.agent, a.read, Redis.IdemName(key));
    }
  }

  // The grant tables write no entry of a key.
  lemma WorldWritesNoKey(site: Site, s: State, e: Event, key: string)
    requires Enabled(site, s, e) && !e.Do? && KeepsIdem(s, e)
    ensures
      var t := Step(site, s, e).world;
      && s.world.now <= t.now
      && (Redis.IdemName(key) in t.space ==> Redis.IdemName(key) in s.world.space && t.space[Redis.IdemName(key)] == s.world.space[Redis.IdemName(key)])
  {
    if e.World? {
      W.ClockAdvances(site.st, s.world, e.event);
      if e.event.Requesting? {
        RequestKeepsKeys(site.st, s.world, e.event.r, e.event.ask, key);
      }
    }
  }

  lemma ReservationIsPending(site: Site, s: State, i: nat, a: Act)
    requires DoEnabled(site, s, i, a) && a.ReserveKey? && a.held.Some?
    ensures
      var v := Redis.Lookup(Step(site, s, Do(i, a)).world.space, s.world.now, Redis.IdemName(a.key));
      v.Some? && I.IsPending(v.value)
    ensures !Redis.Live(s.world.space, s.world.now, Redis.IdemName(a.key))
  {
    I.PendingIsNeverAResult(a.held.value, "{}");
  }

  lemma AccountedAct(site: Site, s: State, i: nat, a: Act, key: string)
    requires DoEnabled(site, s, i, a) && Accounted(site, s, key)
    ensures Accounted(site, Step(site, s, Do(i, a)), key)
  {
    var t := Step(site, s, Do(i, a));
    CompletionsGrow(site, s, Do(i, a));
    if !Touches(a, key) {
      ActLeavesEntry(DeskOf(site), a, StoresOf(s), key);
      if exists n: nat :: SourceOf(site, s, n, key) {
        var n: nat :| SourceOf(site, s, n, key);
        assert SourceOf(site, t, n, key);
      }
    } else if a.ReserveKey? {
      ReservationIsPending(site, s, i, a);
    } else if a.stored.Some? {
      assert SourceOf(site, t, |s.completions|, key);
    }
  }

  lemma AccountedStep(site: Site, s: State, e: Event, key: string)
    requires Enabled(site, s, e) && Accounted(site, s, key) && KeepsIdem(s, e)
    ensures Accounted(site, Step(site, s, e), key)
  {
    if e.Do? {
      AccountedAct(site, s, e.i, e.act, key);
    } else {
      WorldWritesNoKey(site, s, e, key);
      CompletionsGrow(site, s, e);
      if exists n: nat :: SourceOf(site, s, n, key) {
        var n: nat :| SourceOf(site, s, n, key);
        assert Redis.IdemName(key) in Step(site, s, e).world.space ==> SourceOf(site, Step(site, s, e), n, key);
      }
    }
  }

  lemma {:induction false} AlwaysAccounted(site: Site, ss: seq<State>, es: seq<Event>, k: nat, key: string)
    requires Run(site, ss, es) && k < |ss|
    requires forall x :: 0 <= x < k ==> KeepsIdem(ss[x], es[x])
    ensures Accounted(site, ss[k], key)
  {
    if k > 0 {
      AlwaysAccounted(site, ss, es, k - 1, key);
      AccountedStep(site, ss[k - 1], es[k - 1], key);
    }
  }

  /** Every replay, whatever expires, is lost or overruns, returns a result that an invocation completed under that key less than a window before. */
  lemma ReplayHasACompletion(site: Site, ss: seq<State>, es: seq<Event>, k: nat, i: nat, key: string, result: string)
    requires Run(site, ss, es) && k < |es| && es[k] == Do(i, GetKey(key, I.Cached(result)))
    requires forall x :: 0 <= x < k ==> KeepsIdem(ss[x], es[x])
    ensures exists n: nat ::
      && n < |ss[k].completions| && ss[k].completions[n].key == key && ss[k].completions[n].result == result
      && ss[k].completions[n].at <= ss[k].world.now && Covers(site, ss[k].completions[n], ss[k].world.now)
  {
    assert Enabled(site, ss[k], es[k]);
    AlwaysAccounted(site, ss, es, k, key);
    var n: nat :| SourceOf(site, ss[k], n, key);
    assert ss[k].completions[n].result == result;
  }

  // ---- Completions of one key are a window apart ----

  ghost predicate KeptWhole(site: Site, s: State, n: nat)
    requires n < |s.completions|
  {
    var c := s.completions[n];
    && c.at <= s.world.now && IsObject(c.result)
    && (Covers(site, c, s.world.now) ==>
          Redis.IdemName(c.key) in s.world.space && s.world.space[Redis.IdemName(c.key)] == EntryOf(site, c))
  }

  ghost predicate ApartInTime(site: Site, s: State, m: nat, n: nat)
    requires m < n < |s.completions|
  {
    s.completions[m].key == s.completions[n].key ==> s.completions[m].at + site.window as real <= s.completions[n].at
  }

  ghost predicate Spaced(site: Site, s: State) {
    && (forall n :: 0 <= n < |s.completions| ==> KeptWhole(site, s, n))
    && (forall m, n :: 0 <= m < n < |s.completions| ==> ApartInTime(site, s, m, n))
  }

  // A key that is free, or held by its writer, has no result in its window.
  lemma NothingInWindow(site: Site, s: State, n: nat, key: string)
    requires n < |s.completions| && KeptWhole(site, s, n) && s.completions[n].key == key
    requires
      var v := Redis.Lookup(s.world.space, s.world.now, Redis.IdemName(key));
      v.Some? ==> I.IsPending(v.value)
    ensures !Covers(site, s.completions[n], s.world.now)
  {
    var json: Json := s.completions[n].result;
    I.PendingIsNeverAResult("", json);
  }

  lemma TouchedKeyIsFree(site: Site, s: State, i: nat, a: Act, key: string)
    requires DoEnabled(site, s, i, a) && Touches(a, key) && Exclusive(s)
    ensures
      var v := Redis.Lookup(s.world.space, s.world.now, Redis.IdemName(key));
      v.Some? ==> I.IsPending(v.value)
  {
    if a.Write? {
      WriterHolds(site, s, i, a);
      assert Intact(s, i, a.key, a.owner);
      I.PendingIsNeverAResult(a.owner, "{}");
    } else {
      ReservationIsPending(site, s, i, a);
    }
  }

  lemma KeptAct(site: Site, s: State, i: nat, a: Act, n: nat)
    requires DoEnabled(site, s, i, a) && Exclusive(s) && n < |s.completions| && KeptWhole(site, s, n)
    ensures n < |Step(site, s, Do(i, a)).completions| && KeptWhole(site, Step(site, s, Do(i, a)), n)
  {
    CompletionsGrow(site, s, Do(i, a));
    var key := s.completions[n].key;
    if Touches(a, key) {
      TouchedKeyIsFree(site, s, i, a, key);
      NothingInWindow(site, s, n, key);
    } else {
      ActLeavesEntry(DeskOf(site), a, StoresOf(s), key);
    }
  }

  lemma KeptQuiet(site: Site, s: State, e: Event, n: nat)
    requires Enabled(site, s, e) && !e.Do? && LeavesKeys(s, e) && n < |s.completions| && KeptWhole(site, s, n)
    ensures n < |Step(site, s, e).completions| && KeptWhole(site, Step(site, s, e), n)
  {
    CompletionsGrow(site, s, e);
    if e.World? {
      W.ClockAdvances(site.st, s.world, e.event);
      if Covers(site, s.completions[n], s.world.now) {
        WorldLeavesKeys(site, s.world, e.event, s.completions[n].key);
      }
    }
  }

  lemma NewCompletion(site: Site, s: State, i: nat, a: Act)
    requires DoEnabled(site, s, i, a) && Exclusive(s) && Spaced(site, s) && StoresObject(s.invs[i].phase)
    requires a.Write? && a.stored.Some?
    ensures
      var t := Step(site, s, Do(i, a));
      && |t.completions| == |s.completions| + 1 && KeptWhole(site, t, |s.completions|)
      && forall m :: 0 <= m < |s.completions| ==> ApartInTime(site, t, m, |s.completions|)
  {
    var t := Step(site, s, Do(i, a));
    CompletionsGrow(site, s, Do(i, a));
    StoresObjectAct(site.cfg, s.invs[i].req, s.invs[i].phase, a);
    forall m | 0 <= m < |s.completions| ensures ApartInTime(site, t, m, |s.completions|) {
      assert KeptWhole(site, s, m) && t.completions[m] == s.completions[m];
      if s.completions[m].key == a.key {
        TouchedKeyIsFree(site, s, i, a, a.key);
        NothingInWindow(site, s, m, a.key);
      }
    }
  }

  lemma SpacedStep(site: Site, s: State, e: Event)
    requires Enabled(site, s, e) && Exclusive(s) && Spaced(site, s) && LeavesKeys(s, e)
    requires e.Do? ==> StoresObject(s.invs[e.i].phase)
    ensures Spaced(site, Step(site, s, e))
  {
    var t := Step(site, s, e);
    CompletionsGrow(site, s, e);
    if e.Do? && e.act.Write? && e.act.stored.Some? {
      NewCompletion(site, s, e.i, e.act);
    }
    forall n | 0 <= n < |t.completions| ensures KeptWhole(site, t, n) {
      if n < |s.completions| {
        if e.Do? {
          KeptAct(site, s, e.i, e.act, n);
        } else {
          KeptQuiet(site, s, e, n);
        }
      }
    }
    forall m, n | 0 <= m < n < |t.completions| ensures ApartInTime(site, t, m, n) {
      if n < |s.completions| {
        assert ApartInTime(site, s, m, n);
      }
    }
  }

  lemma {:induction false} AlwaysSpaced(site: Site, ss: seq<State>, es: seq<Event>, k: nat)
    requires Run(site, ss, es) && k < |ss| && Undisturbed(ss, es, k)
    ensures Spaced(site, ss[k])
  {
    if k > 0 {
      AlwaysSpaced(site, ss, es, k - 1);
      AlwaysExclusive(site, ss, es, k - 1);
      if es[k - 1].Do? {
        AlwaysStoresObject(site, ss, es, k - 1, es[k - 1].i);
      }
      assert LeavesKeys(ss[k - 1], es[k - 1]);
      SpacedStep(site, ss[k - 1], es[k - 1]);
    }
  }

  /** Replay agreement: while a completion's window lasts, every replay of its key returns its result. */
  lemma ReplayIsTheCompletion(site: Site, ss: seq<State>, es: seq<Event>, k: nat, i: nat, key: string, result: string, n: nat)
    requires Run(site, ss, es) && k < |es| && Undisturbed(ss, es, k) && es[k] == Do(i, GetKey(key, I.Cached(result)))
    requires n < |ss[k].completions| && ss[k].completions[n].key == key && Covers(site, ss[k].completions[n], ss[k].world.now)
    ensures ss[k].completions[n].result == result
  {
    assert Enabled(site, ss[k], es[k]);
    AlwaysSpaced(site, ss, es, k);
    assert KeptWhole(site, ss[k], n);
  }

  // ---- Every fresh success under a key is a completion ----

  ghost predicate Completes(s: State, n: nat, i: nat, result: string) {
    n < |s.completions| && s.completions[n].invocation == i && s.completions[n].result == result
  }

  // A fresh success under a key is still to be settled, or has been completed.
  ghost predicate Settles(site: Site, s: State, i: nat) {
    At(s, i) && FreshSuccess(s.invs[i].phase) && s.invs[i].req.key.Some? && site.cfg.hasStore ==>
      HolderOf(s.invs[i].phase).Some? || exists n: nat :: Completes(s, n, i, s.invs[i].phase.outcome.result)
  }

  lemma SuccessMoves(cfg: Config, req: Request, p: Phase, a: Act)
    requires Next(cfg, req, p, a).Some? && FreshSuccess(Next(cfg, req, p, a).value)
    ensures p.Calling? || (FreshSuccess(p) && p.outcome == Next(cfg, req, p, a).value.outcome)
    ensures p.Calling? ==> HolderOf(Next(cfg, req, p, a).value) == p.ctx.hold
    ensures FreshSuccess(p) && HolderOf(p).Some? && HolderOf(Next(cfg, req, p, a).value).None? ==>
              (a.Write? && a.stored == Some(p.outcome.result)) || (a.Compare? && !a.owns)
  {
  }

  lemma CompareIsTheHolders(cfg: Config, req: Request, p: Phase, a: Act)
    requires Next(cfg, req, p, a).Some? && a.Compare?
    ensures HolderOf(p) == Some(a.owner) && FoundOf(p).Some? && FullKey(req, FoundOf(p).value) == a.key
  {
  }

  lemma CompareOwns(site: Site, s: State, i: nat, a: Act)
    requires DoEnabled(site, s, i, a) && Exclusive(s) && a.Compare?
    ensures a.owns
  {
    CompareIsTheHolders(site.cfg, s.invs[i].req, s.invs[i].phase, a);
    assert HoldsKey(s, i, a.key, a.owner);
    assert Intact(s, i, a.key, a.owner);
  }

  lemma SettlesAct(site: Site, s: State, i: nat, a: Act)
    requires DoEnabled(site, s, i, a) && Exclusive(s) && Settles(site, s, i)
    requires PhaseAfter(site.cfg, s.invs[i].req, s.invs[i].acts) == Some(s.invs[i].phase)
    ensures Settles(site, Step(site, s, Do(i, a)), i)
  {
    var t := Step(site, s, Do(i, a));
    StepOthers(site, s, Do(i, a), i);
    CompletionsGrow(site, s, Do(i, a));
    var p, q := s.invs[i].phase, t.invs[i].phase;
    if FreshSuccess(q) && s.invs[i].req.key.Some? && site.cfg.hasStore && HolderOf(q).None? {
      SuccessMoves(site.cfg, s.invs[i].req, p, a);
      AlwaysScreened(site.cfg, s.invs[i].req, s.invs[i].acts);
      if HolderOf(p).Some? {
        if a.Compare? {
          CompareOwns(site, s, i, a);
        }
        assert Completes(t, |s.completions|, i, q.outcome.result);
      } else {
        var n: nat :| Completes(s, n, i, p.outcome.result);
        assert Completes(t, n, i, q.outcome.result);
      }
    }
  }

  lemma SettlesStep(site: Site, s: State, e: Event, i: nat)
    requires Enabled(site, s, e) && Exclusive(s) && Settles(site, s, i)
    requires At(s, i) ==> PhaseAfter(site.cfg, s.invs[i].req, s.invs[i].acts) == Some(s.invs[i].phase)
    ensures Settles(site, Step(site, s, e), i)
  {
    if At(s, i) {
      if e.Do? && e.i == i {
        SettlesAct(site, s, i, e.act);
      } else {
        StepOthers(site, s, e, i);
        CompletionsGrow(site, s, e);
        if FreshSuccess(s.invs[i].phase) {
          var result := s.invs[i].phase.outcome.result;
          assert forall n: nat :: Completes(s, n, i, result) ==> Completes(Step(site, s, e), n, i, result);
        }
      }
    } else if At(Step(site, s, e), i) {
      StepNewcomer(site, s, e, i);
    }
  }

  lemma {:induction false} AlwaysSettles(site: Site, ss: seq<State>, es: seq<Event>, k: nat, i: nat)
    requires Run(site, ss, es) && k < |ss| && Undisturbed(ss, es, k)
    ensures Settles(site, ss[k], i)
  {
    if k > 0 {
      AlwaysSettles(site, ss, es, k - 1, i);
      AlwaysExclusive(site, ss, es, k - 1);
      if At(ss[k - 1], i) {
        EachIsAPath(site, ss, es, k - 1, i);
      }
      SettlesStep(site, ss[k - 1], es[k - 1], i);
    }
  }

  // A completion is one of its invocation's own key.
  ghost predicate OwnKey(s: State, n: nat)
    requires n < |s.completions|
  {
    var c := s.completions[n];
    At(s, c.invocation) && RowIn(s.invs[c.invocation].acts).Some?
    && c.key == FullKey(s.invs[c.invocation].req, RowIn(s.invs[c.invocation].acts).value)
    && (s.invs[c.invocation].phase.Closing? || s.invs[c.invocation].phase.Ended?)
  }

  lemma WriteIsOwnKey(cfg: Config, req: Request, acts: seq<Act>, p: Phase, a: Act)
    requires PhaseAfter(cfg, req, acts) == Some(p) && Next(cfg, req, p, a).Some?
    ensures a.Write? ==> RowIn(acts + [a]).Some? && a.key == FullKey(req, RowIn(acts + [a]).value) && Next(cfg, req, p, a).value.Closing?
    ensures p.Closing? ==> RowIn(acts + [a]) == RowIn(acts) && (Next(cfg, req, p, a).value.Closing? || Next(cfg, req, p, a).value.Ended?)
    ensures !p.Ended?
  {
    AlwaysBooked(cfg, req, acts);
    assert (acts + [a])[..|acts|] == acts;
  }

  lemma OwnKeyStep(site: Site, s: State, e: Event, n: nat)
    requires Enabled(site, s, e) && n < |Step(site, s, e).completions|
    requires n < |s.completions| ==> OwnKey(s, n)
    requires e.Do? ==> PhaseAfter(site.cfg, s.invs[e.i].req, s.invs[e.i].acts) == Some(s.invs[e.i].phase)
    ensures OwnKey(Step(site, s, e), n)
  {
    CompletionsGrow(site, s, e);
    if n < |s.completions| {
      StepOthers(site, s, e, s.completions[n].invocation);
    } else {
      StepOthers(site, s, e, e.i);
    }
    if e.Do? {
      WriteIsOwnKey(site.cfg, s.invs[e.i].req, s.invs[e.i].acts, s.invs[e.i].phase, e.act);
    }
  }

  lemma {:induction false} AlwaysOwnKey(site: Site, ss: seq<State>, es: seq<Event>, k: nat, n: nat)
    requires Run(site, ss, es) && k < |ss| && n < |ss[k].completions|
    ensures OwnKey(ss[k], n)
  {
    if k > 0 {
      if n < |ss[k - 1].completions| {
        AlwaysOwnKey(site, ss, es, k - 1, n);
      }
      if es[k - 1].Do? {
        EachIsAPath(site, ss, es, k - 1, es[k - 1].i);
      }
      OwnKeyStep(site, ss[k - 1], es[k - 1], n);
    }
  }

  // The key of a finished invocation that resolved a grant and gave an idempotency key.
  ghost predicate SucceededUnder(site: Site, s: State, i: nat, key: string) {
    && site.cfg.hasStore && At(s, i) && s.invs[i].phase.Ended? && FreshSuccess(s.invs[i].phase) && s.invs[i].req.key.Some?
    && RowIn(s.invs[i].acts).Some? && FullKey(s.invs[i].req, RowIn(s.invs[i].acts).value) == key
  }

  lemma SuccessIsCompleted(site: Site, ss: seq<State>, es: seq<Event>, k: nat, i: nat, key: string) returns (n: nat)
    requires Run(site, ss, es) && k < |ss| && Undisturbed(ss, es, k) && SucceededUnder(site, ss[k], i, key)
    ensures Completes(ss[k], n, i, ss[k].invs[i].phase.outcome.result) && ss[k].completions[n].key == key
  {
    AlwaysSettles(site, ss, es, k, i);
    n :| Completes(ss[k], n, i, ss[k].invs[i].phase.outcome.result);
    AlwaysOwnKey(site, ss, es, k, n);
  }

  /**
   At-most-once success of the whole pipeline: if no key is flushed and holders settle in time,
   two invocations that end as fresh successes under one key have completed it at least a window
   apart, each with its own result.
   */
  lemma AtMostOnceSuccess(site: Site, ss: seq<State>, es: seq<Event>, k: nat, i: nat, j: nat, key: string)
    requires Run(site, ss, es) && k < |ss| && Undisturbed(ss, es, k) && i != j
    requires SucceededUnder(site, ss[k], i, key) && SucceededUnder(site, ss[k], j, key)
    ensures exists m: nat, n: nat ::
      && Completes(ss[k], m, i, ss[k].invs[i].phase.outcome.result) && Completes(ss[k], n, j, ss[k].invs[j].phase.outcome.result)
      && var a, b := ss[k].completions[m], ss[k].completions[n];
      && a.key == b.key == key
      && (a.at + site.window as real <= b.at || b.at + site.window as real <= a.at)
  {
    var m := SuccessIsCompleted(site, ss, es, k, i, key);
    var n := SuccessIsCompleted(site, ss, es, k, j, key);
    AlwaysSpaced(site, ss, es, k);
    if m < n {
      assert ApartInTime(site, ss[k], m, n);
    } else {
      assert ApartInTime(site, ss[k], n, m);
    }
  }
}
