/**
 Interleaved runs of the idempotency protocol.

 Any number of invocations share the key space.  Each Redis command of each of them is
 one step; between any two steps the clock may move, keys may be lost, and the other
 components on the same server may change their own keys.
 */
module IdempotencyRuns {
  import opened Common
  import opened Redis
  import opened Idempotency

  // How the execution between `reserve` and the final write ended.
  datatype Verdict = Success(result: Json) | Failure

  datatype Stage =
    | Arrived                        // `get` not yet issued
    | Missed                         // `get` found nothing, `reserve` not yet issued
    | Executing                      // holds a reservation
    | Settling(verdict: Verdict)     // the ownership compare comes next
    | Acting(verdict: Verdict)       // the compare passed, the write comes next
    | Denied
    | Replayed(result: string, at: real)
    | Finished(verdict: Verdict, wrote: bool, at: real)

  // `owner` and `since` describe the reservation, once there is one.
  datatype Invocation = Invocation(key: string, stage: Stage, owner: string, since: real, sends: nat)

  datatype State = State(now: real, space: Space, invs: map<nat, Invocation>, owners: set<string>)

  datatype Event =
    | Arrive(i: nat, key: string)
    | Read(i: nat)
    | TryReserve(i: nat, owner: string)
    | Send(i: nat)
    | Conclude(i: nat, verdict: Verdict)
    | Compare(i: nat)
    | Act(i: nat)
    | Tick(elapsed: real)
    | Lose(names: set<Name>)
    | Foreign(space: Space)

  predicate At(s: State, i: nat) {
    i in s.invs
  }

  predicate InProgress(v: Invocation) {
    v.stage.Executing? || v.stage.Settling? || v.stage.Acting?
  }

  predicate Completed(v: Invocation) {
    v.stage.Finished? && v.stage.verdict.Success? && v.stage.wrote
  }

  predicate SameIdem(a: Space, b: Space) {
    && (forall n :: n in a && n.IdemName? ==> n in b && b[n] == a[n])
    && (forall n :: n in b && n.IdemName? ==> n in a)
  }

  predicate Enabled(s: State, e: Event) {
    match e
    case Arrive(i, _) => i !in s.invs
    case Read(i) => i in s.invs && s.invs[i].stage.Arrived?
    case TryReserve(i, owner) => i in s.invs && s.invs[i].stage.Missed? && owner !in s.owners
    case Send(i) => i in s.invs && s.invs[i].stage.Executing?
    case Conclude(i, _) => i in s.invs && s.invs[i].stage.Executing?
    case Compare(i) => i in s.invs && s.invs[i].stage.Settling?
    case Act(i) => i in s.invs && s.invs[i].stage.Acting?
    case Tick(elapsed) => elapsed >= 0.0
    case Lose(_) => true
    case Foreign(space) => SameIdem(s.space, space)
  }

  function Moved(s: State, i: nat, stage: Stage): State
    requires i in s.invs
  {
    s.(invs := s.invs[i := s.invs[i].(stage := stage)])
  }

  function Step(window: int, s: State, e: Event): State
    requires Enabled(s, e)
  {
    match e
    case Arrive(i, key) => s.(invs := s.invs[i := Invocation(key, Arrived, "", s.now, 0)])
    case Read(i) =>
      (match Viewed(s.space, s.now, s.invs[i].key)
       case Unseen => Moved(s, i, Missed)
       case Conflict => Moved(s, i, Denied)
       case Cached(result) => Moved(s, i, Replayed(result, s.now)))
    case TryReserve(i, owner) =>
      var (space, claimed) := Reserve(s.space, s.now, s.invs[i].key, owner);
      var drawn := s.(owners := s.owners + {owner});
      if claimed
      then drawn.(space := space, invs := s.invs[i := s.invs[i].(stage := Executing, owner := owner, since := s.now)])
      else Moved(drawn, i, Denied)
    case Send(i) => s.(invs := s.invs[i := s.invs[i].(sends := s.invs[i].sends + 1)])
    case Conclude(i, verdict) => Moved(s, i, Settling(verdict))
    case Compare(i) =>
      var v := s.invs[i];
      var passed := if v.stage.verdict.Success?
                    then MayComplete(s.space, s.now, v.key, Some(v.owner))
                    else MayRelease(s.space, s.now, v.key, Some(v.owner));
      Moved(s, i, if passed then Acting(v.stage.verdict) else Finished(v.stage.verdict, false, s.now))
    case Act(i) =>
      var v := s.invs[i];
      var space := if v.stage.verdict.Success?
                   then StoreResult(s.space, s.now, v.key, v.stage.verdict.result, window)
                   else DropMarker(s.space, v.key);
      Moved(s, i, Finished(v.stage.verdict, true, s.now)).(space := space)
    case Tick(elapsed) => s.(now := s.now + elapsed)
    case Lose(names) => s.(space := s.space - names)
    case Foreign(space) => s.(space := space)
  }

  ghost predicate Initial(s: State) {
    s.invs == map[] && s.owners == {} && forall n :: n in s.space ==> !n.IdemName?
  }

  // A run: `ss` are the states it passes through, `es` the events between them.
  ghost predicate Run(window: int, ss: seq<State>, es: seq<Event>) {
    && |ss| == |es| + 1
    && Initial(ss[0])
    && forall k :: 0 <= k < |es| ==> Enabled(ss[k], es[k]) && ss[k + 1] == Step(window, ss[k], es[k])
  }

  // No key of the protocol is flushed or evicted.
  ghost predicate NothingLost(es: seq<Event>) {
    forall k, n :: 0 <= k < |es| && es[k].Lose? && n in es[k].names ==> !n.IdemName?
  }

  predicate WithinReservation(v: Invocation, now: real) {
    now < v.since + RESERVATION_TTL_SECONDS as real
  }

  predicate LosesNoKey(e: Event) {
    e.Lose? ==> forall n :: n in e.names ==> !n.IdemName?
  }

  // An act in time: its invocation's reservation has not ended.
  predicate SafeStep(s: State, e: Event) {
    LosesNoKey(e) && (e.Act? && At(s, e.i) ==> WithinReservation(s.invs[e.i], s.now))
  }

  // Before the k-th event no key is lost, and no marker has expired between a holder's compare and its act.
  ghost predicate Undisturbed(ss: seq<State>, es: seq<Event>, k: nat)
    requires |ss| == |es| + 1 && k <= |es|
  {
    forall x :: 0 <= x < k ==> SafeStep(ss[x], es[x])
  }

  ghost predicate HoldersInTime(s: State) {
    forall i :: At(s, i) && InProgress(s.invs[i]) ==> WithinReservation(s.invs[i], s.now)
  }

  // Up to the k-th state no key is lost, and every holder issues its final write before its reservation ends.
  ghost predicate Punctual(ss: seq<State>, es: seq<Event>, k: nat)
    requires |ss| == |es| + 1 && k <= |es|
  {
    && (forall x :: 0 <= x < k ==> LosesNoKey(es[x]))
    && (forall x :: 0 <= x <= k ==> HoldersInTime(ss[x]))
  }

  lemma PunctualIsUndisturbed(window: int, ss: seq<State>, es: seq<Event>, k: nat)
    requires Run(window, ss, es) && k <= |es| && Punctual(ss, es, k)
    ensures Undisturbed(ss, es, k)
  {
    forall x | 0 <= x < k ensures SafeStep(ss[x], es[x]) {
      assert Enabled(ss[x], es[x]) && HoldersInTime(ss[x]) && LosesNoKey(es[x]);
    }
  }

  // ---- Invariants of every run, whatever expires or is lost ----

  ghost predicate HeldBy(s: State, i: nat, v: Value) {
    && At(s, i) && InProgress(s.invs[i])
    && v == Text(PendingValue(s.invs[i].owner))
  }

  ghost predicate StoredBy(window: int, s: State, i: nat, e: Entry) {
    && At(s, i) && Completed(s.invs[i])
    && e == Entry(Text(s.invs[i].stage.verdict.result), Some(s.invs[i].stage.at + window as real))
  }

  // Every live value of the protocol was written by some invocation of its key.
  ghost predicate Sourced(window: int, s: State, key: string) {
    Live(s.space, s.now, IdemName(key)) ==> exists i :: SourceOf(window, s, i, key)
  }

  ghost predicate ReplayOf(window: int, s: State, j: nat, i: nat)
    requires At(s, j) && s.invs[j].stage.Replayed?
  {
    && At(s, i) && Completed(s.invs[i]) && s.invs[i].key == s.invs[j].key
    && s.invs[i].stage.at <= s.invs[j].stage.at < s.invs[i].stage.at + window as real
    && s.invs[i].stage.verdict.result == s.invs[j].stage.result
  }

  ghost predicate Alone(s: State, i: nat)
    requires At(s, i)
  {
    var v := s.invs[i];
    && (InProgress(v) ==> v.owner in s.owners && v.since <= s.now)
    && (Completed(v) ==> v.stage.at <= s.now)
    && (v.stage.Denied? || v.stage.Replayed? || v.stage.Arrived? || v.stage.Missed? ==> v.sends == 0)
  }

  ghost predicate OwnersDiffer(s: State, i: nat, j: nat)
    requires At(s, i) && At(s, j)
  {
    i != j && InProgress(s.invs[i]) && InProgress(s.invs[j]) ==> s.invs[i].owner != s.invs[j].owner
  }

  ghost predicate Orderly(s: State) {
    && (forall i :: At(s, i) ==> Alone(s, i))
    && (forall i, j :: At(s, i) && At(s, j) ==> OwnersDiffer(s, i, j))
  }

  ghost predicate Grounded(window: int, s: State) {
    && Orderly(s)
    && (forall key :: Sourced(window, s, key))
    && (forall j :: At(s, j) && s.invs[j].stage.Replayed? ==> exists i :: ReplayOf(window, s, j, i))
  }

  lemma AloneStep(window: int, s: State, e: Event, i: nat)
    requires Enabled(s, e) && At(Step(window, s, e), i) && (At(s, i) ==> Alone(s, i))
    ensures Alone(Step(window, s, e), i)
  {
  }

  lemma OwnersDifferStep(window: int, s: State, e: Event, i: nat, j: nat)
    requires Enabled(s, e) && At(Step(window, s, e), i) && At(Step(window, s, e), j)
    requires (At(s, i) ==> Alone(s, i)) && (At(s, j) ==> Alone(s, j)) && (At(s, i) && At(s, j) ==> OwnersDiffer(s, i, j))
    ensures OwnersDiffer(Step(window, s, e), i, j)
  {
  }

  lemma OrderlyStep(window: int, s: State, e: Event)
    requires Enabled(s, e) && Orderly(s)
    ensures Orderly(Step(window, s, e))
  {
    var t := Step(window, s, e);
    forall i | At(t, i) ensures Alone(t, i) {
      AloneStep(window, s, e, i);
    }
    forall i, j | At(t, i) && At(t, j) ensures OwnersDiffer(t, i, j) {
      OwnersDifferStep(window, s, e, i, j);
    }
  }

  lemma ReplayStep(window: int, s: State, e: Event, j: nat)
    requires Enabled(s, e) && Grounded(window, s)
    requires At(Step(window, s, e), j) && Step(window, s, e).invs[j].stage.Replayed?
    ensures exists i :: ReplayOf(window, Step(window, s, e), j, i)
  {
    var t := Step(window, s, e);
    if At(s, j) && s.invs[j].stage.Replayed? {
      var i :| ReplayOf(window, s, j, i);
      assert ReplayOf(window, t, j, i);
    } else {
      var key := s.invs[j].key;
      assert Sourced(window, s, key);
      var i :| SourceOf(window, s, i, key);
      PendingIsNeverAResult(s.invs[i].owner, "{}");
      assert ReplayOf(window, t, j, i);
    }
  }

  // The invocation that accounts for a live value of the protocol.
  ghost predicate SourceOf(window: int, s: State, i: nat, key: string) {
    && IdemName(key) in s.space && At(s, i) && s.invs[i].key == key
    && (HeldBy(s, i, s.space[IdemName(key)].value) || StoredBy(window, s, i, s.space[IdemName(key)]))
  }

  // A step that leaves a key's live entry alone leaves its source in place: a holder gives up its marker only by acting.
  lemma SourceStays(window: int, s: State, e: Event, i: nat, key: string)
    requires Enabled(s, e) && SourceOf(window, s, i, key)
    requires Live(s.space, s.now, IdemName(key))
    requires IdemName(key) in Step(window, s, e).space && Step(window, s, e).space[IdemName(key)] == s.space[IdemName(key)]
    requires e.Act? && e.i == i ==> !InProgress(s.invs[i]) || Step(window, s, e).space == s.space
    ensures SourceOf(window, Step(window, s, e), i, key)
  {
    PendingIsNeverAResult(s.invs[i].owner, "{}");
  }

  lemma SourcedStep(window: int, s: State, e: Event, key: string)
    requires Enabled(s, e) && Grounded(window, s)
    ensures Sourced(window, Step(window, s, e), key)
  {
    var t := Step(window, s, e);
    var n := IdemName(key);
    if Live(t.space, t.now, n) {
      if (e.Act? || e.TryReserve?) && t.space != s.space && s.invs[e.i].key == key {
        assert SourceOf(window, t, e.i, key);
      } else {
        assert Live(s.space, s.now, n) && s.space[n] == t.space[n];
        assert Sourced(window, s, key);
        var i :| SourceOf(window, s, i, key);
        SourceStays(window, s, e, i, key);
      }
    }
  }

  lemma GroundedStep(window: int, s: State, e: Event)
    requires Enabled(s, e) && Grounded(window, s)
    ensures Grounded(window, Step(window, s, e))
  {
    OrderlyStep(window, s, e);
    forall key ensures Sourced(window, Step(window, s, e), key) {
      SourcedStep(window, s, e, key);
    }
    forall j | At(Step(window, s, e), j) && Step(window, s, e).invs[j].stage.Replayed?
      ensures exists i :: ReplayOf(window, Step(window, s, e), j, i)
    {
      ReplayStep(window, s, e, j);
    }
  }

  lemma {:induction false} AlwaysGrounded(window: int, ss: seq<State>, es: seq<Event>, k: nat)
    requires Run(window, ss, es) && k < |ss|
    ensures Grounded(window, ss[k])
  {
    if k == 0 {
      forall key ensures Sourced(window, ss[0], key) {
      }
    } else {
      AlwaysGrounded(window, ss, es, k - 1);
      GroundedStep(window, ss[k - 1], es[k - 1]);
    }
  }

  // ---- Invariants of runs that lose no key and in which every act follows its compare in time ----

  ghost predicate Held(s: State, i: nat)
    requires At(s, i)
  {
    var v := s.invs[i];
    InProgress(v) && WithinReservation(v, s.now) ==>
      IdemName(v.key) in s.space
      && s.space[IdemName(v.key)] == Entry(Text(PendingValue(v.owner)), Some(v.since + RESERVATION_TTL_SECONDS as real))
  }

  ghost predicate Kept(window: int, s: State, i: nat)
    requires At(s, i)
  {
    var v := s.invs[i];
    Completed(v) && s.now < v.stage.at + window as real ==>
      IdemName(v.key) in s.space && StoredBy(window, s, i, s.space[IdemName(v.key)])
  }

  ghost predicate Apart(window: int, s: State, i: nat, j: nat)
    requires At(s, i) && At(s, j)
  {
    var a, b := s.invs[i], s.invs[j];
    i != j && a.key == b.key && Completed(a) && Completed(b) ==>
      a.stage.at + window as real <= b.stage.at || b.stage.at + window as real <= a.stage.at
  }

  ghost predicate Exclusive(window: int, s: State) {
    && (forall i :: At(s, i) ==> Held(s, i))
    && (forall i :: At(s, i) ==> Kept(window, s, i))
    && (forall i, j :: At(s, i) && At(s, j) ==> Apart(window, s, i, j))
  }

  /** What an invocation about to act finds under its key: its own marker, hence nobody else's and no live result. */
  lemma ActorOwnsKey(window: int, s: State, i: nat, j: nat)
    requires Orderly(s) && Exclusive(window, s) && At(s, i) && At(s, j) && i != j
    requires InProgress(s.invs[i]) && WithinReservation(s.invs[i], s.now) && s.invs[j].key == s.invs[i].key
    ensures InProgress(s.invs[j]) ==> !WithinReservation(s.invs[j], s.now)
    ensures Completed(s.invs[j]) ==> s.invs[j].stage.at + window as real <= s.now
  {
    var a, b := s.invs[i], s.invs[j];
    assert Held(s, i) && Held(s, j) && Kept(window, s, j);
    if InProgress(b) && WithinReservation(b, s.now) {
      PendingValueInjective(a.owner, b.owner);
    }
    if Completed(b) {
      PendingIsNeverAResult(a.owner, b.stage.verdict.result);
    }
  }

  lemma HeldStep(window: int, s: State, e: Event, j: nat)
    requires Enabled(s, e) && Orderly(s) && Exclusive(window, s) && SafeStep(s, e)
    requires At(Step(window, s, e), j)
    ensures Held(Step(window, s, e), j)
  {
    if At(s, j) {
      assert Held(s, j);
      if e.Act? && e.i != j && s.invs[j].key == s.invs[e.i].key {
        ActorOwnsKey(window, s, e.i, j);
      }
    }
  }

  lemma KeptStep(window: int, s: State, e: Event, j: nat)
    requires Enabled(s, e) && Orderly(s) && Exclusive(window, s) && SafeStep(s, e)
    requires At(Step(window, s, e), j)
    ensures Kept(window, Step(window, s, e), j)
  {
    if At(s, j) {
      assert Kept(window, s, j);
      if e.Act? && e.i != j && s.invs[j].key == s.invs[e.i].key {
        ActorOwnsKey(window, s, e.i, j);
      }
    }
  }

  lemma ApartStep(window: int, s: State, e: Event, i: nat, j: nat)
    requires Enabled(s, e) && Orderly(s) && Exclusive(window, s) && SafeStep(s, e)
    requires At(Step(window, s, e), i) && At(Step(window, s, e), j)
    ensures Apart(window, Step(window, s, e), i, j)
  {
    if At(s, i) && At(s, j) && i != j {
      assert Apart(window, s, i, j);
      if e.Act? && s.invs[i].key == s.invs[j].key {
        if e.i == i {
          ActorOwnsKey(window, s, i, j);
        } else if e.i == j {
          ActorOwnsKey(window, s, j, i);
        }
      }
    }
  }

  lemma ExclusiveStep(window: int, s: State, e: Event)
    requires Enabled(s, e) && Orderly(s) && Exclusive(window, s) && SafeStep(s, e)
    ensures Exclusive(window, Step(window, s, e))
  {
    var t := Step(window, s, e);
    forall i | At(t, i) ensures Held(t, i) && Kept(window, t, i) {
      HeldStep(window, s, e, i);
      KeptStep(window, s, e, i);
    }
    forall i, j | At(t, i) && At(t, j) ensures Apart(window, t, i, j) {
      ApartStep(window, s, e, i, j);
    }
  }

  lemma {:induction false} AlwaysExclusive(window: int, ss: seq<State>, es: seq<Event>, k: nat)
    requires Run(window, ss, es) && k < |ss| && Undisturbed(ss, es, k)
    ensures Exclusive(window, ss[k])
  {
    if k > 0 {
      AlwaysExclusive(window, ss, es, k - 1);
      AlwaysGrounded(window, ss, es, k - 1);
      assert SafeStep(ss[k - 1], es[k - 1]);
      ExclusiveStep(window, ss[k - 1], es[k - 1]);
    }
  }

  // ---- Main results ----

  /**
   Mutual exclusion: if every holder finishes within its reservation, no two invocations of
   one key are ever between a successful reserve and its final write.
   */
  lemma MutualExclusion(window: int, ss: seq<State>, es: seq<Event>, k: nat, i: nat, j: nat)
    requires Run(window, ss, es) && k < |ss| && Punctual(ss, es, k)
    requires At(ss[k], i) && At(ss[k], j) && InProgress(ss[k].invs[i]) && InProgress(ss[k].invs[j])
    requires ss[k].invs[i].key == ss[k].invs[j].key
    ensures i == j
  {
    PunctualIsUndisturbed(window, ss, es, k);
    assert HoldersInTime(ss[k]);
    AlwaysExclusive(window, ss, es, k);
    AlwaysGrounded(window, ss, es, k);
    if i != j {
      ActorOwnsKey(window, ss[k], i, j);
    }
  }

  lemma {:induction false} SentStays(window: int, ss: seq<State>, es: seq<Event>, x: nat, k: nat, i: nat)
    requires Run(window, ss, es) && x < k < |ss| && es[x] == Send(i)
    ensures At(ss[k], i) && ss[k].invs[i].sends > 0
    decreases k
  {
    assert Enabled(ss[k - 1], es[k - 1]) && ss[k] == Step(window, ss[k - 1], es[k - 1]);
    if x < k - 1 {
      SentStays(window, ss, es, x, k - 1, i);
    }
  }

  /** An invocation that is denied, or served from the cache, has made no provider call. */
  lemma LosersSendNothing(window: int, ss: seq<State>, es: seq<Event>, k: nat, i: nat)
    requires Run(window, ss, es) && k < |ss| && At(ss[k], i)
    requires ss[k].invs[i].stage.Denied? || ss[k].invs[i].stage.Replayed?
    ensures forall x :: 0 <= x < k ==> es[x] != Send(i)
  {
    AlwaysGrounded(window, ss, es, k);
    forall x | 0 <= x < k ensures es[x] != Send(i) {
      if es[x] == Send(i) {
        SentStays(window, ss, es, x, k, i);
      }
    }
  }

  /** At-most-once success: the results two invocations store under one key are at least a window apart. */
  lemma StoredResultsAreApart(window: int, ss: seq<State>, es: seq<Event>, k: nat, i: nat, j: nat)
    requires Run(window, ss, es) && k < |ss| && Undisturbed(ss, es, k)
    requires At(ss[k], i) && At(ss[k], j) && i != j && ss[k].invs[i].key == ss[k].invs[j].key
    requires Completed(ss[k].invs[i]) && Completed(ss[k].invs[j])
    requires ss[k].invs[i].stage.at <= ss[k].invs[j].stage.at
    requires window > 0
    ensures ss[k].invs[i].stage.at + window as real <= ss[k].invs[j].stage.at
  {
    AlwaysExclusive(window, ss, es, k);
    assert Apart(window, ss[k], i, j);
  }

  // A compare of a holder that is in time passes.
  lemma CompareInTimePasses(window: int, s: State, i: nat)
    requires Enabled(s, Compare(i)) && Held(s, i) && WithinReservation(s.invs[i], s.now)
    ensures Step(window, s, Compare(i)).invs[i].stage.Acting?
  {
    PendingIsNeverAResult(s.invs[i].owner, "{}");
  }

  lemma FinishingStep(window: int, s: State, e: Event, i: nat)
    requires Enabled(s, e) && At(Step(window, s, e), i) && Step(window, s, e).invs[i].stage.Finished?
    ensures
      || (At(s, i) && s.invs[i] == Step(window, s, e).invs[i])
      || (e == Act(i) && Step(window, s, e).invs[i].stage.wrote)
      || (e == Compare(i) && !Step(window, s, Compare(i)).invs[i].stage.Acting?)
  {
  }

  lemma {:induction false} FinishedHasWritten(window: int, ss: seq<State>, es: seq<Event>, k: nat, i: nat)
    requires Run(window, ss, es) && k < |ss| && Punctual(ss, es, k)
    requires At(ss[k], i) && ss[k].invs[i].stage.Finished?
    ensures ss[k].invs[i].stage.wrote
  {
    if k > 0 {
      var s, e := ss[k - 1], es[k - 1];
      FinishingStep(window, s, e, i);
      if At(s, i) && s.invs[i] == ss[k].invs[i] {
        FinishedHasWritten(window, ss, es, k - 1, i);
      } else if e == Compare(i) {
        PunctualIsUndisturbed(window, ss, es, k - 1);
        AlwaysExclusive(window, ss, es, k - 1);
        assert Held(s, i) && HoldersInTime(s);
        CompareInTimePasses(window, s, i);
      }
    }
  }

  // The verdict that an execution ended with.
  ghost predicate EndedWith(s: State, i: nat, verdict: Verdict) {
    && At(s, i)
    && var stage := s.invs[i].stage;
       (stage.Settling? || stage.Acting? || stage.Finished?) && stage.verdict == verdict
  }

  lemma {:induction false} VerdictStays(window: int, ss: seq<State>, es: seq<Event>, x: nat, k: nat, i: nat, verdict: Verdict)
    requires Run(window, ss, es) && x < k < |ss| && es[x] == Conclude(i, verdict)
    ensures EndedWith(ss[k], i, verdict)
    decreases k
  {
    assert Enabled(ss[k - 1], es[k - 1]) && ss[k] == Step(window, ss[k - 1], es[k - 1]);
    if x < k - 1 {
      VerdictStays(window, ss, es, x, k - 1, i, verdict);
    }
  }

  /** When holders finish in time, an execution that ends as a success has stored its own result by the time it is finished, at that very moment, for the window. */
  lemma SuccessIsStored(window: int, ss: seq<State>, es: seq<Event>, x: nat, k: nat, i: nat, result: Json)
    requires Run(window, ss, es) && x < k < |ss| && Punctual(ss, es, k) && es[x] == Conclude(i, Success(result))
    requires At(ss[k], i) && ss[k].invs[i].stage.Finished?
    ensures ss[k].invs[i].stage.wrote && ss[k].invs[i].stage.verdict == Success(result)
    ensures
      var v := ss[k].invs[i];
      ss[k].now < v.stage.at + window as real ==>
        IdemName(v.key) in ss[k].space && ss[k].space[IdemName(v.key)] == Entry(Text(result), Some(v.stage.at + window as real))
  {
    VerdictStays(window, ss, es, x, k, i, Success(result));
    FinishedHasWritten(window, ss, es, k, i);
    PunctualIsUndisturbed(window, ss, es, k);
    AlwaysExclusive(window, ss, es, k);
    assert Kept(window, ss[k], i);
  }

  /** Every replay, in every run, returns a result stored for its key less than a window ago. */
  lemma ReplayHasASource(window: int, ss: seq<State>, es: seq<Event>, k: nat, j: nat)
    requires Run(window, ss, es) && k < |ss| && At(ss[k], j) && ss[k].invs[j].stage.Replayed?
    ensures exists i :: ReplayOf(window, ss[k], j, i)
  {
    AlwaysGrounded(window, ss, es, k);
  }

  /** Between two stored results a replay returns exactly the earlier one. */
  lemma ReplayIsTheStoredResult(window: int, ss: seq<State>, es: seq<Event>, k: nat, i: nat, j: nat)
    requires Run(window, ss, es) && k < |ss| && Undisturbed(ss, es, k)
    requires At(ss[k], i) && At(ss[k], j) && ss[k].invs[i].key == ss[k].invs[j].key
    requires Completed(ss[k].invs[i]) && ss[k].invs[j].stage.Replayed?
    requires ss[k].invs[i].stage.at <= ss[k].invs[j].stage.at < ss[k].invs[i].stage.at + window as real
    ensures ss[k].invs[j].stage.result == ss[k].invs[i].stage.verdict.result
  {
    AlwaysGrounded(window, ss, es, k);
    AlwaysExclusive(window, ss, es, k);
    var c :| ReplayOf(window, ss[k], j, c);
    assert Apart(window, ss[k], i, c);
  }

  /** A step of one invocation never disturbs the marker another holds, nor a result still in its window. */
  lemma OthersAreUndisturbed(window: int, ss: seq<State>, es: seq<Event>, k: nat, j: nat)
    requires Run(window, ss, es) && k < |es| && Undisturbed(ss, es, k + 1)
    requires !es[k].Tick? && At(ss[k], j) && (es[k].Lose? || es[k].Foreign? || es[k].i != j)
    requires InForce(window, ss[k], j)
    ensures
      var n := IdemName(ss[k].invs[j].key);
      n in ss[k].space && n in ss[k + 1].space && ss[k + 1].space[n] == ss[k].space[n]
  {
    AlwaysExclusive(window, ss, es, k);
    AlwaysExclusive(window, ss, es, k + 1);
    assert Held(ss[k], j) && Held(ss[k + 1], j);
    assert Kept(window, ss[k], j) && Kept(window, ss[k + 1], j);
  }

  /**
   Stale holders cannot interfere: whatever was lost or raced before, a holder that compares
   after its reservation has ended finds its marker gone, is finished without a write, and
   changes nothing in the key space.
   */
  lemma StaleHolderIsHarmless(window: int, ss: seq<State>, es: seq<Event>, k: nat, i: nat)
    requires Run(window, ss, es) && k < |es| && es[k] == Compare(i)
    requires !WithinReservation(ss[k].invs[i], ss[k].now)
    ensures ss[k + 1].invs[i].stage.Finished? && !ss[k + 1].invs[i].stage.wrote
    ensures ss[k + 1].space == ss[k].space
  {
    assert Enabled(ss[k], es[k]);
    AlwaysGrounded(window, ss, es, k);
    NoMarkerBeyondReservation(window, ss, es, k, i);
  }

  // What j stored under its key and is entitled to keep: a marker in time, or a result in its window.
  predicate InForce(window: int, s: State, j: nat)
    requires At(s, j)
  {
    var v := s.invs[j];
    || (InProgress(v) && WithinReservation(v, s.now))
    || (Completed(v) && s.now < v.stage.at + window as real)
  }

  // i is about to write the very result that j has just written.
  predicate SameWrite(s: State, i: nat, j: nat)
    requires At(s, i) && At(s, j)
  {
    s.invs[i].stage.Acting? && Completed(s.invs[j]) && s.invs[i].stage.verdict == s.invs[j].stage.verdict && s.invs[j].stage.at == s.now
  }

  predicate SameEntry(a: Space, b: Space, key: string) {
    if IdemName(key) in a then IdemName(key) in b && b[IdemName(key)] == a[IdemName(key)] else IdemName(key) !in b
  }

  /**
   The compare-then-act race, exactly.  In a run undisturbed so far, the act of one invocation
   changes what another has in force under the same key if and only if its own reservation has
   ended, that is, its marker expired after its compare (unless it rewrites the same result at the same
   instant); an act in time finds nothing of anybody else's in force.
   */
  lemma ActDisturbsIffLate(window: int, ss: seq<State>, es: seq<Event>, k: nat, i: nat, j: nat)
    requires Run(window, ss, es) && k < |es| && Undisturbed(ss, es, k) && es[k] == Act(i)
    requires At(ss[k], i) && At(ss[k], j) && i != j && ss[k].invs[j].key == ss[k].invs[i].key
    ensures InForce(window, ss[k], j) && !SameEntry(ss[k].space, ss[k + 1].space, ss[k].invs[j].key)
       <==> InForce(window, ss[k], j) && !WithinReservation(ss[k].invs[i], ss[k].now) && !SameWrite(ss[k], i, j)
    ensures WithinReservation(ss[k].invs[i], ss[k].now) ==> !InForce(window, ss[k], j)
  {
    var s := ss[k];
    AlwaysGrounded(window, ss, es, k);
    AlwaysExclusive(window, ss, es, k);
    assert Enabled(s, es[k]) && Held(s, j) && Kept(window, s, j);
    if WithinReservation(s.invs[i], s.now) {
      ActorOwnsKey(window, s, i, j);
    } else if InForce(window, s, j) {
      PendingIsNeverAResult(s.invs[j].owner, if s.invs[i].stage.verdict.Success? then s.invs[i].stage.verdict.result else "{}");
    }
  }

  /** No wedged key: in every run, a live pending marker belongs to an invocation still in progress. */
  lemma LiveMarkerHasAHolder(window: int, ss: seq<State>, es: seq<Event>, k: nat, key: string)
    requires Run(window, ss, es) && k < |ss| && Viewed(ss[k].space, ss[k].now, key) == Conflict
    ensures exists i :: At(ss[k], i) && InProgress(ss[k].invs[i]) && ss[k].invs[i].key == key
                        && ss[k].space[IdemName(key)].value == Text(PendingValue(ss[k].invs[i].owner))
  {
    var s := ss[k];
    AlwaysGrounded(window, ss, es, k);
    assert Sourced(window, s, key);
    var i :| SourceOf(window, s, i, key);
    if StoredBy(window, s, i, s.space[IdemName(key)]) {
      PendingIsNeverAResult("", s.invs[i].stage.verdict.result);
    }
  }

  /**
   The timing hypothesis is exact.  While i alone holds a key under which no result is in its
   window, a newcomer's reserve succeeds, and exclusion is lost, precisely when i has overrun.
   */
  lemma NewcomerIntrudesIffOverrun(window: int, ss: seq<State>, es: seq<Event>, k: nat, i: nat, j: nat, owner: string)
    requires Run(window, ss, es) && k < |ss| && Undisturbed(ss, es, k)
    requires At(ss[k], i) && InProgress(ss[k].invs[i])
    requires At(ss[k], j) && ss[k].invs[j].stage.Missed? && ss[k].invs[j].key == ss[k].invs[i].key
    requires owner !in ss[k].owners
    requires forall h :: At(ss[k], h) && h != i && ss[k].invs[h].key == ss[k].invs[i].key ==>
                           !InProgress(ss[k].invs[h]) && (Completed(ss[k].invs[h]) ==> ss[k].invs[h].stage.at + window as real <= ss[k].now)
    ensures Step(window, ss[k], TryReserve(j, owner)).invs[j].stage.Executing?
       <==> !WithinReservation(ss[k].invs[i], ss[k].now)
  {
    var s := ss[k];
    var key := s.invs[i].key;
    AlwaysGrounded(window, ss, es, k);
    AlwaysExclusive(window, ss, es, k);
    assert Held(s, i);
    if Live(s.space, s.now, IdemName(key)) {
      NoMarkerBeyondReservation(window, ss, es, k, i);
      LiveKeyIsHeldInTime(window, s, i);
    }
  }

  lemma LiveKeyIsHeldInTime(window: int, s: State, i: nat)
    requires Grounded(window, s) && At(s, i) && InProgress(s.invs[i]) && Dated(s, i)
    requires Live(s.space, s.now, IdemName(s.invs[i].key))
    requires forall h :: At(s, h) && h != i && s.invs[h].key == s.invs[i].key ==>
                           !InProgress(s.invs[h]) && (Completed(s.invs[h]) ==> s.invs[h].stage.at + window as real <= s.now)
    ensures WithinReservation(s.invs[i], s.now)
  {
    var key := s.invs[i].key;
    assert Sourced(window, s, key);
    var h :| SourceOf(window, s, h, key);
  }

  // A live marker dies with the reservation that wrote it.
  ghost predicate Dated(s: State, i: nat)
    requires At(s, i)
  {
    var v := s.invs[i];
    var n := IdemName(v.key);
    InProgress(v) && n in s.space && s.space[n].value == Text(PendingValue(v.owner)) ==>
      s.space[n].deadline == Some(v.since + RESERVATION_TTL_SECONDS as real)
  }

  ghost predicate Unclaimed(s: State) {
    forall n, owner :: n in s.space && n.IdemName? && owner !in s.owners ==> s.space[n].value != Text(PendingValue(owner))
  }

  lemma UnclaimedStep(window: int, s: State, e: Event)
    requires Enabled(s, e) && Unclaimed(s)
    ensures Unclaimed(Step(window, s, e))
  {
    var t := Step(window, s, e);
    forall n, owner | n in t.space && n.IdemName? && owner !in t.owners
      ensures t.space[n].value != Text(PendingValue(owner))
    {
      if e.TryReserve? && t.space[n].value == Text(PendingValue(e.owner)) {
        if PendingValue(owner) == PendingValue(e.owner) {
          PendingValueInjective(owner, e.owner);
        }
      } else if e.Act? && s.invs[e.i].stage.verdict.Success? {
        PendingIsNeverAResult(owner, s.invs[e.i].stage.verdict.result);
      }
    }
  }

  lemma {:induction false} NoMarkerBeyondReservation(window: int, ss: seq<State>, es: seq<Event>, k: nat, i: nat)
    requires Run(window, ss, es) && k < |ss| && At(ss[k], i)
    ensures Dated(ss[k], i) && Unclaimed(ss[k])
  {
    if k > 0 {
      var s, e := ss[k - 1], es[k - 1];
      AlwaysGrounded(window, ss, es, k - 1);
      if At(s, i) {
        NoMarkerBeyondReservation(window, ss, es, k - 1, i);
        DatedStep(window, s, e, i);
      } else {
        AlwaysUnclaimed(window, ss, es, k - 1);
      }
      UnclaimedStep(window, s, e);
    }
  }

  lemma {:induction false} AlwaysUnclaimed(window: int, ss: seq<State>, es: seq<Event>, k: nat)
    requires Run(window, ss, es) && k < |ss|
    ensures Unclaimed(ss[k])
  {
    if k > 0 {
      AlwaysUnclaimed(window, ss, es, k - 1);
      UnclaimedStep(window, ss[k - 1], es[k - 1]);
    }
  }

  lemma DatedStep(window: int, s: State, e: Event, i: nat)
    requires Enabled(s, e) && Orderly(s) && Unclaimed(s) && At(s, i) && Dated(s, i)
    ensures Dated(Step(window, s, e), i)
  {
    var t := Step(window, s, e);
    var v := t.invs[i];
    var n := IdemName(v.key);
    if InProgress(v) && n in t.space && t.space[n].value == Text(PendingValue(v.owner)) {
      if e.TryReserve? {
        if PendingValue(v.owner) == PendingValue(e.owner) {
          PendingValueInjective(v.owner, e.owner);
        }
      } else if e.Act? && s.invs[e.i].stage.verdict.Success? {
        PendingIsNeverAResult(v.owner, s.invs[e.i].stage.verdict.result);
      }
    }
  }

  // ---- What an invocation meets ----

  // The invocation holds the key, in time.
  ghost predicate HoldsKey(s: State, i: nat, key: string) {
    At(s, i) && s.invs[i].key == key && InProgress(s.invs[i]) && WithinReservation(s.invs[i], s.now)
  }

  // The invocation has completed with this result, which is still in its window.
  ghost predicate KeepsResult(window: int, s: State, i: nat, key: string, result: string) {
    && At(s, i) && s.invs[i].key == key && Completed(s.invs[i])
    && s.invs[i].stage.verdict.result == result && s.now < s.invs[i].stage.at + window as real
  }

  lemma HeldKeyShows(window: int, s: State, i: nat, key: string)
    requires Exclusive(window, s) && HoldsKey(s, i, key)
    ensures Live(s.space, s.now, IdemName(key)) && Viewed(s.space, s.now, key) == Conflict
  {
    assert Held(s, i);
    PendingIsNeverAResult(s.invs[i].owner, "{}");
  }

  lemma KeptResultShows(window: int, s: State, i: nat, key: string, result: string)
    requires Exclusive(window, s) && KeepsResult(window, s, i, key, result)
    ensures Live(s.space, s.now, IdemName(key)) && Viewed(s.space, s.now, key) == Cached(result)
  {
    assert Kept(window, s, i);
    PendingIsNeverAResult("", s.invs[i].stage.verdict.result);
  }

  lemma LiveKeyIsOwned(window: int, s: State, key: string)
    requires Grounded(window, s) && (forall i :: At(s, i) ==> Dated(s, i)) && Live(s.space, s.now, IdemName(key))
    ensures Viewed(s.space, s.now, key) == Conflict ==> exists i :: HoldsKey(s, i, key)
    ensures Viewed(s.space, s.now, key).Cached? ==> exists i :: KeepsResult(window, s, i, key, Viewed(s.space, s.now, key).result)
    ensures Viewed(s.space, s.now, key) != Unseen
  {
    assert Sourced(window, s, key);
    var i :| SourceOf(window, s, i, key);
    if HeldBy(s, i, s.space[IdemName(key)].value) {
      PendingIsNeverAResult(s.invs[i].owner, "{}");
      assert HoldsKey(s, i, key);
    } else {
      PendingIsNeverAResult("", s.invs[i].stage.verdict.result);
      assert KeepsResult(window, s, i, key, s.invs[i].stage.verdict.result);
    }
  }

  lemma KeyShows(window: int, ss: seq<State>, es: seq<Event>, k: nat, key: string)
    requires Run(window, ss, es) && k < |ss| && Undisturbed(ss, es, k)
    ensures
      var s := ss[k];
      var view := Viewed(s.space, s.now, key);
      && (view == Conflict <==> exists i :: HoldsKey(s, i, key))
      && (view.Cached? ==> exists i :: KeepsResult(window, s, i, key, view.result))
      && (forall i, result :: KeepsResult(window, s, i, key, result) ==> view == Cached(result))
      && (Live(s.space, s.now, IdemName(key)) <==> (exists i :: HoldsKey(s, i, key)) || exists i, result :: KeepsResult(window, s, i, key, result))
      && (view == Unseen <==> !Live(s.space, s.now, IdemName(key)))
  {
    var s := ss[k];
    AlwaysGrounded(window, ss, es, k);
    AlwaysExclusive(window, ss, es, k);
    forall i | At(s, i) ensures Dated(s, i) {
      NoMarkerBeyondReservation(window, ss, es, k, i);
    }
    forall i | HoldsKey(s, i, key) ensures Live(s.space, s.now, IdemName(key)) && Viewed(s.space, s.now, key) == Conflict {
      HeldKeyShows(window, s, i, key);
    }
    forall i, result | KeepsResult(window, s, i, key, result) ensures Live(s.space, s.now, IdemName(key)) && Viewed(s.space, s.now, key) == Cached(result) {
      KeptResultShows(window, s, i, key, result);
    }
    if Live(s.space, s.now, IdemName(key)) {
      LiveKeyIsOwned(window, s, key);
    }
  }

  /**
   What an invocation meets under its key, exactly.  In an undisturbed run a read is denied if and
   only if another invocation holds the key in time, it replays a result if and only if one completed
   with that result less than a window ago, and it goes on to reserve otherwise; and a reserve then
   succeeds if and only if, at its own moment, nobody holds the key and no result is in its window.
   */
  lemma KeyDecides(window: int, ss: seq<State>, es: seq<Event>, k: nat, j: nat, owner: string)
    requires Run(window, ss, es) && k < |ss| && Undisturbed(ss, es, k) && At(ss[k], j) && owner !in ss[k].owners
    ensures
      var s := ss[k];
      var key := s.invs[j].key;
      var held := exists i :: HoldsKey(s, i, key);
      var kept := exists i, result :: KeepsResult(window, s, i, key, result);
      && (s.invs[j].stage.Arrived? ==>
            var stage := Step(window, s, Read(j)).invs[j].stage;
            && (stage == Denied <==> held)
            && (forall result :: stage == Replayed(result, s.now) <==> exists i :: KeepsResult(window, s, i, key, result))
            && (stage == Missed <==> !held && !kept))
      && (s.invs[j].stage.Missed? ==>
            var stage := Step(window, s, TryReserve(j, owner)).invs[j].stage;
            && (stage == Executing <==> !held && !kept) && (stage == Denied <==> held || kept))
  {
    var s := ss[k];
    var key := s.invs[j].key;
    KeyShows(window, ss, es, k, key);
    if s.invs[j].stage.Arrived? {
      assert Enabled(s, Read(j));
    }
    if s.invs[j].stage.Missed? {
      assert Enabled(s, TryReserve(j, owner));
    }
  }

  // ---- The hypotheses are needed ----

  ghost function Start(): State {
    State(0.0, map[], map[], {})
  }

  lemma Extend(ss: seq<State>, es: seq<Event>, e: Event) returns (ts: seq<State>, fs: seq<Event>)
    requires Run(3600, ss, es) && NothingLost(es) && !e.Lose? && Enabled(ss[|es|], e)
    ensures Run(3600, ts, fs) && NothingLost(fs) && ts[|fs|] == Step(3600, ss[|es|], e)
  {
    ts, fs := ss + [Step(3600, ss[|es|], e)], es + [e];
  }

  lemma ReservedRun() returns (ss: seq<State>, es: seq<Event>)
    ensures Run(3600, ss, es) && NothingLost(es)
    ensures ss[|es|] == State(0.0, map[IdemName("k") := Entry(Text(PendingValue("a")), Some(60.0))], map[0 := Invocation("k", Executing, "a", 0.0, 0)], {"a"})
  {
    ss, es := [Start()], [];
    ss, es := Extend(ss, es, Arrive(0, "k"));
    ss, es := Extend(ss, es, Read(0));
    ss, es := Extend(ss, es, TryReserve(0, "a"));
  }

  /**
   The default retry budget, four attempts of 15 s and 1.4 s of backoff, outlasts a reservation:
   a run that loses no key and races no act in which two invocations execute under one key.
   */
  lemma OverrunBreaksExclusion() returns (ss: seq<State>, es: seq<Event>)
    ensures Run(3600, ss, es) && NothingLost(es)
    ensures
      var s := ss[|es|];
      && s.now == 4.0 * 15.0 + 1.4
      && At(s, 0) && At(s, 1) && s.invs[0].key == s.invs[1].key
      && s.invs[0].stage.Executing? && s.invs[1].stage.Executing?
      && WithinReservation(s.invs[1], s.now)
  {
    ss, es := ReservedRun();
    ss, es := Extend(ss, es, Tick(61.4));
    ss, es := Extend(ss, es, Arrive(1, "k"));
    ss, es := Extend(ss, es, Read(1));
    ss, es := Extend(ss, es, TryReserve(1, "b"));
  }

  /** The compare-then-act race: a marker that expires in between lets a stale release free its successor's key. */
  lemma ActRaceFreesTheSuccessor() returns (ss: seq<State>, es: seq<Event>)
    ensures Run(3600, ss, es) && NothingLost(es)
    ensures
      var s := ss[|es|];
      && At(s, 1) && s.invs[1].key == "k" && s.invs[1].stage.Executing? && WithinReservation(s.invs[1], s.now)
      && Viewed(s.space, s.now, "k") == Unseen
  {
    ss, es := ReservedRun();
    PendingIsNeverAResult("a", "{}");
    ss, es := Extend(ss, es, Conclude(0, Failure));
    ss, es := Extend(ss, es, Compare(0));
    ss, es := Extend(ss, es, Tick(60.0));
    assert ss[|es|].invs[0].stage == Acting(Failure);
    ss, es := Extend(ss, es, Arrive(1, "k"));
    ss, es := Extend(ss, es, Read(1));
    ss, es := Extend(ss, es, TryReserve(1, "b"));
    ss, es := Extend(ss, es, Act(0));
  }
}
