/**
 The closed / open / half-open circuit breaker.

 The breaker stores four fields and moves them lazily, whenever it is asked something.
 `Play` runs any sequence of timed calls on those fields; the specification reads the same
 sequence as a history (failures since the last success, time of the last failure, whether a
 grant followed it) and never mentions the fields.
 */
module CircuitBreaker {
  import opened Common

  datatype Status = Closed | Open | HalfOpen

  datatype Config = Config(threshold: int, reset: real)

  predicate ValidConfig(cfg: Config) {
    cfg.threshold >= 1 && cfg.reset >= 0.0
  }

  datatype Fields = Fields(status: Status, failures: nat, openedAt: Option<real>, probing: bool)

  const INITIAL := Fields(Closed, 0, None, false)

  function Synced(cfg: Config, f: Fields, now: real): Fields {
    if f.status.Open? && f.openedAt.Some? && now - f.openedAt.value >= cfg.reset
    then f.(status := HalfOpen, probing := false)
    else f
  }

  function Tripped(f: Fields, now: real): Fields {
    f.(status := Open, openedAt := Some(now), probing := false)
  }

  // The calls a breaker receives.  A failure reads the clock twice, once to sync and once to trip.
  datatype Call =
    | Ask(at: real)
    | Succeed(at: real)
    | Fail(syncAt: real, at: real)
    | Look(at: real)

  predicate Grants(cfg: Config, f: Fields, now: real) {
    var g := Synced(cfg, f, now);
    g.status.Closed? || (g.status.HalfOpen? && !g.probing)
  }

  function After(cfg: Config, f: Fields, c: Call): Fields {
    match c
    case Ask(at) =>
      var g := Synced(cfg, f, at);
      if g.status.HalfOpen? && !g.probing then g.(probing := true) else g
    case Succeed(_) => INITIAL
    case Fail(syncAt, at) =>
      var g := Synced(cfg, f, syncAt);
      if g.status.Closed? then
        var counted := g.(failures := g.failures + 1);
        if counted.failures >= cfg.threshold then Tripped(counted, at) else counted
      else Tripped(g, at)
    case Look(at) => Synced(cfg, f, at)
  }

  function Play(cfg: Config, cs: seq<Call>): Fields {
    if cs == [] then INITIAL else After(cfg, Play(cfg, cs[..|cs| - 1]), cs[|cs| - 1])
  }

  ghost predicate Monotone(cs: seq<Call>) {
    && (forall i, j :: 0 <= i < j < |cs| ==> cs[i].at <= cs[j].at)
    && (forall i :: 0 <= i < |cs| && cs[i].Fail? ==> cs[i].syncAt <= cs[i].at)
    && (forall i, j :: 0 <= i < j < |cs| && cs[j].Fail? ==> cs[i].at <= cs[j].syncAt)
  }

  // ---- The history, read without the fields ----

  function FailuresSinceSuccess(cs: seq<Call>): nat {
    if cs == [] then 0
    else match cs[|cs| - 1]
      case Succeed(_) => 0
      case Fail(_, _) => FailuresSinceSuccess(cs[..|cs| - 1]) + 1
      case _ => FailuresSinceSuccess(cs[..|cs| - 1])
  }

  function LastFailure(cs: seq<Call>): Option<real> {
    if cs == [] then None
    else if cs[|cs| - 1].Fail? then Some(cs[|cs| - 1].at)
    else LastFailure(cs[..|cs| - 1])
  }

  predicate ShouldGrant(cfg: Config, cs: seq<Call>, now: real)
    decreases cs, 1
  {
    || FailuresSinceSuccess(cs) < cfg.threshold
    || (LastFailure(cs).Some? && now - LastFailure(cs).value >= cfg.reset && !GrantedSinceFailure(cfg, cs))
  }

  // Whether some ask after the latest failure was granted.
  predicate GrantedSinceFailure(cfg: Config, cs: seq<Call>)
    decreases cs, 0
  {
    if cs == [] then false
    else match cs[|cs| - 1]
      case Fail(_, _) => false
      case Ask(at) => GrantedSinceFailure(cfg, cs[..|cs| - 1]) || ShouldGrant(cfg, cs[..|cs| - 1], at)
      case _ => GrantedSinceFailure(cfg, cs[..|cs| - 1])
  }

  predicate IsTripped(cfg: Config, cs: seq<Call>) {
    FailuresSinceSuccess(cs) >= cfg.threshold
  }

  // The stored fields, as a function of the history.
  ghost predicate Explained(cfg: Config, cs: seq<Call>, f: Fields) {
    && (f.status.Closed? <==> !IsTripped(cfg, cs))
    && (f.status.Closed? ==> f.failures == FailuresSinceSuccess(cs) && f.openedAt.None? && !f.probing)
    && (!f.status.Closed? ==> f.openedAt.Some? && f.openedAt == LastFailure(cs))
    && (f.status.Open? ==> !GrantedSinceFailure(cfg, cs) && !f.probing)
    && (f.status.HalfOpen? ==> (f.probing <==> GrantedSinceFailure(cfg, cs)) && cs[|cs| - 1].at - f.openedAt.value >= cfg.reset)
  }

  /** The breaker refines its history: after any calls on a monotone clock its fields are the ones the history dictates. */
  lemma {:induction false} FieldsExplained(cfg: Config, cs: seq<Call>)
    requires ValidConfig(cfg) && Monotone(cs)
    ensures cs == [] ==> Play(cfg, cs) == INITIAL
    ensures Play(cfg, cs).status.HalfOpen? ==> cs != []
    ensures Explained(cfg, cs, Play(cfg, cs))
  {
    if cs != [] {
      var prior := cs[..|cs| - 1];
      FieldsExplained(cfg, prior);
      var f := Play(cfg, prior);
      var c := cs[|cs| - 1];
      assert prior != [] ==> prior[|prior| - 1].at <= c.at;
      if c.Ask? {
        GrantExplained(cfg, prior, f, c.at);
      }
    }
  }

  lemma GrantExplained(cfg: Config, cs: seq<Call>, f: Fields, now: real)
    requires ValidConfig(cfg) && (f.status.HalfOpen? ==> cs != []) && Explained(cfg, cs, f)
    requires cs != [] ==> cs[|cs| - 1].at <= now
    ensures Grants(cfg, f, now) <==> ShouldGrant(cfg, cs, now)
  {
  }

  /** `allow` grants exactly when closed, or a reset window has passed since the last failure and no grant followed it. */
  lemma AllowRefinesHistory(cfg: Config, cs: seq<Call>, now: real)
    requires ValidConfig(cfg) && Monotone(cs + [Ask(now)])
    ensures Grants(cfg, Play(cfg, cs), now) <==> ShouldGrant(cfg, cs, now)
  {
    var all := cs + [Ask(now)];
    assert all[..|cs|] == cs;
    assert forall i :: 0 <= i < |cs| ==> cs[i] == all[i] && all[i].at <= all[|cs|].at;
    FieldsExplained(cfg, cs);
    GrantExplained(cfg, cs, Play(cfg, cs), now);
  }

  /** The tripping clock reading alone matters: the reading used to sync never changes what a failure leaves behind. */
  lemma SyncReadingIsIrrelevant(cfg: Config, f: Fields, syncAt: real, other: real, at: real)
    requires f.status.Closed? ==> f.openedAt.None?
    ensures After(cfg, f, Fail(syncAt, at)) == After(cfg, f, Fail(other, at))
  {
  }

  predicate IsRecord(c: Call) {
    c.Succeed? || c.Fail?
  }

  lemma {:induction false} GrantedStays(cfg: Config, cs: seq<Call>, n: nat, m: nat)
    requires n <= m <= |cs| && GrantedSinceFailure(cfg, cs[..n])
    requires forall k :: n <= k < m ==> !cs[k].Fail?
    ensures GrantedSinceFailure(cfg, cs[..m])
    decreases m
  {
    if n < m {
      GrantedStays(cfg, cs, n, m - 1);
      assert cs[..m][..m - 1] == cs[..m - 1];
    }
  }

  /** Probe exclusivity: between two grants of a tripped breaker there is a record. */
  lemma GrantsOfATrippedBreakerAreSeparated(cfg: Config, cs: seq<Call>, i: nat, j: nat)
    requires i < j < |cs| && cs[i].Ask? && cs[j].Ask?
    requires ShouldGrant(cfg, cs[..i], cs[i].at) && ShouldGrant(cfg, cs[..j], cs[j].at)
    requires IsTripped(cfg, cs[..j])
    ensures exists k :: i < k < j && IsRecord(cs[k])
  {
    if forall k :: i < k < j ==> !cs[k].Fail? {
      assert cs[..i + 1][..i] == cs[..i];
      GrantedStays(cfg, cs, i + 1, j);
    } else {
      var k :| i < k < j && cs[k].Fail?;
      assert IsRecord(cs[k]);
    }
  }

  /** Recovery: an untaken probe slot is granted once the reset window has passed, and a success closes the breaker. */
  lemma ElapsedWindowAdmitsAProbe(cfg: Config, cs: seq<Call>, now: real)
    requires ValidConfig(cfg) && Monotone(cs + [Ask(now)])
    requires IsTripped(cfg, cs) && !GrantedSinceFailure(cfg, cs)
    ensures LastFailure(cs).Some?
    ensures Grants(cfg, Play(cfg, cs), now) <==> now - LastFailure(cs).value >= cfg.reset
    ensures !IsTripped(cfg, cs + [Succeed(now)])
    ensures Play(cfg, cs + [Succeed(now)]) == INITIAL
  {
    AllowRefinesHistory(cfg, cs, now);
    var all := cs + [Ask(now)];
    assert all[..|cs|] == cs;
    assert forall i :: 0 <= i < |cs| ==> cs[i] == all[i];
    FieldsExplained(cfg, cs);
    assert (cs + [Succeed(now)])[..|cs|] == cs;
  }

  /**
   A probe that records nothing keeps its slot: whatever follows, as long as nobody records a
   result, every ask is refused, however long the reset window has been over.
   */
  lemma {:induction false} UnrecordedProbeWedges(cfg: Config, cs: seq<Call>, more: seq<Call>, now: real)
    requires IsTripped(cfg, cs) && GrantedSinceFailure(cfg, cs)
    requires forall k :: 0 <= k < |more| ==> !IsRecord(more[k])
    ensures IsTripped(cfg, cs + more) && GrantedSinceFailure(cfg, cs + more)
    ensures !ShouldGrant(cfg, cs + more, now)
    decreases |more|
  {
    if more == [] {
      assert cs + more == cs;
    } else {
      UnrecordedProbeWedges(cfg, cs, more[..|more| - 1], now);
      assert (cs + more)[..|cs + more| - 1] == cs + more[..|more| - 1];
    }
  }

  /** The breaker as the broker holds it, one object shared by every call to a provider. */
  class Breaker {
    const cfg: Config
    var status: Status
    var failures: nat
    var openedAt: Option<real>
    var probing: bool
    ghost var calls: seq<Call>

    function View(): Fields
      reads this
    {
      Fields(status, failures, openedAt, probing)
    }

    // The fields are those of the calls received so far.
    ghost predicate Valid()
      reads this
    {
      ValidConfig(cfg) && View() == Play(cfg, calls)
    }

    constructor (cfg: Config)
      requires ValidConfig(cfg)
      ensures Valid() && this.cfg == cfg && calls == [] && View() == INITIAL
    {
      this.cfg := cfg;
      status, failures, openedAt, probing := Closed, 0, None, false;
      calls := [];
    }

    // The constructor's own checks.
    static method Build(cfg: Config) returns (r: Result<Breaker, string>)
      ensures r.Ok? <==> ValidConfig(cfg)
      ensures r.Ok? <==> cfg.threshold >= 1 && cfg.reset >= 0.0
      ensures r.Ok? ==> fresh(r.value) && r.value.Valid() && r.value.cfg == cfg && r.value.calls == []
    {
      if cfg.threshold < 1 {
        return Err("failure_threshold must be >= 1");
      }
      if cfg.reset < 0.0 {
        return Err("reset_seconds must be >= 0");
      }
      var b := new Breaker(cfg);
      return Ok(b);
    }

    method Sync(now: real)
      modifies this`status, this`probing
      ensures View() == Synced(cfg, old(View()), now)
    {
      if status.Open? && openedAt.Some? && now - openedAt.value >= cfg.reset {
        status, probing := HalfOpen, false;
      }
    }

    method State(now: real) returns (s: Status)
      requires Valid()
      modifies this
      ensures Valid() && calls == old(calls) + [Look(now)]
      ensures s == status
    {
      Sync(now);
      s := status;
      calls := calls + [Look(now)];
      assert calls[..|calls| - 1] == old(calls);
    }

    method Allow(now: real) returns (granted: bool)
      requires Valid()
      modifies this
      ensures Valid() && calls == old(calls) + [Ask(now)]
      ensures granted == Grants(cfg, old(View()), now)
      ensures Monotone(calls) ==> granted == ShouldGrant(cfg, old(calls), now)
    {
      ghost var before := View();
      Sync(now);
      if status.Open? {
        granted := false;
      } else if status.HalfOpen? && probing {
        granted := false;
      } else {
        if status.HalfOpen? {
          probing := true;
        }
        granted := true;
      }
      ghost var was := calls;
      calls := calls + [Ask(now)];
      assert calls[..|calls| - 1] == was;
      if Monotone(calls) {
        AllowRefinesHistory(cfg, was, now);
      }
    }

    method RecordSuccess(ghost now: real)
      requires Valid()
      modifies this
      ensures Valid() && calls == old(calls) + [Succeed(now)]
      ensures View() == INITIAL
    {
      status, failures, openedAt, probing := Closed, 0, None, false;
      calls := calls + [Succeed(now)];
      assert calls[..|calls| - 1] == old(calls);
    }

    method RecordFailure(syncAt: real, now: real)
      requires Valid()
      modifies this
      ensures Valid() && calls == old(calls) + [Fail(syncAt, now)]
    {
      Sync(syncAt);
      if status.Closed? {
        failures := failures + 1;
        if failures >= cfg.threshold {
          Trip(now);
        }
      } else {
        Trip(now);
      }
      calls := calls + [Fail(syncAt, now)];
      assert calls[..|calls| - 1] == old(calls);
    }

    method Trip(now: real)
      modifies this`status, this`openedAt, this`probing
      ensures View() == Tripped(old(View()), now)
    {
      status, openedAt, probing := Open, Some(now), false;
    }
  }
}
