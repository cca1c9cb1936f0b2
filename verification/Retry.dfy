/**
 The retry loop around one provider call.

 `NextLoop` is the loop as an automaton over the actions an outsider can see: asking the
 breaker, one reply of the provider, one backoff sleep.  The method `CallWithRetries` is the
 loop itself on a breaker that other loops use during every await, and its trace is a path of
 the automaton.
 */
module Retry {
  import opened Common
  import opened CircuitBreaker

  datatype Failure = Timeout | Transport | ProviderStatus(code: Option<int>) | Malformed | Unexpected

  datatype Reply = Replied(result: Json) | Failed(failure: Failure)

  // default_retryable
  predicate Retryable(f: Failure) {
    match f
    case Timeout => true
    case Transport => true
    case ProviderStatus(code) => code.Some? && code.value >= 500
    case Malformed => false
    case Unexpected => false
  }

  // The provider is at fault, or the way to it: no answer came, or one with a 5xx status.
  ghost predicate Outage(f: Failure) {
    f == Timeout || f == Transport || (f.ProviderStatus? && f.code.Some? && f.code.value >= 500)
  }

  datatype Params = Params(maxRetries: int, baseDelay: real, hasCircuit: bool)

  datatype End = Returned(result: Json) | Unavailable | Raised(failure: Failure) | BadArguments

  datatype Loop = Ready(attempt: nat) | Waiting(attempt: nat) | Backoff(attempt: nat) | Over(end: End)

  datatype Act = Asked(granted: bool) | Answered(reply: Reply) | Slept(delay: real)

  function Pow2(n: nat): nat {
    if n == 0 then 1 else 2 * Pow2(n - 1)
  }

  function Delay(p: Params, attempt: nat): real {
    p.baseDelay * Pow2(attempt) as real
  }

  function Enter(p: Params, attempt: nat): Loop {
    if p.hasCircuit then Ready(attempt) else Waiting(attempt)
  }

  function Begin(p: Params): Loop {
    if p.maxRetries < 0 || p.baseDelay < 0.0 then Over(BadArguments) else Enter(p, 0)
  }

  function NextLoop(p: Params, l: Loop, a: Act): Option<Loop> {
    match (l, a)
    case (Ready(attempt), Asked(granted)) => Some(if granted then Waiting(attempt) else Over(Unavailable))
    case (Waiting(attempt), Answered(Replied(result))) => Some(Over(Returned(result)))
    case (Waiting(attempt), Answered(Failed(failure))) =>
      Some(if !Retryable(failure) || attempt >= p.maxRetries then Over(Raised(failure)) else Backoff(attempt))
    case (Backoff(attempt), Slept(delay)) => if delay == Delay(p, attempt) then Some(Enter(p, attempt + 1)) else None
    case _ => None
  }

  function LoopAfter(p: Params, acts: seq<Act>): Option<Loop> {
    if acts == [] then Some(Begin(p))
    else match LoopAfter(p, acts[..|acts| - 1])
      case None => None
      case Some(l) => NextLoop(p, l, acts[|acts| - 1])
  }

  // ---- Accounts of a trace ----

  datatype Kind = AskKind | SucceedKind | FailKind

  // What one action does to the breaker.
  function KindsOf(a: Act): seq<Kind> {
    match a
    case Asked(_) => [AskKind]
    case Answered(Replied(_)) => [SucceedKind]
    case Answered(Failed(failure)) => if Retryable(failure) then [FailKind] else []
    case Slept(_) => []
  }

  function Recorded(acts: seq<Act>): seq<Kind> {
    if acts == [] then [] else Recorded(acts[..|acts| - 1]) + KindsOf(acts[|acts| - 1])
  }

  function Calls(acts: seq<Act>): nat {
    if acts == [] then 0 else Calls(acts[..|acts| - 1]) + if acts[|acts| - 1].Answered? then 1 else 0
  }

  function GrantedAsks(acts: seq<Act>): nat {
    if acts == [] then 0 else GrantedAsks(acts[..|acts| - 1]) + if acts[|acts| - 1] == Asked(true) then 1 else 0
  }

  ghost function Rejections(acts: seq<Act>): nat {
    if acts == [] then 0
    else
      var a := acts[|acts| - 1];
      Rejections(acts[..|acts| - 1]) + if a.Answered? && a.reply.Failed? && !Outage(a.reply.failure) then 1 else 0
  }

  ghost function Records(acts: seq<Act>): nat {
    if acts == [] then 0
    else
      var a := acts[|acts| - 1];
      Records(acts[..|acts| - 1]) + if a.Answered? && (a.reply.Replied? || Outage(a.reply.failure)) then 1 else 0
  }

  function Sleeps(acts: seq<Act>): nat {
    if acts == [] then 0 else Sleeps(acts[..|acts| - 1]) + if acts[|acts| - 1].Slept? then 1 else 0
  }

  function TotalSleep(acts: seq<Act>): real {
    if acts == [] then 0.0
    else TotalSleep(acts[..|acts| - 1]) + if acts[|acts| - 1].Slept? then acts[|acts| - 1].delay else 0.0
  }

  function AtLeastZero(n: int): nat {
    if n < 0 then 0 else n
  }

  function Geometric(base: real, k: nat): real {
    base * (Pow2(k) - 1) as real
  }

  lemma Doubling(p: Params, k: nat)
    ensures Geometric(p.baseDelay, k) + Delay(p, k) == Geometric(p.baseDelay, k + 1)
  {
    var n: int := Pow2(k);
    assert p.baseDelay * (n - 1) as real + p.baseDelay * n as real == p.baseDelay * (2 * n - 1) as real;
  }

  /**
   Retry accounting, for every prefix of every loop: each call was granted, each answered call
   ends as a record or a rejection, and a loop makes at most 1 + max_retries calls and
   max_retries sleeps.
   */
  lemma {:induction false} Accounting(p: Params, acts: seq<Act>)
    requires LoopAfter(p, acts).Some?
    ensures
      var l := LoopAfter(p, acts).value;
      && (p.hasCircuit ==> GrantedAsks(acts) == Calls(acts) + if l.Waiting? then 1 else 0)
      && Calls(acts) == Records(acts) + Rejections(acts)
      && Sleeps(acts) <= AtLeastZero(p.maxRetries)
      && Calls(acts) <= 1 + AtLeastZero(p.maxRetries)
      && (l.Ready? || l.Waiting? ==> Calls(acts) == Sleeps(acts) == l.attempt <= p.maxRetries)
      && (l.Backoff? ==> Calls(acts) == Sleeps(acts) + 1 == l.attempt + 1 <= p.maxRetries)
  {
    if acts != [] {
      Accounting(p, acts[..|acts| - 1]);
    }
  }

  /** k sleeps take exactly base * (2^k - 1). */
  lemma {:induction false} BackoffTotal(p: Params, acts: seq<Act>)
    requires LoopAfter(p, acts).Some?
    ensures TotalSleep(acts) == Geometric(p.baseDelay, Sleeps(acts))
  {
    if acts != [] {
      var prior := acts[..|acts| - 1];
      BackoffTotal(p, prior);
      if acts[|acts| - 1].Slept? {
        Accounting(p, prior);
        Doubling(p, Sleeps(prior));
      }
    }
  }

  // What an answer leaves on the breaker: an outage counts against the provider, any other failure is the caller's own.
  ghost function RecordOf(reply: Reply): seq<Kind> {
    if reply.Replied? then [SucceedKind] else if Outage(reply.failure) then [FailKind] else []
  }

  lemma KindsOfAnswer(reply: Reply)
    ensures KindsOf(Answered(reply)) == RecordOf(reply)
  {
  }

  lemma OnlyTheSleepFollows(p: Params, acts: seq<Act>, attempt: nat, a: Act)
    requires LoopAfter(p, acts) == Some(Backoff(attempt))
    ensures LoopAfter(p, acts + [a]).Some? <==> a == Slept(Delay(p, attempt))
  {
    assert (acts + [a])[..|acts|] == acts;
  }

  lemma AnswerLeads(p: Params, acts: seq<Act>, reply: Reply)
    requires LoopAfter(p, acts).Some? && acts != [] && acts[|acts| - 1] == Answered(reply)
    ensures Recorded(acts) == Recorded(acts[..|acts| - 1]) + RecordOf(reply)
    ensures 1 <= Calls(acts)
    ensures LoopAfter(p, acts) == Some(if reply.Failed? && Outage(reply.failure) && Calls(acts) <= p.maxRetries then Backoff(Calls(acts) - 1)
                                       else Over(if reply.Failed? then Raised(reply.failure) else Returned(reply.result)))
  {
    Accounting(p, acts[..|acts| - 1]);
  }

  /**
   What follows an answer.  A result ends the loop; so does a failure that is no outage, at once,
   and an outage when every attempt is spent.  While attempts are left the only thing that can
   follow an outage is the backoff sleep, of base * 2^(k - 1) after the k-th call.
   */
  lemma AnswerDecides(p: Params, acts: seq<Act>, reply: Reply)
    requires LoopAfter(p, acts).Some? && acts != [] && acts[|acts| - 1] == Answered(reply)
    ensures Recorded(acts) == Recorded(acts[..|acts| - 1]) + RecordOf(reply)
    ensures 1 <= Calls(acts)
    ensures
      if reply.Failed? && Outage(reply.failure) && Calls(acts) <= p.maxRetries
      then forall a :: LoopAfter(p, acts + [a]).Some? <==> a == Slept(Delay(p, Calls(acts) - 1))
      else LoopAfter(p, acts) == Some(Over(if reply.Failed? then Raised(reply.failure) else Returned(reply.result)))
  {
    AnswerLeads(p, acts, reply);
    if LoopAfter(p, acts).value.Backoff? {
      forall a ensures LoopAfter(p, acts + [a]).Some? <==> a == Slept(Delay(p, Calls(acts) - 1)) {
        OnlyTheSleepFollows(p, acts, Calls(acts) - 1, a);
      }
    }
  }

  // The one cause of each end of a loop.
  ghost predicate Ends(p: Params, acts: seq<Act>, end: End) {
    match end
    case BadArguments => acts == [] && (p.maxRetries < 0 || p.baseDelay < 0.0)
    case Unavailable => acts != [] && acts[|acts| - 1] == Asked(false)
    case Returned(result) => acts != [] && acts[|acts| - 1] == Answered(Replied(result)) && Calls(acts) == Sleeps(acts) + 1
    case Raised(failure) =>
      && acts != [] && acts[|acts| - 1] == Answered(Failed(failure)) && Calls(acts) == Sleeps(acts) + 1
      && (Outage(failure) ==> Calls(acts) == 1 + p.maxRetries)
  }

  /** How each loop ends: an outage surfaces only once every attempt is spent, a result only after one call that returned it, and bad arguments always end the loop before it begins. */
  lemma {:induction false} EndExplained(p: Params, acts: seq<Act>)
    requires LoopAfter(p, acts).Some?
    ensures LoopAfter(p, acts).value.Over? ==> Ends(p, acts, LoopAfter(p, acts).value.end)
    ensures p.maxRetries < 0 || p.baseDelay < 0.0 ==> LoopAfter(p, acts) == Some(Over(BadArguments))
  {
    if acts != [] {
      EndExplained(p, acts[..|acts| - 1]);
      Accounting(p, acts[..|acts| - 1]);
    }
  }

  // ---- The loop itself ----

  // What happens outside while the loop awaits: the other users of the breaker, the provider's
  // reply and the clock.
  datatype Moment = Moment(others: seq<Call>, reply: Reply, syncAt: real, now: real)

  class Provider {
    const moments: nat -> Moment
    var asked: nat

    constructor (moments: nat -> Moment)
      ensures this.moments == moments && asked == 0
    {
      this.moments := moments;
      asked := 0;
    }

    method Await() returns (m: Moment)
      modifies this
      ensures asked == old(asked) + 1 && m == moments(old(asked))
    {
      m := moments(asked);
      asked := asked + 1;
    }
  }

  // The calls a breaker receives while a loop runs, marked by whether the loop made them.
  datatype Logged = Logged(call: Call, mine: bool)

  function CallsOf(log: seq<Logged>): seq<Call> {
    if log == [] then [] else CallsOf(log[..|log| - 1]) + [log[|log| - 1].call]
  }

  function KindOf(c: Call): seq<Kind> {
    match c
    case Ask(_) => [AskKind]
    case Succeed(_) => [SucceedKind]
    case Fail(_, _) => [FailKind]
    case Look(_) => []
  }

  function Mine(log: seq<Logged>): seq<Kind> {
    if log == [] then []
    else Mine(log[..|log| - 1]) + if log[|log| - 1].mine then KindOf(log[|log| - 1].call) else []
  }

  ghost function Note(log: seq<Logged>, c: Call, mine: bool): (longer: seq<Logged>)
    ensures CallsOf(longer) == CallsOf(log) + [c]
    ensures Mine(longer) == Mine(log) + if mine then KindOf(c) else []
  {
    var longer := log + [Logged(c, mine)];
    assert longer[..|longer| - 1] == log;
    longer
  }

  ghost function Then(p: Params, acts: seq<Act>, a: Act): (longer: seq<Act>)
    ensures LoopAfter(p, acts).Some? ==> LoopAfter(p, longer) == NextLoop(p, LoopAfter(p, acts).value, a)
    ensures Recorded(longer) == Recorded(acts) + KindsOf(a)
  {
    var longer := acts + [a];
    assert longer[..|longer| - 1] == acts;
    longer
  }

  // The breaker has received the calls of the log since it had received `before`, and the loop's own calls are those its trace calls for.
  ghost predicate Tracks(breaker: Breaker?, before: seq<Call>, acts: seq<Act>, log: seq<Logged>)
    reads breaker
  {
    breaker != null ==> breaker.Valid() && breaker.calls == before + CallsOf(log) && Mine(log) == Recorded(acts)
  }

  // The other loops' calls land on the shared breaker.
  method Interfere(breaker: Breaker?, others: seq<Call>, ghost before: seq<Call>, ghost acts: seq<Act>, ghost log: seq<Logged>)
    returns (ghost longer: seq<Logged>)
    requires Tracks(breaker, before, acts, log)
    modifies breaker
    ensures Tracks(breaker, before, acts, longer)
  {
    longer := log;
    if breaker == null {
      return;
    }
    for i := 0 to |others|
      invariant Tracks(breaker, before, acts, longer)
    {
      longer := Note(longer, others[i], false);
      match others[i] {
        case Ask(at) =>
          var _ := breaker.Allow(at);
        case Succeed(at) => breaker.RecordSuccess(at);
        case Fail(syncAt, at) => breaker.RecordFailure(syncAt, at);
        case Look(at) =>
          var _ := breaker.State(at);
      }
    }
  }

  // The check before an attempt; without a breaker every attempt goes ahead.
  method Admit(ghost p: Params, ghost attempt: nat, breaker: Breaker?, moment: Moment,
               ghost before: seq<Call>, ghost acts: seq<Act>, ghost log: seq<Logged>)
    returns (granted: bool, ghost done: seq<Act>, ghost longer: seq<Logged>)
    requires p.hasCircuit == (breaker != null)
    requires Tracks(breaker, before, acts, log) && LoopAfter(p, acts) == Some(Enter(p, attempt))
    modifies breaker
    ensures Tracks(breaker, before, done, longer)
    ensures LoopAfter(p, done) == Some(if granted then Waiting(attempt) else Over(Unavailable))
  {
    granted, done, longer := true, acts, log;
    if breaker != null {
      granted := breaker.Allow(moment.now);
      done, longer := Then(p, acts, Asked(granted)), Note(log, Ask(moment.now), true);
    }
  }

  // The record a reply leaves on the breaker: none for a failure that is not retryable.
  method RecordReply(breaker: Breaker?, moment: Moment, ghost before: seq<Call>, ghost log: seq<Logged>) returns (ghost longer: seq<Logged>)
    requires breaker != null ==> breaker.Valid() && breaker.calls == before + CallsOf(log)
    modifies breaker
    ensures breaker != null ==> breaker.Valid() && breaker.calls == before + CallsOf(longer)
    ensures breaker != null ==> Mine(longer) == Mine(log) + RecordOf(moment.reply)
  {
    longer := log;
    if breaker != null {
      if moment.reply.Replied? {
        breaker.RecordSuccess(moment.now);
        longer := Note(log, Succeed(moment.now), true);
        assert before + CallsOf(log) + [Succeed(moment.now)] == before + CallsOf(longer);
      } else if Retryable(moment.reply.failure) {
        breaker.RecordFailure(moment.syncAt, moment.now);
        longer := Note(log, Fail(moment.syncAt, moment.now), true);
        assert before + CallsOf(log) + [Fail(moment.syncAt, moment.now)] == before + CallsOf(longer);
      } else {
        assert Mine(log) + [] == Mine(log);
      }
    }
  }

  // What the loop makes of a reply: the record on the breaker, and whether the loop is over.
  method Settle(ghost p: Params, maxRetries: int, attempt: nat, breaker: Breaker?, moment: Moment,
                ghost before: seq<Call>, ghost acts: seq<Act>, ghost log: seq<Logged>)
    returns (end: Option<End>, ghost done: seq<Act>, ghost longer: seq<Logged>)
    requires p.maxRetries == maxRetries
    requires Tracks(breaker, before, acts, log) && LoopAfter(p, acts) == Some(Waiting(attempt))
    modifies breaker
    ensures Tracks(breaker, before, done, longer)
    ensures LoopAfter(p, done) == Some(if end.Some? then Over(end.value) else Backoff(attempt))
    ensures attempt >= maxRetries ==> end.Some?
  {
    done := Then(p, acts, Answered(moment.reply));
    longer := RecordReply(breaker, moment, before, log);
    KindsOfAnswer(moment.reply);
    end := match moment.reply
      case Replied(result) => Some(Returned(result))
      case Failed(failure) => if Retryable(failure) && attempt < maxRetries then None else Some(Raised(failure));
  }

  // One attempt: ask, call, and settle the reply.
  method Attempt(ghost p: Params, maxRetries: int, attempt: nat, breaker: Breaker?, provider: Provider,
                 ghost before: seq<Call>, ghost acts: seq<Act>, ghost log: seq<Logged>)
    returns (end: Option<End>, ghost done: seq<Act>, ghost longer: seq<Logged>)
    requires p.hasCircuit == (breaker != null) && p.maxRetries == maxRetries
    requires Tracks(breaker, before, acts, log) && LoopAfter(p, acts) == Some(Enter(p, attempt))
    modifies breaker, provider
    ensures Tracks(breaker, before, done, longer)
    ensures LoopAfter(p, done) == Some(if end.Some? then Over(end.value) else Backoff(attempt))
    ensures attempt >= maxRetries ==> end.Some?
  {
    var moment := provider.Await();
    var granted;
    granted, done, longer := Admit(p, attempt, breaker, moment, before, acts, log);
    if !granted {
      return Some(Unavailable), done, longer;
    }
    longer := Interfere(breaker, moment.others, before, done, longer);
    end, done, longer := Settle(p, maxRetries, attempt, breaker, moment, before, done, longer);
  }

  method CallWithRetries(maxRetries: int, baseDelay: real, breaker: Breaker?, provider: Provider)
    returns (end: End, ghost acts: seq<Act>, ghost log: seq<Logged>)
    requires breaker != null ==> breaker.Valid()
    modifies breaker, provider
    ensures Tracks(breaker, if breaker == null then [] else old(breaker.calls), acts, log)
    ensures LoopAfter(Params(maxRetries, baseDelay, breaker != null), acts) == Some(Over(end))
    ensures Ends(Params(maxRetries, baseDelay, breaker != null), acts, end)
  {
    acts, log := [], [];
    if maxRetries < 0 || baseDelay < 0.0 {
      return BadArguments, acts, log;
    }
    ghost var p := Params(maxRetries, baseDelay, breaker != null);
    ghost var before := if breaker == null then [] else breaker.calls;
    var attempt := 0;
    while attempt <= maxRetries
      invariant 0 <= attempt <= maxRetries
      invariant Tracks(breaker, before, acts, log)
      invariant LoopAfter(p, acts) == Some(Enter(p, attempt))
    {
      var over;
      over, acts, log := Attempt(p, maxRetries, attempt, breaker, provider, before, acts, log);
      if over.Some? {
        EndExplained(p, acts);
        return over.value, acts, log;
      }
      acts := Then(p, acts, Slept(Delay(p, attempt)));
      var rest := provider.Await();
      log := Interfere(breaker, rest.others, before, acts, log);
      attempt := attempt + 1;
    }
    assert false;
  }

  /** The service's breakers, one for each provider, created on first use. */
  class Circuits {
    const cfg: Config
    var breakers: map<string, Breaker>

    constructor (cfg: Config)
      ensures Good() && this.cfg == cfg && breakers == map[]
    {
      this.cfg, breakers := cfg, map[];
    }

    ghost predicate Good()
      reads this, breakers.Values
    {
      && (forall p :: p in breakers ==> breakers[p].Valid() && breakers[p].cfg == cfg)
      && (forall p, q :: p in breakers && q in breakers && p != q ==> breakers[p] != breakers[q])
    }

    // The calls a provider's breaker has received.
    ghost function CallsTo(provider: string): seq<CircuitBreaker.Call>
      reads this, breakers.Values
    {
      if provider in breakers then breakers[provider].calls else []
    }

    // No breaker if the settings allow none.
    method For(provider: string) returns (circuit: Breaker?)
      requires Good()
      modifies this
      ensures Good() && (circuit != null <==> ValidConfig(cfg))
      ensures circuit != null ==> provider in breakers && breakers[provider] == circuit && circuit.calls == old(CallsTo(provider))
      ensures breakers == old(breakers) || (provider !in old(breakers) && fresh(circuit) && breakers == old(breakers)[provider := circuit])
    {
      if provider in breakers {
        return breakers[provider];
      }
      var built := Breaker.Build(cfg);
      if built.Err? {
        return null;
      }
      breakers := breakers[provider := built.value];
      return built.value;
    }

    // The loop on a breaker that the provider has: no other is touched.
    method CallOn(circuit: Breaker, ghost provider: string, maxRetries: int, baseDelay: real, moments: nat -> Moment)
      returns (end: End, ghost acts: seq<Act>, ghost log: seq<Logged>)
      requires Good() && provider in breakers && breakers[provider] == circuit
      modifies circuit
      ensures Good() && LoopAfter(Params(maxRetries, baseDelay, true), acts) == Some(Over(end))
      ensures circuit.calls == old(circuit.calls) + CallsOf(log) && Mine(log) == Recorded(acts)
    {
      var outbound := new Provider(moments);
      end, acts, log := CallWithRetries(maxRetries, baseDelay, circuit, outbound);
    }

    // One outbound phase: the call with its retries, on the provider's breaker.  That breaker
    // receives the calls of the log, of which the loop's own are those its trace calls for; the
    // breakers of other providers receive none.
    method Call(provider: string, maxRetries: int, baseDelay: real, moments: nat -> Moment)
      returns (end: End, ghost acts: seq<Act>, ghost log: seq<Logged>)
      requires Good()
      modifies this, breakers.Values
      ensures Good() && fresh(breakers.Values - old(breakers.Values))
      ensures !ValidConfig(cfg) ==> end == BadArguments && breakers == old(breakers)
      ensures ValidConfig(cfg) ==> LoopAfter(Params(maxRetries, baseDelay, true), acts) == Some(Over(end))
      ensures ValidConfig(cfg) ==> CallsTo(provider) == old(CallsTo(provider)) + CallsOf(log) && Mine(log) == Recorded(acts)
      ensures forall p :: p != provider ==> (p in breakers <==> p in old(breakers)) && CallsTo(p) == old(CallsTo(p))
    {
      var circuit := For(provider);
      if circuit == null {
        return BadArguments, [], [];
      }
      end, acts, log := CallOn(circuit, provider, maxRetries, baseDelay, moments);
    }
  }
}
