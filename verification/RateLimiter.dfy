/**
 The fixed-window rate limiter.

 A check reads the clock to choose its window, and its INCR reaches the server later.  Two
 forms: the method `Check`, as the service runs it against the key space, and the run of a whole
 event sequence, in which any time passes between a clock reading and its INCR, the EXPIRE of
 one check may arrive late, be repeated or be lost, and other checks fall in between.
 */
module RateLimiter {
  import opened Common
  import opened Redis

  function WindowOf(at: real, window: int): int
    requires window > 0
  {
    (at / window as real).Floor
  }

  lemma WindowBounds(at: real, window: int)
    requires window > 0
    ensures WindowOf(at, window) as real * window as real <= at
    ensures at < (WindowOf(at, window) + 1) as real * window as real
  {
    var w := window as real;
    var q := at / w;
    var f := q.Floor as real;
    assert q * w == at;
    assert f <= q < f + 1.0;
    Scale(f, q, w);
    Scale(q, f + 1.0, w);
    assert q * w < (f + 1.0) * w;
    var next := (WindowOf(at, window) + 1) as real;
    assert next == f + 1.0;
    assert at < next * w;
  }

  lemma Scale(x: real, y: real, w: real)
    requires w > 0.0
    ensures x <= y ==> x * w <= y * w
    ensures x < y ==> x * w < y * w
  {
    assert (y - x) * w == y * w - x * w;
    if x < y {
      assert (y - x) * w > 0.0;
    }
  }

  class Limiter {
    const redis: Server

    constructor (redis: Server)
      ensures this.redis == redis
    {
      this.redis := redis;
    }

    /** Counts one request, in the window of the clock reading `read`, and reports whether it is allowed; a denied request counts too. */
    method Check(subject: string, limit: int, window: int, read: real) returns (allowed: bool)
      requires window > 0
      modifies redis
      ensures redis.now == old(redis.now)
      ensures
        var hit := Hit(read, redis.now);
        var name := CounterName(subject, WindowOf(read, window));
        && redis.space == Run(old(redis.space), subject, window,
                              if CountAt(old(redis.space), redis.now, name) == 0 then [hit, Bound(redis.now, WindowOf(read, window))] else [hit])
        && allowed == (CountAt(old(redis.space), redis.now, name) < limit)
    {
      var index := WindowOf(read, window);
      var name := CounterName(subject, index);
      ghost var before := redis.space;
      var count := redis.Incr(name);
      ghost var hit := Hit(read, redis.now);
      assert [hit][..0] == [];
      assert Run(before, subject, window, [hit]) == redis.space;
      if count == 1 {
        redis.Expire(name, window);
        assert [hit, Bound(redis.now, index)][..1] == [hit];
      }
      allowed := count <= limit;
    }
  }

  // A Hit is the INCR of one check that read the clock before, a Bound an EXPIRE of some window's counter.
  datatype Event = Hit(read: real, at: real) | Bound(at: real, index: int)

  function After(s: Space, subject: string, window: int, e: Event): Space
    requires window > 0
  {
    match e
    case Hit(read, at) => Increment(s, at, CounterName(subject, WindowOf(read, window)))
    case Bound(at, index) => ExpireIn(s, at, CounterName(subject, index), window)
  }

  function Run(start: Space, subject: string, window: int, es: seq<Event>): Space
    requires window > 0
  {
    if es == [] then start
    else After(Run(start, subject, window, es[..|es| - 1]), subject, window, es[|es| - 1])
  }

  ghost predicate Monotone(es: seq<Event>) {
    && (forall i, j :: 0 <= i < j < |es| ==> es[i].at <= es[j].at)
    && (forall i :: 0 <= i < |es| && es[i].Hit? ==> es[i].read <= es[i].at)
  }

  ghost predicate NoCounters(s: Space, subject: string) {
    forall index: int :: CounterName(subject, index) !in s
  }

  predicate HitsWindow(e: Event, window: int, index: int)
    requires window > 0
  {
    e.Hit? && WindowOf(e.read, window) == index
  }

  // The checks of one window, counted from the events alone.
  function Hits(es: seq<Event>, window: int, index: int): nat
    requires window > 0
  {
    if es == [] then 0
    else Hits(es[..|es| - 1], window, index) + if HitsWindow(es[|es| - 1], window, index) then 1 else 0
  }

  // The INCR arrives when the counter of its window has already expired, and starts it again.
  predicate Restarts(s: Space, subject: string, window: int, e: Event)
    requires window > 0
  {
    e.Hit? && var k := CounterName(subject, WindowOf(e.read, window)); k in s && !LiveEntry(s[k], e.at)
  }

  // How often the counter of one window was started again.
  function RestartsOf(start: Space, subject: string, window: int, es: seq<Event>, index: int): nat
    requires window > 0
  {
    if es == [] then 0
    else
      var prior, last := es[..|es| - 1], es[|es| - 1];
      RestartsOf(start, subject, window, prior, index)
      + if HitsWindow(last, window, index) && Restarts(Run(start, subject, window, prior), subject, window, last) then 1 else 0
  }

  // Whether the last event of the run is a check that the limiter admits.
  ghost predicate Admitted(start: Space, subject: string, limit: int, window: int, es: seq<Event>)
    requires window > 0 && es != []
  {
    var last := es[|es| - 1];
    && last.Hit?
    && CountAt(Run(start, subject, window, es), last.at, CounterName(subject, WindowOf(last.read, window))) <= limit
  }

  // How many checks with a clock reading in [from, to) the limiter admits.
  ghost function AdmittedBetween(start: Space, subject: string, limit: int, window: int, es: seq<Event>, from: real, to: real): nat
    requires window > 0
  {
    if es == [] then 0
    else
      AdmittedBetween(start, subject, limit, window, es[..|es| - 1], from, to)
      + if Admitted(start, subject, limit, window, es) && from <= es[|es| - 1].read < to then 1 else 0
  }

  ghost function AdmittedInWindow(start: Space, subject: string, limit: int, window: int, es: seq<Event>, index: int): nat
    requires window > 0
  {
    if es == [] then 0
    else
      AdmittedInWindow(start, subject, limit, window, es[..|es| - 1], index)
      + if Admitted(start, subject, limit, window, es) && WindowOf(es[|es| - 1].read, window) == index then 1 else 0
  }

  // What the counter of a window says of its checks.
  ghost predicate Counting(s: Space, k: Name, hits: nat, restarts: nat) {
    if hits == 0 then k !in s && restarts == 0
    else
      && k in s && s[k].value.Counter? && 1 <= s[k].value.count
      && (restarts == 0 ==> s[k].value.count == hits)
      && (restarts > 0 ==> s[k].value.count < hits)
  }

  lemma CountingStep(s: Space, subject: string, window: int, e: Event, index: int, hits: nat, restarts: nat)
    requires window > 0 && Counting(s, CounterName(subject, index), hits, restarts)
    ensures
      var mine := HitsWindow(e, window, index);
      Counting(After(s, subject, window, e), CounterName(subject, index),
               hits + if mine then 1 else 0, restarts + if mine && Restarts(s, subject, window, e) then 1 else 0)
  {
  }

  /** A counter stands at the number of checks of its window, or at fewer exactly if it has been started again. */
  lemma {:induction false} CounterCountsHits(start: Space, subject: string, window: int, es: seq<Event>, index: int)
    requires window > 0 && NoCounters(start, subject)
    ensures Counting(Run(start, subject, window, es), CounterName(subject, index), Hits(es, window, index), RestartsOf(start, subject, window, es, index))
  {
    if es != [] {
      var prior := es[..|es| - 1];
      CounterCountsHits(start, subject, window, prior, index);
      CountingStep(Run(start, subject, window, prior), subject, window, es[|es| - 1], index,
                   Hits(prior, window, index), RestartsOf(start, subject, window, prior, index));
    }
  }

  // The count a check is compared at.
  lemma CountAfterHit(s: Space, subject: string, window: int, e: Event)
    requires window > 0 && e.Hit?
    ensures
      var k := CounterName(subject, WindowOf(e.read, window));
      var t := After(s, subject, window, e);
      CountAt(t, e.at, k) == 1 + CountAt(s, e.at, k) && k in t && t[k].value == Counter(CountAt(t, e.at, k))
  {
  }

  /** In a window whose counter is never started again, a check is admitted exactly when at most `limit` checks have come so far, itself included. */
  lemma AdmittedIffWithinLimit(start: Space, subject: string, limit: int, window: int, es: seq<Event>)
    requires window > 0 && NoCounters(start, subject) && es != [] && es[|es| - 1].Hit?
    requires RestartsOf(start, subject, window, es, WindowOf(es[|es| - 1].read, window)) == 0
    ensures Admitted(start, subject, limit, window, es) <==> Hits(es, window, WindowOf(es[|es| - 1].read, window)) <= limit
  {
    var last := es[|es| - 1];
    CounterCountsHits(start, subject, window, es, WindowOf(last.read, window));
    CountAfterHit(Run(start, subject, window, es[..|es| - 1]), subject, window, last);
  }

  // What a window has admitted, by its checks and restarts.
  ghost predicate AdmitsUpTo(admitted: nat, hits: nat, restarts: nat, limit: nat) {
    && (limit == 0 ==> admitted == 0)
    && (limit > 0 && hits <= limit ==> admitted == hits)
    && (limit > 0 && hits > limit && restarts == 0 ==> admitted == limit)
    && (limit > 0 && hits > limit && restarts > 0 ==> admitted > limit)
  }

  lemma AdmitsStep(s: Space, subject: string, limit: nat, window: int, e: Event, index: int, admitted: nat, hits: nat, restarts: nat)
    requires window > 0 && HitsWindow(e, window, index)
    requires Counting(s, CounterName(subject, index), hits, restarts) && AdmitsUpTo(admitted, hits, restarts, limit)
    ensures
      var count := CountAt(After(s, subject, window, e), e.at, CounterName(subject, index));
      AdmitsUpTo(admitted + if count <= limit then 1 else 0, hits + 1, restarts + if Restarts(s, subject, window, e) then 1 else 0, limit)
  {
    CountAfterHit(s, subject, window, e);
  }

  lemma {:induction false} WindowAdmits(start: Space, subject: string, limit: nat, window: int, es: seq<Event>, index: int)
    requires window > 0 && NoCounters(start, subject)
    ensures AdmitsUpTo(AdmittedInWindow(start, subject, limit, window, es, index), Hits(es, window, index),
                       RestartsOf(start, subject, window, es, index), limit)
  {
    if es != [] {
      var prior := es[..|es| - 1];
      WindowAdmits(start, subject, limit, window, prior, index);
      CounterCountsHits(start, subject, window, prior, index);
      if HitsWindow(es[|es| - 1], window, index) {
        AdmitsStep(Run(start, subject, window, prior), subject, limit, window, es[|es| - 1], index,
                   AdmittedInWindow(start, subject, limit, window, prior, index), Hits(prior, window, index),
                   RestartsOf(start, subject, window, prior, index));
      }
    }
  }

  /**
   A window admits exactly min(checks, limit), however its EXPIREs are delayed, repeated or lost,
   if and only if no INCR of it came after its counter had expired, or it has no more checks
   than the limit anyway, or the limit is zero.  In all other cases it admits more.
   */
  lemma WindowAdmitsMinIff(start: Space, subject: string, limit: nat, window: int, es: seq<Event>, index: int)
    requires window > 0 && NoCounters(start, subject)
    ensures
      var admitted, hits := AdmittedInWindow(start, subject, limit, window, es, index), Hits(es, window, index);
      var exact := if hits <= limit then hits else limit;
      && (admitted == exact <==> RestartsOf(start, subject, window, es, index) == 0 || hits <= limit || limit == 0)
      && admitted >= exact
  {
    WindowAdmits(start, subject, limit, window, es, index);
  }

  // Every INCR arrives while the window of its clock reading is still running.
  ghost predicate Prompt(es: seq<Event>, window: int)
    requires window > 0
  {
    forall i :: 0 <= i < |es| && es[i].Hit? ==> es[i].at < (WindowOf(es[i].read, window) + 1) as real * window as real
  }

  ghost predicate OutlivesWindow(s: Space, subject: string, window: int, index: int, es: seq<Event>) {
    var k := CounterName(subject, index);
    k in s ==>
      && es != [] && index as real * window as real <= es[|es| - 1].at
      && (s[k].deadline.Some? ==> (index + 1) as real * window as real <= s[k].deadline.value)
  }

  lemma {:induction false} CountersOutliveWindows(start: Space, subject: string, window: int, es: seq<Event>, index: int)
    requires window > 0 && Monotone(es) && NoCounters(start, subject)
    ensures OutlivesWindow(Run(start, subject, window, es), subject, window, index, es)
  {
    if es != [] {
      var prior := es[..|es| - 1];
      CountersOutliveWindows(start, subject, window, prior, index);
      var last := es[|es| - 1];
      assert (index + 1) as real * window as real == index as real * window as real + window as real;
      if last.Hit? {
        WindowBounds(last.read, window);
      }
    }
  }

  lemma NoRestartInWindow(s: Space, subject: string, window: int, e: Event, index: int, end: real)
    requires window > 0 && HitsWindow(e, window, index) && e.at < end
    requires
      var k := CounterName(subject, index);
      k in s && s[k].deadline.Some? ==> end <= s[k].deadline.value
    ensures !Restarts(s, subject, window, e)
  {
  }

  /** A counter's expiry never falls inside its own window, so checks whose INCRs arrive within their window never start it again. */
  lemma {:induction false} PromptNeverRestarts(start: Space, subject: string, window: int, es: seq<Event>, index: int)
    requires window > 0 && Monotone(es) && NoCounters(start, subject) && Prompt(es, window)
    ensures RestartsOf(start, subject, window, es, index) == 0
  {
    if es != [] {
      var prior, last := es[..|es| - 1], es[|es| - 1];
      PromptNeverRestarts(start, subject, window, prior, index);
      if HitsWindow(last, window, index) {
        CountersOutliveWindows(start, subject, window, prior, index);
        NoRestartInWindow(Run(start, subject, window, prior), subject, window, last, index, (index + 1) as real * window as real);
      }
    }
  }

  // Minutes and their numbers.
  lemma FirstMinute(at: real)
    requires 0.0 <= at < 60.0
    ensures WindowOf(at, 60) == 0
  {
    WindowBounds(at, 60);
  }

  /** A check held up for a minute: with limit 1, the second check of the first minute is admitted as well. */
  lemma LateCheckIsAdmitted() returns (es: seq<Event>)
    ensures es == [Hit(59.0, 59.0), Bound(59.0, 0), Hit(59.5, 119.0)] && Monotone(es)
    ensures Hits(es, 60, 0) == 2 && AdmittedInWindow(map[], "a", 1, 60, es, 0) == 2
  {
    FirstMinute(59.0);
    FirstMinute(59.5);
    var one := [Hit(59.0, 59.0)];
    var two := one + [Bound(59.0, 0)];
    es := two + [Hit(59.5, 119.0)];
    assert one[..0] == [] && two[..1] == one && es[..2] == two;
    var k := CounterName("a", 0);
    assert Run(map[], "a", 60, one) == map[k := Entry(Counter(1), None)];
    assert Run(map[], "a", 60, two) == map[k := Entry(Counter(1), Some(119.0))];
    assert Run(map[], "a", 60, es) == map[k := Entry(Counter(1), None)];
    assert Hits(one, 60, 0) == 1 && Hits(two, 60, 0) == 1;
    assert AdmittedInWindow(map[], "a", 1, 60, one, 0) == 1 && AdmittedInWindow(map[], "a", 1, 60, two, 0) == 1;
  }

  lemma {:induction false} TwoWindowsCover(start: Space, subject: string, limit: nat, window: int, es: seq<Event>, from: real)
    requires window > 0
    ensures AdmittedBetween(start, subject, limit, window, es, from, from + window as real)
         <= AdmittedInWindow(start, subject, limit, window, es, WindowOf(from, window))
            + AdmittedInWindow(start, subject, limit, window, es, WindowOf(from, window) + 1)
  {
    if es != [] {
      TwoWindowsCover(start, subject, limit, window, es[..|es| - 1], from);
      var last := es[|es| - 1];
      if last.Hit? && from <= last.read < from + window as real {
        NextWindowAtMost(from, last.read, window);
      }
    }
  }

  lemma NextWindowAtMost(from: real, at: real, window: int)
    requires window > 0 && from <= at < from + window as real
    ensures WindowOf(from, window) <= WindowOf(at, window) <= WindowOf(from, window) + 1
  {
    var w := window as real;
    var f, a := from / w, at / w;
    assert f * w == from && a * w == at;
    QuotientOrder(f, a, from, at, w);
  }

  lemma QuotientOrder(f: real, a: real, from: real, at: real, w: real)
    requires w > 0.0 && f * w == from && a * w == at && from <= at < from + w
    ensures f <= a <= f + 1.0
  {
    Unscale(f, a, w);
    assert (f + 1.0) * w == f * w + w;
    Unscale(a, f + 1.0, w);
  }

  lemma Unscale(x: real, y: real, w: real)
    requires w > 0.0 && x * w <= y * w
    ensures x <= y
  {
    Scale(y, x, w);
  }

  /** Any half-open interval one window long admits at most twice the limit, if INCRs arrive within their windows. */
  lemma IntervalAdmitsTwice(start: Space, subject: string, limit: nat, window: int, es: seq<Event>, from: real)
    requires window > 0 && Monotone(es) && NoCounters(start, subject) && Prompt(es, window)
    ensures AdmittedBetween(start, subject, limit, window, es, from, from + window as real) <= 2 * limit
  {
    var index := WindowOf(from, window);
    TwoWindowsCover(start, subject, limit, window, es, from);
    PromptNeverRestarts(start, subject, window, es, index);
    PromptNeverRestarts(start, subject, window, es, index + 1);
    WindowAdmitsMinIff(start, subject, limit, window, es, index);
    WindowAdmitsMinIff(start, subject, limit, window, es, index + 1);
  }
}
