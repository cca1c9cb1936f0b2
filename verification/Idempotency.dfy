/**
 The idempotency store: reservations with an owner token and an expiry, and the
 two-step, owner-checked completion or release.

 Each operation is a function on the key space (what one or two atomic commands do) and a
 method of the store that runs the commands.  `IdempotencyRuns` interleaves the same
 functions, with other invocations between a compare and its act.
 */
module Idempotency {
  import opened Common
  import opened Redis

  const PENDING_MARKER := "__pending__"
  const RESERVATION_TTL_SECONDS := 60

  function PendingValue(owner: string): string {
    PENDING_MARKER + ":" + owner
  }

  predicate IsPending(v: Value) {
    v.Text? && PENDING_MARKER <= v.text
  }

  lemma PendingValueInjective(a: string, b: string)
    requires PendingValue(a) == PendingValue(b)
    ensures a == b
  {
    var n := |PENDING_MARKER + ":"|;
    assert PendingValue(a)[n..] == a && PendingValue(b)[n..] == b;
  }

  lemma PendingIsNeverAResult(owner: string, result: Json)
    ensures IsPending(Text(PendingValue(owner)))
    ensures !IsPending(Text(result))
  {
    assert PendingValue(owner)[0] == '_';
  }

  datatype View = Unseen | Conflict | Cached(result: string)

  // What `get` makes of the stored value; no counter is ever kept under an idempotency name.
  function Viewed(s: Space, now: real, key: string): View {
    match Lookup(s, now, IdemName(key))
    case None => Unseen
    case Some(Counter(_)) => Unseen
    case Some(Text(t)) => if IsPending(Text(t)) then Conflict else Cached(t)
  }

  function Reserve(s: Space, now: real, key: string, owner: string): (Space, bool) {
    PutIfAbsent(s, now, IdemName(key), Text(PendingValue(owner)), RESERVATION_TTL_SECONDS)
  }

  // The compare steps of `complete` and `release`.
  predicate MayComplete(s: Space, now: real, key: string, owner: Option<string>) {
    owner.None? || Lookup(s, now, IdemName(key)) == Some(Text(PendingValue(owner.value)))
  }

  predicate MayRelease(s: Space, now: real, key: string, owner: Option<string>) {
    var v := Lookup(s, now, IdemName(key));
    && v.Some? && IsPending(v.value)
    && (owner.Some? ==> v.value == Text(PendingValue(owner.value)))
  }

  // The act steps.
  function StoreResult(s: Space, now: real, key: string, result: Json, window: int): Space {
    Put(s, now, IdemName(key), Text(result), window)
  }

  function DropMarker(s: Space, key: string): Space {
    Remove(s, IdemName(key))
  }

  /**
   What the operations tell each other through the key space: a reserved key shows a conflict until
   the reservation ends, a stored result is replayed for its window, and otherwise the key is as
   new.  Only the owner of a reservation that has not ended may complete or release it.
   */
  lemma StoreAnswersBack(s: Space, now: real, key: string, owner: string, other: string, result: Json, window: int, later: real)
    requires now <= later && Reserve(s, now, key, owner).1
    ensures
      var held := Reserve(s, now, key, owner).0;
      && Viewed(held, later, key) == (if later < now + 60.0 then Conflict else Unseen)
      && (MayComplete(held, later, key, Some(other)) <==> owner == other && later < now + 60.0)
      && (MayRelease(held, later, key, Some(other)) <==> owner == other && later < now + 60.0)
      && (MayRelease(held, later, key, None) <==> later < now + 60.0)
      && (Reserve(held, later, key, other).1 <==> now + 60.0 <= later)
    ensures
      var done := StoreResult(s, now, key, result, window);
      && Viewed(done, later, key) == (if later < now + window as real then Cached(result) else Unseen)
      && !MayComplete(done, later, key, Some(other)) && !MayRelease(done, later, key, None)
    ensures Viewed(DropMarker(s, key), later, key) == Unseen
  {
    PendingIsNeverAResult(owner, result);
    PendingIsNeverAResult(other, result);
    if PendingValue(owner) == PendingValue(other) {
      PendingValueInjective(owner, other);
    }
  }

  class Store {
    const redis: Server
    const window: int

    constructor (redis: Server, window: int)
      requires window >= 1
      ensures this.redis == redis && this.window == window
    {
      this.redis, this.window := redis, window;
    }

    // The constructor's own check.
    static method Open(redis: Server, window: int) returns (r: Result<Store, string>)
      ensures r.Ok? <==> window >= 1
      ensures r.Ok? ==> fresh(r.value) && r.value.redis == redis && r.value.window == window
    {
      if window < 1 {
        return Err("window_seconds must be >= 1");
      }
      var store := new Store(redis, window);
      return Ok(store);
    }

    method Get(key: string) returns (view: View)
      ensures view == Viewed(redis.space, redis.now, key)
    {
      var value := redis.Get(IdemName(key));
      match value
      case None => view := Unseen;
      case Some(Counter(_)) => view := Unseen;
      case Some(Text(t)) => view := if IsPending(Text(t)) then Conflict else Cached(t);
    }

    // The owner token is drawn by the caller's source of randomness.
    method ReserveKey(key: string, owner: string) returns (held: Option<string>)
      modifies redis`space
      ensures redis.space == Reserve(old(redis.space), redis.now, key, owner).0
      ensures held == if Reserve(old(redis.space), redis.now, key, owner).1 then Some(owner) else None
    {
      var claimed := redis.SetNx(IdemName(key), Text(PendingValue(owner)), RESERVATION_TTL_SECONDS);
      held := if claimed then Some(owner) else None;
    }

    method Complete(key: string, result: Json, owner: Option<string>)
      modifies redis`space
      ensures redis.space ==
              if MayComplete(old(redis.space), redis.now, key, owner)
              then StoreResult(old(redis.space), redis.now, key, result, window)
              else old(redis.space)
    {
      if owner.Some? {
        var value := redis.Get(IdemName(key));
        if value != Some(Text(PendingValue(owner.value))) {
          return;
        }
      }
      redis.Set(IdemName(key), Text(result), window);
    }

    method Release(key: string, owner: Option<string>)
      modifies redis`space
      ensures redis.space ==
              if MayRelease(old(redis.space), redis.now, key, owner)
              then DropMarker(old(redis.space), key)
              else old(redis.space)
    {
      var value := redis.Get(IdemName(key));
      if value.None? || !IsPending(value.value) {
        return;
      }
      if owner.Some? && value.value != Text(PendingValue(owner.value)) {
        return;
      }
      redis.Delete(IdemName(key));
    }
  }
}
