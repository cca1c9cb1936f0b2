/** Datatypes shared by the whole model. */
module Common {
  datatype Option<+T> = None | Some(value: T)

  datatype Result<+T, +E> = Ok(value: T) | Err(error: E)

  // int() of a clock reading
  function Truncate(t: real): int {
    if t >= 0.0 then t.Floor else -((-t).Floor)
  }

  // The JSON text of a result object.
  predicate IsObject(s: string) {
    s != "" && s[0] == '{'
  }

  type Json = s: string | IsObject(s) witness "{}"
}

/**
 The shared Redis key space, one atomic command at a time.

 An entry is live while the clock has not reached its deadline; a dead entry is
 indistinguishable from a missing one.  Key names are tagged values, one tag for each
 prefix the broker uses, so that two components can never share a key.
 */
module Redis {
  import opened Common

  datatype Name =
    | IdemName(key: string)
    | IssuedName(hash: string)
    | RevokedName(hash: string)
    | CounterName(subject: string, window: int)

  datatype Value = Text(text: string) | Counter(count: int)

  datatype Entry = Entry(value: Value, deadline: Option<real>)

  type Space = map<Name, Entry>

  predicate LiveEntry(e: Entry, now: real) {
    e.deadline.None? || now < e.deadline.value
  }

  predicate Live(s: Space, now: real, k: Name) {
    k in s && LiveEntry(s[k], now)
  }

  // GET
  function Lookup(s: Space, now: real, k: Name): Option<Value> {
    if Live(s, now, k) then Some(s[k].value) else None
  }

  // SET k v EX ttl
  function Put(s: Space, now: real, k: Name, v: Value, ttl: int): Space {
    s[k := Entry(v, Some(now + ttl as real))]
  }

  // SET k v NX EX ttl
  function PutIfAbsent(s: Space, now: real, k: Name, v: Value, ttl: int): (Space, bool) {
    if Live(s, now, k) then (s, false) else (Put(s, now, k, v, ttl), true)
  }

  // DEL k
  function Remove(s: Space, k: Name): Space {
    s - {k}
  }

  // The number a counter key stands at; a missing or textual entry counts from zero.
  function CountAt(s: Space, now: real, k: Name): int {
    if Live(s, now, k) && s[k].value.Counter? then s[k].value.count else 0
  }

  // INCR k: the deadline of a live counter is kept, a new counter has none.
  function Increment(s: Space, now: real, k: Name): Space {
    s[k := Entry(Counter(CountAt(s, now, k) + 1), if Live(s, now, k) then s[k].deadline else None)]
  }

  // EXPIRE k ttl
  function ExpireIn(s: Space, now: real, k: Name, ttl: int): Space {
    if Live(s, now, k) then s[k := Entry(s[k].value, Some(now + ttl as real))] else s
  }

  /** Of the commands that set a deadline: a key lives exactly for its ttl, SET NX gives way to a live key, INCR keeps the deadline of a live counter and EXPIRE replaces it. */
  lemma KeysLiveForTheirTtl(s: Space, now: real, k: Name, v: Value, ttl: int, later: real)
    requires now <= later
    ensures Lookup(Put(s, now, k, v, ttl), later, k) == if later < now + ttl as real then Some(v) else None
    ensures PutIfAbsent(s, now, k, v, ttl) == if Lookup(s, now, k).Some? then (s, false) else (Put(s, now, k, v, ttl), true)
    ensures Live(s, now, k) ==> (Live(Increment(s, now, k), later, k) <==> Live(s, later, k))
    ensures !Live(s, now, k) ==> Lookup(Increment(s, now, k), later, k) == Some(Counter(1))
    ensures Live(s, now, k) ==> (Live(ExpireIn(s, now, k, ttl), later, k) <==> later < now + ttl as real)
  {
  }

  /** One Redis server and the clock by which its keys expire. */
  class Server {
    var space: Space
    var now: real

    constructor (start: real)
      ensures space == map[] && now == start
    {
      space, now := map[], start;
    }

    method Get(k: Name) returns (v: Option<Value>)
      ensures v == Lookup(space, now, k)
    {
      v := Lookup(space, now, k);
    }

    method Set(k: Name, v: Value, ttl: int)
      modifies this`space
      ensures space == Put(old(space), now, k, v, ttl)
    {
      space := Put(space, now, k, v, ttl);
    }

    method SetNx(k: Name, v: Value, ttl: int) returns (claimed: bool)
      modifies this`space
      ensures (space, claimed) == PutIfAbsent(old(space), now, k, v, ttl)
    {
      claimed := !Live(space, now, k);
      if claimed {
        space := Put(space, now, k, v, ttl);
      }
    }

    method Delete(k: Name)
      modifies this`space
      ensures space == Remove(old(space), k)
    {
      space := Remove(space, k);
    }

    method Incr(k: Name) returns (count: int)
      modifies this`space
      ensures space == Increment(old(space), now, k)
      ensures count == CountAt(old(space), now, k) + 1
    {
      count := CountAt(space, now, k) + 1;
      space := Increment(space, now, k);
    }

    method Expire(k: Name, ttl: int)
      modifies this`space
      ensures space == ExpireIn(old(space), now, k, ttl)
    {
      space := ExpireIn(space, now, k, ttl);
    }
  }
}
