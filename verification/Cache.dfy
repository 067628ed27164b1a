/** The Redis cache: values with a time to live, and the counters behind the rate limiter. Times are in
    milliseconds. */
module Cache {
  import opened Json

  datatype Entry<V> = Entry(value: V, expiry: Option<nat>)

  predicate Alive<V>(e: Entry<V>, now: nat) {
    e.expiry.None? || now < e.expiry.value
  }

  /** What is left of a store at a given time: expired keys are gone. */
  function Live<K, V>(store: map<K, Entry<V>>, now: nat): map<K, Entry<V>> {
    map k | k in store && Alive(store[k], now) :: store[k]
  }

  /** How a Redis command, or a pipeline of two, can go: well, or with an error before, between or after
      its effects. */
  datatype Fault = Ok | Before | Between | After

  datatype Lookup<V> = Found(value: V) | Miss | Unavailable

  function Expiry(now: nat, ttl: nat): Option<nat> {
    if ttl == 0 then None else Some(now + ttl)
  }

  /** GET: a key that is missing or expired is a miss. */
  function LookedUp<K, V>(store: map<K, Entry<V>>, key: K, now: nat, fault: Fault): Lookup<V> {
    if fault != Ok then Unavailable
    else if key in store && Alive(store[key], now) then Found(store[key].value)
    else Miss
  }

  /** SET, which replaces value and time to live of the one key. */
  function Stored<K, V>(store: map<K, Entry<V>>, key: K, value: V, now: nat, ttl: nat, fault: Fault): map<K, Entry<V>> {
    if fault == Before then store else store[key := Entry(value, Expiry(now, ttl))]
  }

  /** INCR, which keeps the time to live of an existing key, and then EXPIRE. */
  function Incremented<K>(store: map<K, Entry<nat>>, key: K, now: nat, window: nat, fault: Fault): map<K, Entry<nat>> {
    var live := Live(store, now);
    var existing := if key in live then live[key] else Entry(0, None);
    match fault
    case Before => live
    case Between => live[key := Entry(existing.value + 1, existing.expiry)]
    case _ => live[key := Entry(existing.value + 1, Some(now + window))]
  }

  function CountAt<K>(store: map<K, Entry<nat>>, key: K, now: nat): nat {
    if key in store && Alive(store[key], now) then store[key].value else 0
  }

  /** A value that was set is found until its time to live is over, and missed from then on; without one it
      is found for good. */
  lemma {:induction false} SetThenGet<K, V>(store: map<K, Entry<V>>, key: K, value: V, now: nat, ttl: nat, later: nat)
    requires now <= later
    ensures LookedUp(Stored(store, key, value, now, ttl, Ok), key, later, Ok)
         == if ttl == 0 || later < now + ttl then Found(value) else Miss
  {
  }

  /** Setting one key leaves every other as it was. */
  lemma {:induction false} SetLeavesOthers<K, V>(store: map<K, Entry<V>>, key: K, value: V, now: nat, ttl: nat,
                                                 fault: Fault, other: K, later: nat)
    requires other != key
    ensures LookedUp(Stored(store, key, value, now, ttl, fault), other, later, Ok) == LookedUp(store, other, later, Ok)
  {
  }

  /** An increment counts one more and lasts for a window from then on, after which the count starts again. */
  lemma {:induction false} IncrThenCount<K>(store: map<K, Entry<nat>>, key: K, now: nat, window: nat, later: nat)
    requires now <= later
    ensures CountAt(Incremented(store, key, now, window, Ok), key, later)
         == if later < now + window then CountAt(store, key, now) + 1 else 0
  {
  }

  class RedisCache<K(==), V> {
    var values: map<K, Entry<V>>
    var counters: map<K, Entry<nat>>

    constructor ()
      ensures values == map[] && counters == map[]
    {
      values, counters := map[], map[];
    }

    method Get(now: nat, key: K, fault: Fault) returns (r: Lookup<V>)
      ensures fault != Ok <==> r == Unavailable
      ensures r.Found? ==> key in values && Alive(values[key], now) && values[key].value == r.value
      ensures r.Miss? ==> key in values ==> !Alive(values[key], now)
      ensures r == LookedUp(values, key, now, fault)
    {
      if fault != Ok {
        return Unavailable;
      }
      if key in values && Alive(values[key], now) {
        return Found(values[key].value);
      }
      return Miss;
    }

    method Set(now: nat, key: K, value: V, ttl: nat, fault: Fault) returns (ok: bool)
      modifies this`values
      ensures ok <==> fault == Ok
      ensures fault == Before ==> values == old(values)
      ensures fault != Before ==> values == old(values)[key := Entry(value, Expiry(now, ttl))]
      ensures values == Stored(old(values), key, value, now, ttl, fault)
    {
      if fault != Before {
        values := values[key := Entry(value, Expiry(now, ttl))];
      }
      ok := fault == Ok;
    }

    /** Counts and refreshes the time to live in one pipeline; an error hides the count. */
    method RateIncr(now: nat, key: K, window: nat, fault: Fault) returns (count: Option<nat>)
      modifies this`counters
      ensures counters == Incremented(old(counters), key, now, window, fault)
      ensures count == if fault == Ok then Some(CountAt(old(counters), key, now) + 1) else None
    {
      counters := Live(counters, now);
      var n, expiry := 1, None;
      if key in counters {
        n, expiry := counters[key].value + 1, counters[key].expiry;
      }
      if fault == Before {
        return None;
      }
      counters := counters[key := Entry(n, expiry)];
      if fault == Between {
        return None;
      }
      counters := counters[key := Entry(n, Some(now + window))];
      count := if fault == Ok then Some(n) else None;
    }
  }
}
