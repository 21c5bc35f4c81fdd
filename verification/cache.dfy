/** The process-wide TTL cache (utils/cache_utils.go): a map from key to value and expiry,
    read and written against an explicit clock. */
module TtlCache {
  import opened Wrappers

  /** Go's time.Duration counts nanoseconds. */
  const Second: nat := 1_000_000_000
  const Minute: nat := 60 * Second

  datatype Entry<V> = Entry(data: V, expiresAt: int)

  type Cache<V> = map<string, Entry<V>>

  function NewCache<V>(): (c: Cache<V>)
    ensures |c| == 0
  {
    map[]
  }

  /** A hit only while `now` is not after the expiry: the expiry instant itself still hits.
      Takes the map by value, so it can neither evict nor refresh anything. */
  function Get<V>(c: Cache<V>, key: string, now: nat): (r: Option<V>)
    ensures r.Some? <==> key in c && now <= c[key].expiresAt
    ensures r.Some? ==> r.value == c[key].data
  {
    if key !in c then None
    else if now > c[key].expiresAt then None
    else Some(c[key].data)
  }

  /** Stores the whole entry for `key`, replacing whatever was there; every other key is kept. */
  function Set<V>(c: Cache<V>, key: string, value: V, ttl: int, now: nat): (c': Cache<V>)
    ensures c'.Keys == c.Keys + {key}
    ensures c'[key] == Entry(value, now + ttl)
    ensures forall k :: k in c && k != key ==> c'[k] == c[k]
  {
    c[key := Entry(value, now + ttl)]
  }

  /** A new cache misses on every key at every time. */
  lemma NewCacheMisses<V>(key: string, now: nat)
    ensures Get(NewCache<V>(), key, now) == None
  {
  }

  /** A write is read back at any time up to and including its expiry instant, and
      not after it, while the entry stays in the map. */
  lemma ReadYourWrite<V>(c: Cache<V>, key: string, v: V, ttl: int, t: nat, now: nat)
    ensures now <= t + ttl ==> Get(Set(c, key, v, ttl, t), key, now) == Some(v)
    ensures now > t + ttl ==> Get(Set(c, key, v, ttl, t), key, now) == None
    ensures key in Set(c, key, v, ttl, t) && Set(c, key, v, ttl, t)[key].data == v
  {
  }

  /** A second write replaces value and expiry both; nothing of the first survives. */
  lemma SetReplaces<V>(c: Cache<V>, key: string, v: V, w: V, ttl1: int, ttl2: int, t1: nat, t2: nat)
    ensures Set(Set(c, key, v, ttl1, t1), key, w, ttl2, t2) == Set(c, key, w, ttl2, t2)
  {
  }

  /** A write to one key does not change what any other key reads. */
  lemma SetIsolation<V>(c: Cache<V>, key: string, other: string, v: V, ttl: int, t: nat, now: nat)
    requires other != key
    ensures Get(Set(c, key, v, ttl, t), other, now) == Get(c, other, now)
  {
  }

  /** An expired entry and a key never set read the same, so a caller cannot tell them apart. */
  lemma MissIsAmbiguous<V>(key: string, v: V, expiresAt: int, now: nat)
    requires now > expiresAt
    ensures Get(map[key := Entry(v, expiresAt)], key, now) == Get(NewCache<V>(), key, now) == None
  {
  }

  /** Once a key misses, it keeps missing as the clock advances (until a new write). */
  lemma MissStaysMiss<V>(c: Cache<V>, key: string, now: nat, later: nat)
    requires Get(c, key, now).None? && now <= later
    ensures Get(c, key, later).None?
  {
  }

  /** A sequence of calls made against the one cache. */
  datatype Call<V> = Lookup(key: string, at: nat) | Store(key: string, value: V, ttl: int, at: nat)

  /** The map after one call: a lookup leaves it as it was. */
  function Apply<V>(c: Cache<V>, call: Call<V>): Cache<V>
  {
    match call
    case Lookup(_, _) => c
    case Store(k, v, ttl, t) => Set(c, k, v, ttl, t)
  }

  /** The map after all the calls, in order. */
  function Replay<V>(c: Cache<V>, calls: seq<Call<V>>): Cache<V>
    decreases |calls|
  {
    if |calls| == 0 then c else Replay(Apply(c, calls[0]), calls[1..])
  }

  function Stores<V>(calls: seq<Call<V>>): (r: seq<Call<V>>)
    ensures forall i :: 0 <= i < |r| ==> r[i].Store?
    decreases |calls|
  {
    if |calls| == 0 then []
    else if calls[0].Store? then [calls[0]] + Stores(calls[1..])
    else Stores(calls[1..])
  }

  predicate WritesKey<V>(calls: seq<Call<V>>, key: string)
  {
    exists i :: 0 <= i < |calls| && calls[i].Store? && calls[i].key == key
  }

  lemma {:induction false} ReplayConcat<V>(c: Cache<V>, a: seq<Call<V>>, b: seq<Call<V>>)
    ensures Replay(c, a + b) == Replay(Replay(c, a), b)
    decreases |a|
  {
    if |a| == 0 {
      assert a + b == b;
    } else {
      assert (a + b)[1..] == a[1..] + b;
      ReplayConcat(Apply(c, a[0]), a[1..], b);
    }
  }

  /** Lifts Apply's Lookup case over a whole trace: dropping every lookup leaves the final map
      as it was. That a read cannot change the map is Get's signature (the map by value, an
      Option back); this lemma only carries it through sequences of calls. */
  lemma {:induction false} LookupsNeverMutate<V>(c: Cache<V>, calls: seq<Call<V>>)
    ensures Replay(c, calls) == Replay(c, Stores(calls))
    decreases |calls|
  {
    if |calls| > 0 {
      LookupsNeverMutate(Apply(c, calls[0]), calls[1..]);
      if calls[0].Store? {
        assert ([calls[0]] + Stores(calls[1..]))[1..] == Stores(calls[1..]);
      }
    }
  }

  /** An entry no call writes stays exactly as it was, expired or not: lookups do not evict. */
  lemma {:induction false} UnwrittenEntryPersists<V>(c: Cache<V>, calls: seq<Call<V>>, key: string)
    requires !WritesKey(calls, key)
    ensures key in Replay(c, calls) <==> key in c
    ensures key in c ==> Replay(c, calls)[key] == c[key]
    decreases |calls|
  {
    if |calls| > 0 {
      assert !WritesKey(calls[1..], key) by {
        forall i | 0 <= i < |calls[1..]| && calls[1..][i].Store?
          ensures calls[1..][i].key != key
        {
          assert calls[1..][i] == calls[i + 1];
        }
      }
      assert calls[0].Store? ==> calls[0].key != key;
      UnwrittenEntryPersists(Apply(c, calls[0]), calls[1..], key);
    }
  }

  /** Once a write returns, every later lookup of that key up to its expiry sees that value,
      whatever other calls come in between, provided none writes the same key. */
  lemma ReadYourWritesInTrace<V>(c: Cache<V>, before: seq<Call<V>>, key: string, v: V, ttl: int, t: nat,
                                 after: seq<Call<V>>, now: nat)
    requires !WritesKey(after, key)
    ensures now <= t + ttl ==> Get(Replay(c, before + [Store(key, v, ttl, t)] + after), key, now) == Some(v)
    ensures now > t + ttl ==> Get(Replay(c, before + [Store(key, v, ttl, t)] + after), key, now) == None
  {
    var mid := Replay(c, before + [Store(key, v, ttl, t)]);
    ReplayConcat(c, before + [Store(key, v, ttl, t)], after);
    ReplayConcat(c, before, [Store(key, v, ttl, t)]);
    assert mid == Set(Replay(c, before), key, v, ttl, t);
    UnwrittenEntryPersists(mid, after, key);
  }
}
