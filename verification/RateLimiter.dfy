/** The per-caller token bucket in front of the routes, over real-valued time. */
module RateLimiter {
  import opened Wrappers

  const MAX_BUCKETS := 10000

  datatype Bucket = Bucket(tokens: real, updated: real)

  type Table = map<string, Bucket>

  function Capacity(perMinute: int): real {
    perMinute as real
  }

  function Rate(perMinute: int): real {
    perMinute as real / 60.0
  }

  function Min(a: real, b: real): real {
    if a <= b then a else b
  }

  /** What a bucket holds at time `t`, refilled lazily and never above capacity. */
  function Level(perMinute: int, b: Bucket, t: real): real {
    Min(Capacity(perMinute), b.tokens + (t - b.updated) * Rate(perMinute))
  }

  /** What a key may spend at time `t`: a key without a bucket has a full one. */
  function Credit(perMinute: int, table: Table, key: string, t: real): real {
    if key in table then Level(perMinute, table[key], t) else Capacity(perMinute)
  }

  predicate Full(perMinute: int, b: Bucket, now: real) {
    Level(perMinute, b, now) >= Capacity(perMinute)
  }

  /** The buckets that carry state worth keeping. */
  function Unfilled(perMinute: int, table: Table, now: real): Table {
    map k | k in table && !Full(perMinute, table[k], now) :: table[k]
  }

  /** Dropped before: more tokens left, or as many and not younger. */
  predicate Outranks(perMinute: int, a: Bucket, b: Bucket, now: real) {
    || Level(perMinute, a, now) > Level(perMinute, b, now)
    || (Level(perMinute, a, now) == Level(perMinute, b, now) && a.updated <= b.updated)
  }

  predicate SubTable(small: Table, large: Table) {
    forall k :: k in small ==> k in large && small[k] == large[k]
  }

  /** Eviction: the full buckets go; if that is not enough, the higher-ranked half of the others goes too. */
  predicate Evicts(perMinute: int, before: Table, after: Table, now: real) {
    var rest := Unfilled(perMinute, before, now);
    if |rest| < MAX_BUCKETS then after == rest
    else
      && SubTable(after, rest)
      && |after| == |rest| - |rest| / 2
      && forall d, k :: d in rest && d !in after && k in after ==> Outranks(perMinute, rest[d], after[k], now)
  }

  function Without(table: Table, key: string): Table {
    table - {key}
  }

  /** One call of `acquire`, seen from its key's credit: spend one token or wait for the next. */
  predicate Acquired(perMinute: int, before: Table, after: Table, key: string, now: real, wait: Option<real>) {
    if perMinute <= 0 then after == before && wait == None
    else
      var credit := Credit(perMinute, before, key, now);
      && wait == (if credit >= 1.0 then None else Some((1.0 - credit) / Rate(perMinute)))
      && key in after
      && after[key] == Bucket(if credit >= 1.0 then credit - 1.0 else credit, now)
      && (if key in before || |before| < MAX_BUCKETS then Without(after, key) == Without(before, key)
          else Evicts(perMinute, before, Without(after, key), now))
  }

  /** Drawing from a bucket that holds the key's credit completes an acquisition. */
  lemma DrawnIsAcquired(
    perMinute: int, before: Table, ready: Table, after: Table, key: string, now: real, wait: Option<real>)
    requires perMinute > 0
    requires key in ready && ready[key] == Bucket(Credit(perMinute, before, key, now), now)
    requires if key in before || |before| < MAX_BUCKETS then Without(ready, key) == Without(before, key)
             else Evicts(perMinute, before, Without(ready, key), now)
    requires var b := ready[key];
             && wait == (if b.tokens >= 1.0 then None else Some((1.0 - b.tokens) / Rate(perMinute)))
             && after == ready[key := Bucket(if b.tokens >= 1.0 then b.tokens - 1.0 else b.tokens, b.updated)]
    ensures Acquired(perMinute, before, after, key, now, wait)
  {
    assert Without(after, key) == Without(ready, key);
  }

  /** One request: an established bearer spends its own credit, a new one first spends the address's. */
  predicate RequestSteps(
    perMinute: int, before: Table, mid: Table, after: Table, bearer: Option<string>, address: string,
    start: real, end: real, first: Option<real>, wait: Option<real>)
  {
    if perMinute <= 0 then mid == after == before && first == wait == None
    else
      match bearer
      case None => Acquired(perMinute, before, mid, "addr:" + address, end, first) && after == mid && wait == first
      case Some(b) =>
        if "bearer:" + b in before then
          Acquired(perMinute, before, mid, "bearer:" + b, start, first) && after == mid && wait == first
        else
          && Acquired(perMinute, before, mid, "new:" + address, end, first)
          && if first.Some? then after == mid && wait == first
             else Acquired(perMinute, mid, after, "bearer:" + b, start, wait)
  }

  class RateLimiter {
    const perMinute: int
    var buckets: Table

    constructor (perMinute: int)
      ensures this.perMinute == perMinute && buckets == map[]
    {
      this.perMinute := perMinute;
      buckets := map[];
    }

    /** The key of a bucket that no other bucket of `table` outranks strictly. */
    method Best(table: Table, now: real) returns (best: string)
      requires |table| > 0
      ensures best in table
      ensures forall k :: k in table ==> Outranks(perMinute, table[best], table[k], now)
    {
      assert table.Keys != {};
      best :| best in table;
      var todo := table.Keys - {best};
      while todo != {}
        invariant best in table && todo <= table.Keys
        invariant forall k :: k in table && k !in todo ==> Outranks(perMinute, table[best], table[k], now)
        decreases |todo|
      {
        var k :| k in todo;
        if !Outranks(perMinute, table[best], table[k], now) {
          best := k;
        }
        todo := todo - {k};
      }
    }

    method Evict(now: real)
      modifies this
      ensures Evicts(perMinute, old(buckets), buckets, now)
      ensures SubTable(buckets, old(buckets))
    {
      var rest := Unfilled(perMinute, buckets, now);
      buckets := rest;
      if |buckets| >= MAX_BUCKETS {
        var quota := |buckets| / 2;
        for dropped := 0 to quota
          invariant SubTable(buckets, rest)
          invariant |buckets| == |rest| - dropped
          invariant forall d, k :: d in rest && d !in buckets && k in buckets ==>
                      Outranks(perMinute, rest[d], buckets[k], now)
        {
          var best := Best(buckets, now);
          assert buckets.Keys == (buckets.Keys - {best}) + {best};
          ghost var ranked := buckets;
          buckets := buckets - {best};
          assert buckets.Keys == ranked.Keys - {best};
        }
      }
    }

    /** A full bucket for `key`, after making room. */
    method Open(key: string, now: real)
      requires key !in buckets
      modifies this
      ensures key in buckets && buckets[key] == Bucket(Capacity(perMinute), now)
      ensures if |old(buckets)| < MAX_BUCKETS then Without(buckets, key) == old(buckets)
              else Evicts(perMinute, old(buckets), Without(buckets, key), now)
    {
      if |buckets| >= MAX_BUCKETS {
        Evict(now);
      }
      assert Without(buckets[key := Bucket(Capacity(perMinute), now)], key) == buckets;
      buckets := buckets[key := Bucket(Capacity(perMinute), now)];
    }

    method Refill(key: string, now: real)
      requires key in buckets
      modifies this
      ensures buckets == old(buckets)[key := Bucket(Level(perMinute, old(buckets)[key], now), now)]
    {
      buckets := buckets[key := Bucket(Level(perMinute, buckets[key], now), now)];
    }

    method Draw(key: string) returns (wait: Option<real>)
      requires key in buckets && perMinute > 0
      modifies this
      ensures var b := old(buckets)[key];
              && wait == (if b.tokens >= 1.0 then None else Some((1.0 - b.tokens) / Rate(perMinute)))
              && buckets == old(buckets)[key := Bucket(if b.tokens >= 1.0 then b.tokens - 1.0 else b.tokens, b.updated)]
    {
      var b := buckets[key];
      if b.tokens >= 1.0 {
        buckets := buckets[key := Bucket(b.tokens - 1.0, b.updated)];
        return None;
      }
      assert buckets == buckets[key := b];
      return Some((1.0 - b.tokens) / Rate(perMinute));
    }

    /** Refill the key's bucket or open one: it then holds the key's credit. */
    method Prepare(key: string, now: real)
      modifies this
      ensures key in buckets && buckets[key] == Bucket(Credit(perMinute, old(buckets), key, now), now)
      ensures if key in old(buckets) || |old(buckets)| < MAX_BUCKETS then
                Without(buckets, key) == Without(old(buckets), key)
              else Evicts(perMinute, old(buckets), Without(buckets, key), now)
    {
      ghost var before := buckets;
      if key in buckets {
        Refill(key, now);
        assert Without(buckets, key) == Without(before, key);
      } else {
        Open(key, now);
        assert Without(before, key) == before;
      }
    }

    method Take(key: string, now: real) returns (wait: Option<real>)
      requires perMinute > 0
      modifies this
      ensures Acquired(perMinute, old(buckets), buckets, key, now, wait)
    {
      ghost var before := buckets;
      Prepare(key, now);
      ghost var ready := buckets;
      wait := Draw(key);
      DrawnIsAcquired(perMinute, before, ready, buckets, key, now, wait);
    }

    method Acquire(key: string, now: real) returns (wait: Option<real>)
      modifies this
      ensures Acquired(perMinute, old(buckets), buckets, key, now, wait)
    {
      if perMinute <= 0 {
        return None;
      }
      wait := Take(key, now);
    }

    /** The clock is read at `start`, and again at `end` by the nested call. */
    method AcquireRequest(bearer: Option<string>, address: string, start: real, end: real) returns (wait: Option<real>)
      modifies this
      ensures exists mid, first :: RequestSteps(
                perMinute, old(buckets), mid, buckets, bearer, address, start, end, first, wait)
    {
      if perMinute <= 0 {
        assert RequestSteps(perMinute, old(buckets), old(buckets), buckets, bearer, address, start, end, None, None);
        return None;
      }
      if bearer.None? {
        wait := Acquire("addr:" + address, end);
        assert RequestSteps(perMinute, old(buckets), buckets, buckets, bearer, address, start, end, wait, wait);
        return;
      }
      var key := "bearer:" + bearer.value;
      if key in buckets {
        wait := Take(key, start);
        assert RequestSteps(perMinute, old(buckets), buckets, buckets, bearer, address, start, end, wait, wait);
        return;
      }
      var first := Acquire("new:" + address, end);
      ghost var mid := buckets;
      if first.Some? {
        wait := first;
        assert RequestSteps(perMinute, old(buckets), mid, buckets, bearer, address, start, end, first, wait);
        return;
      }
      wait := Take(key, start);
      assert RequestSteps(perMinute, old(buckets), mid, buckets, bearer, address, start, end, first, wait);
    }
  }
}
