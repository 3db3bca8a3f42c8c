/** What the limiter promises over every run with a nondecreasing clock. */
module RateTheorems {
  import opened Wrappers
  import opened RateLimiter

  // ---- Levels over time --------------------------------------------------------------------

  lemma RefillsUp(perMinute: int, span: real)
    requires perMinute > 0 && span >= 0.0
    ensures span * Rate(perMinute) >= 0.0
  {
    assert Rate(perMinute) > 0.0;
  }

  lemma RefillsAdd(perMinute: int, a: real, b: real, c: real)
    ensures (b - a) * Rate(perMinute) + (c - b) * Rate(perMinute) == (c - a) * Rate(perMinute)
  {
  }

  lemma LevelGrows(perMinute: int, b: Bucket, t: real, u: real)
    requires perMinute > 0 && t <= u
    ensures Level(perMinute, b, t) <= Level(perMinute, b, u) <= Level(perMinute, b, t) + (u - t) * Rate(perMinute)
  {
    RefillsAdd(perMinute, b.updated, t, u);
    RefillsUp(perMinute, u - t);
  }

  lemma LevelAtOnce(perMinute: int, b: Bucket)
    ensures Level(perMinute, b, b.updated) <= b.tokens
  {
    var none := b.updated - b.updated;
    assert none == 0.0;
    assert none * Rate(perMinute) == 0.0;
  }

  lemma LevelNonNegative(perMinute: int, b: Bucket, t: real)
    requires perMinute > 0 && b.tokens >= 0.0 && b.updated <= t
    ensures Level(perMinute, b, t) >= 0.0
  {
    var gained := (t - b.updated) * Rate(perMinute);
    assert gained >= 0.0 by {
      RefillsUp(perMinute, t - b.updated);
    }
    assert b.tokens + gained >= 0.0;
    assert Capacity(perMinute) > 0.0;
    assert Level(perMinute, b, t) == Min(Capacity(perMinute), b.tokens + gained);
  }

  /** The pressure branch dropped a bucket that was not full. */
  predicate PressureDropped(perMinute: int, before: Table, after: Table, key: string, now: real) {
    key in before && key !in after && !Full(perMinute, before[key], now)
  }

  lemma OtherBucket(perMinute: int, before: Table, after: Table, key: string, now: real, wait: Option<real>, k: string)
    requires perMinute > 0 && Acquired(perMinute, before, after, key, now, wait) && k != key
    ensures k in after ==> k in before && after[k] == before[k]
    ensures k in before && k !in after ==> |before| >= MAX_BUCKETS && key !in before
  {
    var others := Without(after, key);
    assert k in after ==> k in others && others[k] == after[k];
    assert k in before ==> k in Without(before, key);
  }

  /** Dropping full buckets is invisible: the credit of every other key is the same from now on. */
  lemma CreditStable(
    perMinute: int, before: Table, after: Table, key: string, now: real, wait: Option<real>, k: string, t: real)
    requires perMinute > 0 && Acquired(perMinute, before, after, key, now, wait)
    requires k != key && !PressureDropped(perMinute, before, after, k, now) && now <= t
    ensures Credit(perMinute, after, k, t) == Credit(perMinute, before, k, t)
  {
    OtherBucket(perMinute, before, after, key, now, wait, k);
    if k in before && k !in after {
      LevelGrows(perMinute, before[k], now, t);
    }
  }

  // ---- Runs --------------------------------------------------------------------------------

  /** One call with its clock reads and answers; `mid` is the table between its two acquisitions. */
  datatype Call =
    | Direct(key: string, at: real, answer: Option<real>)
    | Request(bearer: Option<string>, address: string, start: real, end: real, mid: Table, first: Option<real>,
              answer: Option<real>)

  function Begin(c: Call): real {
    match c
    case Direct(_, at, _) => at
    case Request(_, _, start, _, _, _, _) => start
  }

  function Finish(c: Call): real {
    match c
    case Direct(_, at, _) => at
    case Request(_, _, _, end, _, _, _) => end
  }

  predicate CallOk(perMinute: int, before: Table, after: Table, c: Call) {
    match c
    case Direct(key, at, answer) => Acquired(perMinute, before, after, key, at, answer)
    case Request(bearer, address, start, end, mid, first, answer) =>
      start <= end && RequestSteps(perMinute, before, mid, after, bearer, address, start, end, first, answer)
  }

  /** A run: the tables between the calls, and the clock never going back. */
  predicate IsRun(perMinute: int, tables: seq<Table>, calls: seq<Call>) {
    && |tables| == |calls| + 1
    && tables[0] == map[]
    && (forall i :: 0 <= i < |calls| ==> CallOk(perMinute, tables[i], tables[i + 1], calls[i]))
    && (forall i :: 0 < i < |calls| ==> Finish(calls[i - 1]) <= Begin(calls[i]))
  }

  /** The key a call asks first, and when. */
  function FirstKey(before: Table, c: Call): string {
    match c
    case Direct(key, _, _) => key
    case Request(bearer, address, _, _, _, _, _) =>
      if bearer.None? then "addr:" + address
      else if "bearer:" + bearer.value in before then "bearer:" + bearer.value
      else "new:" + address
  }

  function FirstTime(before: Table, c: Call): real {
    match c
    case Direct(_, at, _) => at
    case Request(bearer, _, start, end, _, _, _) =>
      if bearer.Some? && "bearer:" + bearer.value in before then start else end
  }

  /** The call opens a bucket for a bearer it has not seen. */
  predicate OpensBearer(before: Table, c: Call) {
    c.Request? && c.bearer.Some? && "bearer:" + c.bearer.value !in before && c.first.None?
  }

  function FirstAnswer(c: Call): Option<real> {
    if c.Direct? then c.answer else c.first
  }

  function Middle(after: Table, c: Call): Table {
    if c.Direct? then after else c.mid
  }

  /** How many tokens of `k` the call spent. */
  function Spent(before: Table, c: Call, k: string): nat {
    (if FirstKey(before, c) == k && FirstAnswer(c).None? then 1 else 0)
    + if OpensBearer(before, c) && "bearer:" + c.bearer.value == k && c.answer.None? then 1 else 0
  }

  function SpentIn(tables: seq<Table>, calls: seq<Call>, k: string, i: nat, j: nat): nat
    requires i <= j <= |calls| && |tables| == |calls| + 1
  {
    if i == j then 0 else SpentIn(tables, calls, k, i, j - 1) + Spent(tables[j - 1], calls[j - 1], k)
  }

  predicate DroppedIn(perMinute: int, before: Table, after: Table, c: Call, k: string) {
    var mid := Middle(after, c);
    || PressureDropped(perMinute, before, mid, k, FirstTime(before, c))
    || (OpensBearer(before, c) && PressureDropped(perMinute, mid, after, k, Begin(c)))
  }

  // ---- The window bound --------------------------------------------------------------------

  /** What was spent since `since` and what is left never exceed the capacity plus the refill, from `from` on. */
  ghost predicate Within(perMinute: int, table: Table, k: string, since: real, from: real, spent: nat) {
    forall t :: t >= from ==>
      spent as real + Credit(perMinute, table, k, t) <= Capacity(perMinute) + (t - since) * Rate(perMinute)
  }

  lemma WithinOther(
    perMinute: int, before: Table, after: Table, key: string, now: real, wait: Option<real>,
    k: string, since: real, from: real, spent: nat)
    requires perMinute > 0 && Acquired(perMinute, before, after, key, now, wait)
    requires k != key && !PressureDropped(perMinute, before, after, k, now) && now <= from
    requires Within(perMinute, before, k, since, from, spent)
    ensures Within(perMinute, after, k, since, from, spent)
  {
    forall t | t >= from
      ensures spent as real + Credit(perMinute, after, k, t) <= Capacity(perMinute) + (t - since) * Rate(perMinute)
    {
      CreditStable(perMinute, before, after, key, now, wait, k, t);
      assert spent as real + Credit(perMinute, before, k, t) <= Capacity(perMinute) + (t - since) * Rate(perMinute);
    }
  }

  lemma DrawnGrows(perMinute: int, before: Table, after: Table, key: string, now: real, wait: Option<real>, t: real)
    requires perMinute > 0 && Acquired(perMinute, before, after, key, now, wait) && now <= t
    ensures (if wait.None? then 1.0 else 0.0) + Credit(perMinute, after, key, t)
            <= Credit(perMinute, before, key, now) + (t - now) * Rate(perMinute)
  {
    LevelGrows(perMinute, after[key], now, t);
    LevelAtOnce(perMinute, after[key]);
  }

  lemma WithinOwn(
    perMinute: int, before: Table, after: Table, key: string, now: real, wait: Option<real>,
    since: real, from: real, spent: nat)
    requires perMinute > 0 && Acquired(perMinute, before, after, key, now, wait) && from <= now
    requires Within(perMinute, before, key, since, from, spent)
    ensures Within(perMinute, after, key, since, now, spent + if wait.None? then 1 else 0)
  {
    var credit := Credit(perMinute, before, key, now);
    assert spent as real + credit <= Capacity(perMinute) + (now - since) * Rate(perMinute);
    var total := spent + if wait.None? then 1 else 0;
    forall t | t >= now
      ensures total as real + Credit(perMinute, after, key, t) <= Capacity(perMinute) + (t - since) * Rate(perMinute)
    {
      DrawnGrows(perMinute, before, after, key, now, wait, t);
      RefillsAdd(perMinute, since, now, t);
    }
  }

  /** The burst, and `perMinute` tokens for every sixty seconds. */
  function Allowance(perMinute: int, seconds: real): real {
    perMinute as real + perMinute as real * seconds / 60.0
  }

  lemma WithinAt(perMinute: int, table: Table, k: string, since: real, until: real, seconds: real, spent: nat)
    requires Within(perMinute, table, k, since, until, spent)
    requires Credit(perMinute, table, k, until) >= 0.0 && since + seconds == until
    ensures spent as real <= Allowance(perMinute, seconds)
  {
    assert spent as real <= Capacity(perMinute) + (until - since) * Rate(perMinute);
    RefillPerMinute(perMinute, until - since);
  }

  lemma RefillPerMinute(perMinute: int, span: real)
    ensures Capacity(perMinute) + span * Rate(perMinute) == Allowance(perMinute, span)
  {
  }

  lemma WithinLater(perMinute: int, table: Table, k: string, since: real, from: real, later: real, spent: nat)
    requires Within(perMinute, table, k, since, from, spent) && from <= later
    ensures Within(perMinute, table, k, since, later, spent)
  {
  }

  /** The first, and often only, acquisition of a call. */
  lemma WithinFirst(
    perMinute: int, before: Table, after: Table, c: Call, k: string, since: real, from: real, spent: nat)
    requires perMinute > 0 && CallOk(perMinute, before, after, c) && from <= Begin(c)
    requires !DroppedIn(perMinute, before, after, c, k)
    requires Within(perMinute, before, k, since, from, spent)
    ensures Within(perMinute, Middle(after, c), k, since, Finish(c),
                   spent + if FirstKey(before, c) == k && FirstAnswer(c).None? then 1 else 0)
  {
    var key, now, mid, wait := FirstKey(before, c), FirstTime(before, c), Middle(after, c), FirstAnswer(c);
    assert Acquired(perMinute, before, mid, key, now, wait);
    if k == key {
      WithinOwn(perMinute, before, mid, key, now, wait, since, from, spent);
      WithinLater(perMinute, mid, k, since, now, Finish(c), spent + if wait.None? then 1 else 0);
    } else {
      WithinLater(perMinute, before, k, since, from, Finish(c), spent);
      WithinOther(perMinute, before, mid, key, now, wait, k, since, Finish(c), spent);
    }
  }

  /** The second acquisition of a request that opens a bearer's bucket, at the time the request began. */
  lemma WithinOpening(
    perMinute: int, before: Table, after: Table, c: Call, k: string, since: real, from: real, spent: nat)
    requires perMinute > 0 && CallOk(perMinute, before, after, c) && from <= Begin(c)
    requires OpensBearer(before, c) && k == "bearer:" + c.bearer.value
    requires Within(perMinute, before, k, since, from, spent)
    ensures Within(perMinute, after, k, since, Finish(c), spent + if c.answer.None? then 1 else 0)
  {
    assert ("new:" + c.address)[0] == 'n' && k[0] == 'b';
    OtherBucket(perMinute, before, c.mid, "new:" + c.address, c.end, c.first, k);
    assert forall t :: Credit(perMinute, c.mid, k, t) == Credit(perMinute, before, k, t);
    WithinLater(perMinute, before, k, since, from, c.start, spent);
    assert Within(perMinute, c.mid, k, since, c.start, spent);
    WithinOwn(perMinute, c.mid, after, k, c.start, c.answer, since, c.start, spent);
    WithinLater(perMinute, after, k, since, c.start, c.end, spent + if c.answer.None? then 1 else 0);
  }

  lemma WithinCall(perMinute: int, before: Table, after: Table, c: Call, k: string, since: real, from: real, spent: nat)
    requires perMinute > 0 && CallOk(perMinute, before, after, c) && from <= Begin(c)
    requires !DroppedIn(perMinute, before, after, c, k)
    requires Within(perMinute, before, k, since, from, spent)
    ensures Within(perMinute, after, k, since, Finish(c), spent + Spent(before, c, k))
  {
    if OpensBearer(before, c) {
      var bearerKey, addressKey := "bearer:" + c.bearer.value, "new:" + c.address;
      assert bearerKey[0] == 'b' && addressKey[0] == 'n';
      if k == bearerKey {
        WithinOpening(perMinute, before, after, c, k, since, from, spent);
      } else {
        WithinFirst(perMinute, before, after, c, k, since, from, spent);
        WithinOther(perMinute, c.mid, after, bearerKey, c.start, c.answer, k, since, c.end,
                    spent + if addressKey == k then 1 else 0);
      }
    } else {
      WithinFirst(perMinute, before, after, c, k, since, from, spent);
    }
  }

  lemma {:induction false} WithinRun(perMinute: int, tables: seq<Table>, calls: seq<Call>, k: string, i: nat, j: nat)
    requires perMinute > 0 && IsRun(perMinute, tables, calls) && i <= j <= |calls| && i < |calls|
    requires forall n :: i <= n < j ==> !DroppedIn(perMinute, tables[n], tables[n + 1], calls[n], k)
    ensures Within(perMinute, tables[j], k, Begin(calls[i]), if j == i then Begin(calls[i]) else Finish(calls[j - 1]),
                   SpentIn(tables, calls, k, i, j))
    decreases j
  {
    var since := Begin(calls[i]);
    if j == i {
      forall t | t >= since
        ensures Credit(perMinute, tables[i], k, t) <= Capacity(perMinute) + (t - since) * Rate(perMinute)
      {
        RefillsUp(perMinute, t - since);
      }
    } else {
      WithinRun(perMinute, tables, calls, k, i, j - 1);
      var from := if j - 1 == i then since else Finish(calls[j - 2]);
      var spent := SpentIn(tables, calls, k, i, j - 1);
      WithinCall(perMinute, tables[j - 1], tables[j], calls[j - 1], k, since, from, spent);
    }
  }

  // ---- No bucket is overdrawn --------------------------------------------------------------

  /** No bucket is overdrawn, and none was touched after `latest`. */
  predicate Sane(table: Table, latest: real) {
    forall k :: k in table ==> table[k].tokens >= 0.0 && table[k].updated <= latest
  }

  lemma AcquiredSane(
    perMinute: int, before: Table, after: Table, key: string, now: real, wait: Option<real>, from: real, latest: real)
    requires perMinute > 0 && Acquired(perMinute, before, after, key, now, wait)
    requires Sane(before, from) && from <= latest && now <= latest && (key in before ==> from <= now)
    ensures Sane(after, latest)
  {
    var credit := Credit(perMinute, before, key, now);
    if key in before {
      LevelNonNegative(perMinute, before[key], now);
    }
    assert perMinute as real > 0.0;
    assert credit >= 0.0;
    forall k | k in after
      ensures after[k].tokens >= 0.0 && after[k].updated <= latest
    {
      if k != key {
        OtherBucket(perMinute, before, after, key, now, wait, k);
      }
    }
  }

  lemma CallSane(perMinute: int, before: Table, after: Table, c: Call, from: real)
    requires perMinute > 0 && CallOk(perMinute, before, after, c) && Sane(before, from) && from <= Begin(c)
    ensures Sane(after, Finish(c))
  {
    var key, now, mid, wait := FirstKey(before, c), FirstTime(before, c), Middle(after, c), FirstAnswer(c);
    assert Acquired(perMinute, before, mid, key, now, wait);
    AcquiredSane(perMinute, before, mid, key, now, wait, from, Finish(c));
    if OpensBearer(before, c) {
      var bearerKey := "bearer:" + c.bearer.value;
      assert bearerKey[0] == 'b' && key[0] == 'n';
      OtherBucket(perMinute, before, mid, key, now, wait, bearerKey);
      AcquiredSane(perMinute, mid, after, bearerKey, c.start, c.answer, c.end, c.end);
    }
  }

  lemma {:induction false} RunSane(perMinute: int, tables: seq<Table>, calls: seq<Call>, j: nat)
    requires perMinute > 0 && IsRun(perMinute, tables, calls) && 0 < j <= |calls|
    ensures Sane(tables[j], Finish(calls[j - 1]))
  {
    if j > 1 {
      RunSane(perMinute, tables, calls, j - 1);
      CallSane(perMinute, tables[j - 1], tables[j], calls[j - 1], Finish(calls[j - 2]));
    } else {
      CallSane(perMinute, tables[0], tables[1], calls[0], Begin(calls[0]));
    }
  }

  lemma CreditNonNegative(perMinute: int, table: Table, k: string, t: real)
    requires perMinute > 0 && Sane(table, t)
    ensures Credit(perMinute, table, k, t) >= 0.0
  {
    if k in table {
      LevelNonNegative(perMinute, table[k], t);
    }
    assert perMinute as real > 0.0;
  }

  /**
   * In any stretch of a run in which the pressure branch does not drop the key's bucket, its admissions are at most
   * the burst plus the refill over the time the stretch takes: `perMinute`, and `perMinute` more for every minute.
   */
  lemma AdmissionsBounded(
    perMinute: int, tables: seq<Table>, calls: seq<Call>, k: string, i: nat, j: nat, seconds: real)
    requires perMinute > 0 && IsRun(perMinute, tables, calls) && i < j <= |calls|
    requires forall n :: i <= n < j ==> !DroppedIn(perMinute, tables[n], tables[n + 1], calls[n], k)
    requires Begin(calls[i]) + seconds == Finish(calls[j - 1])
    ensures SpentIn(tables, calls, k, i, j) as real <= Allowance(perMinute, seconds)
  {
    var t := Finish(calls[j - 1]);
    assert Credit(perMinute, tables[j], k, t) >= 0.0 by {
      RunSane(perMinute, tables, calls, j);
      CreditNonNegative(perMinute, tables[j], k, t);
    }
    assert Within(perMinute, tables[j], k, Begin(calls[i]), t, SpentIn(tables, calls, k, i, j)) by {
      WithinRun(perMinute, tables, calls, k, i, j);
    }
    WithinAt(perMinute, tables[j], k, Begin(calls[i]), t, seconds, SpentIn(tables, calls, k, i, j));
  }

  // ---- What one key sees -------------------------------------------------------------------

  /**
   * A refused caller is told the exact wait: left alone, its key has a token again from that moment on and not before.
   * The wait is what is missing to one token, at `perMinute` tokens in sixty seconds.
   */
  lemma WaitIsExact(perMinute: int, before: Table, after: Table, key: string, now: real, wait: real, t: real)
    requires perMinute > 0 && Acquired(perMinute, before, after, key, now, Some(wait)) && now <= t
    ensures Credit(perMinute, after, key, t) >= 1.0 <==> t >= now + wait
    ensures wait * perMinute as real == (1.0 - Credit(perMinute, before, key, now)) * 60.0 > 0.0
  {
    var credit, rate := Credit(perMinute, before, key, now), Rate(perMinute);
    var missing := 1.0 - credit;
    assert perMinute as real >= 1.0;
    WaitFills(rate, missing, wait, t - now);
    assert after[key] == Bucket(credit, now);
  }

  lemma WaitFills(rate: real, missing: real, wait: real, span: real)
    requires rate > 0.0 && wait == missing / rate
    ensures span * rate >= missing <==> span >= wait
    ensures wait * rate == missing
  {
    assert wait * rate == missing;
    assert span * rate - wait * rate == (span - wait) * rate;
    if span >= wait {
      assert (span - wait) * rate >= 0.0;
    } else {
      assert (wait - span) * rate > 0.0;
    }
  }

  /** What is left of a fresh bucket after `n` calls in one instant. */
  function LeftOf(perMinute: int, n: nat): real {
    if n < perMinute then (perMinute - n) as real else 0.0
  }

  lemma DrawnAtOnce(perMinute: int, before: Table, after: Table, key: string, now: real, wait: Option<real>, n: nat)
    requires perMinute > 0 && Acquired(perMinute, before, after, key, now, wait)
    requires Credit(perMinute, before, key, now) == LeftOf(perMinute, n)
    ensures wait == None <==> n < perMinute
    ensures Credit(perMinute, after, key, now) == LeftOf(perMinute, n + 1)
  {
    assert now - after[key].updated == 0.0;
    assert Level(perMinute, after[key], now) == Min(Capacity(perMinute), after[key].tokens);
  }

  /** A key nobody has used is let through exactly `perMinute` times in one instant. */
  lemma {:induction false} BurstIsExact(
    perMinute: int, tables: seq<Table>, calls: seq<Call>, key: string, now: real, n: nat)
    requires perMinute > 0 && IsRun(perMinute, tables, calls) && n < |calls|
    requires forall i :: 0 <= i < |calls| ==> calls[i].Direct? && calls[i].key == key && calls[i].at == now
    ensures calls[n].answer == None <==> n < perMinute
    ensures Credit(perMinute, tables[n + 1], key, now) == LeftOf(perMinute, n + 1)
  {
    if n == 0 {
      assert Credit(perMinute, tables[0], key, now) == LeftOf(perMinute, 0);
    } else {
      BurstIsExact(perMinute, tables, calls, key, now, n - 1);
    }
    assert CallOk(perMinute, tables[n], tables[n + 1], calls[n]);
    DrawnAtOnce(perMinute, tables[n], tables[n + 1], key, now, calls[n].answer, n);
  }

  /** The tokens of a bucket with the refill since its last use, as if it had no brim. */
  function Filled(perMinute: int, b: Bucket, now: real): real {
    b.tokens + (now - b.updated) * (perMinute as real / 60.0)
  }

  lemma FilledIsLevel(perMinute: int, b: Bucket, now: real)
    ensures Full(perMinute, b, now) <==> Filled(perMinute, b, now) >= perMinute as real
    ensures !Full(perMinute, b, now) ==> Level(perMinute, b, now) == Filled(perMinute, b, now)
  {
  }

  lemma UnfilledKeys(perMinute: int, table: Table, now: real)
    ensures Unfilled(perMinute, table, now).Keys
            == set k | k in table && Filled(perMinute, table[k], now) < perMinute as real
  {
    forall k | k in table {
      FilledIsLevel(perMinute, table[k], now);
    }
  }

  lemma OutranksExact(perMinute: int, a: Bucket, b: Bucket, now: real)
    requires !Full(perMinute, a, now) && !Full(perMinute, b, now)
    ensures var x, y := Filled(perMinute, a, now), Filled(perMinute, b, now);
            Outranks(perMinute, a, b, now) <==> x > y || (x == y && a.updated <= b.updated)
  {
    FilledIsLevel(perMinute, a, now);
    FilledIsLevel(perMinute, b, now);
  }

  /**
   * What eviction leaves, bucket by bucket: no bucket that is full by now; of the others all, or if ten thousand are
   * left, all but a half. That half had the most tokens, the longest untouched first among equals.
   */
  lemma EvictionExact(perMinute: int, before: Table, after: Table, now: real)
    requires Evicts(perMinute, before, after, now)
    ensures var unfilled := set k | k in before && Filled(perMinute, before[k], now) < perMinute as real;
            && after.Keys <= unfilled
            && (forall k :: k in after ==> after[k] == before[k])
            && |unfilled| - |after| == (if |unfilled| < 10000 then 0 else |unfilled| / 2)
            && forall d, k :: d in unfilled && d !in after && k in after ==>
                 var x, y := Filled(perMinute, before[d], now), Filled(perMinute, before[k], now);
                 x > y || (x == y && before[d].updated <= before[k].updated)
  {
    var rest := Unfilled(perMinute, before, now);
    var unfilled := set k | k in before && Filled(perMinute, before[k], now) < perMinute as real;
    UnfilledKeys(perMinute, before, now);
    assert |rest| == |rest.Keys|;
    assert after.Keys <= rest.Keys;
    forall d, k | d in unfilled && d !in after && k in after
      ensures var x, y := Filled(perMinute, before[d], now), Filled(perMinute, before[k], now);
              x > y || (x == y && before[d].updated <= before[k].updated)
    {
      OutranksExact(perMinute, before[d], before[k], now);
    }
  }

  // ---- New bearers from one address --------------------------------------------------------

  /** How many bearer buckets `address` opened in calls `i..j`. */
  function OpenedIn(tables: seq<Table>, calls: seq<Call>, address: string, i: nat, j: nat): nat
    requires i <= j <= |calls| && |tables| == |calls| + 1
  {
    if i == j then 0
    else
      OpenedIn(tables, calls, address, i, j - 1)
      + if OpensBearer(tables[j - 1], calls[j - 1]) && calls[j - 1].address == address then 1 else 0
  }

  lemma {:induction false} OpenedSpends(tables: seq<Table>, calls: seq<Call>, address: string, i: nat, j: nat)
    requires i <= j <= |calls| && |tables| == |calls| + 1
    ensures OpenedIn(tables, calls, address, i, j) <= SpentIn(tables, calls, "new:" + address, i, j)
  {
    if i == j {
    } else {
      OpenedSpends(tables, calls, address, i, j - 1);
    }
  }

  /** Spraying fresh bearers from one address is throttled like any other burst. */
  lemma NewBearersBounded(
    perMinute: int, tables: seq<Table>, calls: seq<Call>, address: string, i: nat, j: nat, seconds: real)
    requires perMinute > 0 && IsRun(perMinute, tables, calls) && i < j <= |calls|
    requires forall n :: i <= n < j ==> !DroppedIn(perMinute, tables[n], tables[n + 1], calls[n], "new:" + address)
    requires Begin(calls[i]) + seconds == Finish(calls[j - 1])
    ensures OpenedIn(tables, calls, address, i, j) as real <= Allowance(perMinute, seconds)
  {
    OpenedSpends(tables, calls, address, i, j);
    AdmissionsBounded(perMinute, tables, calls, "new:" + address, i, j, seconds);
  }

  // ---- The table stays small ---------------------------------------------------------------

  lemma WithoutSize(table: Table, key: string)
    requires key in table
    ensures |table| == |Without(table, key)| + 1
  {
    var rest := Without(table, key);
    assert rest.Keys == table.Keys - {key};
    assert |rest| == |rest.Keys|;
    assert |table| == |table.Keys|;
  }

  lemma SubsetSize(small: set<string>, large: set<string>)
    requires small <= large
    ensures |small| <= |large|
    decreases large
  {
    if large != {} {
      var k :| k in large;
      SubsetSize(small - {k}, large - {k});
    }
  }

  lemma AcquiredSmall(perMinute: int, before: Table, after: Table, key: string, now: real, wait: Option<real>)
    requires Acquired(perMinute, before, after, key, now, wait) && |before| <= MAX_BUCKETS
    ensures |after| <= MAX_BUCKETS
  {
    if perMinute > 0 {
      WithoutSize(after, key);
      if key in before {
        WithoutSize(before, key);
      } else {
        assert Without(before, key) == before;
        var rest := Unfilled(perMinute, before, now);
        SubsetSize(rest.Keys, before.Keys);
        assert |rest| == |rest.Keys| && |before| == |before.Keys|;
      }
    }
  }

  /** No table of any run, nor any table within a call, holds more than ten thousand buckets. */
  lemma {:induction false} TableBounded(perMinute: int, tables: seq<Table>, calls: seq<Call>, j: nat)
    requires IsRun(perMinute, tables, calls) && j <= |calls|
    ensures |tables[j]| <= 10000
    ensures j > 0 ==> |Middle(tables[j], calls[j - 1])| <= 10000
  {
    if j == 0 {
    } else {
      TableBounded(perMinute, tables, calls, j - 1);
      var before, after, c := tables[j - 1], tables[j], calls[j - 1];
      if perMinute > 0 {
        var mid := Middle(after, c);
        AcquiredSmall(perMinute, before, mid, FirstKey(before, c), FirstTime(before, c), FirstAnswer(c));
        if OpensBearer(before, c) {
          AcquiredSmall(perMinute, mid, after, "bearer:" + c.bearer.value, c.start, c.answer);
        }
      }
    }
  }

  // ---- Against a limiter that keeps every bucket -------------------------------------------

  /** The answer a full table would give. */
  function Answer(perMinute: int, table: Table, key: string, now: real): Option<real> {
    var credit := Credit(perMinute, table, key, now);
    if perMinute <= 0 || credit >= 1.0 then None else Some((1.0 - credit) / Rate(perMinute))
  }

  /** The limiter without eviction, over the keys and times of `calls`. */
  function KeepAll(perMinute: int, calls: seq<Call>): Table
    requires forall c :: c in calls ==> c.Direct?
  {
    if calls == [] || perMinute <= 0 then map[]
    else
      var c := calls[|calls| - 1];
      Keep(perMinute, KeepAll(perMinute, calls[..|calls| - 1]), c.key, c.at)
  }

  function Keep(perMinute: int, table: Table, key: string, now: real): Table {
    var credit := Credit(perMinute, table, key, now);
    table[key := Bucket(if credit >= 1.0 then credit - 1.0 else credit, now)]
  }

  lemma KeepAllStep(perMinute: int, calls: seq<Call>, n: nat)
    requires perMinute > 0 && 0 < n <= |calls| && forall c :: c in calls ==> c.Direct?
    ensures KeepAll(perMinute, calls[..n])
            == Keep(perMinute, KeepAll(perMinute, calls[..n - 1]), calls[n - 1].key, calls[n - 1].at)
  {
    assert calls[..n][..n - 1] == calls[..n - 1];
  }

  /** Equal credits before an acquisition are equal credits after it. */
  lemma SimulatesStep(
    perMinute: int, before: Table, after: Table, kept: Table, c: Call, k: string, t: real)
    requires perMinute > 0 && c.Direct? && Acquired(perMinute, before, after, c.key, c.at, c.answer) && c.at <= t
    requires k != c.key ==> !PressureDropped(perMinute, before, after, k, c.at)
    requires var u := if k == c.key then c.at else t;
             Credit(perMinute, before, k, u) == Credit(perMinute, kept, k, u)
    ensures Credit(perMinute, after, k, t) == Credit(perMinute, Keep(perMinute, kept, c.key, c.at), k, t)
  {
    if k == c.key {
      assert after[k] == Keep(perMinute, kept, c.key, c.at)[k];
    } else {
      CreditStable(perMinute, before, after, c.key, c.at, c.answer, k, t);
    }
  }

  lemma {:induction false} Simulates(
    perMinute: int, tables: seq<Table>, calls: seq<Call>, n: nat, k: string, t: real)
    requires perMinute > 0 && IsRun(perMinute, tables, calls) && n <= |calls|
    requires forall c :: c in calls ==> c.Direct?
    requires n > 0 ==> calls[n - 1].at <= t
    requires forall m :: 0 <= m < n ==> !DroppedIn(perMinute, tables[m], tables[m + 1], calls[m], k)
    ensures Credit(perMinute, tables[n], k, t) == Credit(perMinute, KeepAll(perMinute, calls[..n]), k, t)
    decreases n
  {
    if n == 0 {
    } else {
      var before, after, c := tables[n - 1], tables[n], calls[n - 1];
      assert n > 1 ==> calls[n - 2].at == Finish(calls[n - 2]) && c.at == Begin(c);
      assert CallOk(perMinute, before, after, c) && !DroppedIn(perMinute, before, after, c, k);
      KeepAllStep(perMinute, calls, n);
      Simulates(perMinute, tables, calls, n - 1, k, if k == c.key then c.at else t);
      SimulatesStep(perMinute, before, after, KeepAll(perMinute, calls[..n - 1]), c, k, t);
    }
  }

  /**
   * Dropping refilled buckets is never seen by `acquire`: as long as the pressure branch has not dropped the bucket
   * of the key that is asked for, the answer is the one of a limiter that keeps every bucket.
   */
  lemma EvictionInvisible(perMinute: int, tables: seq<Table>, calls: seq<Call>, n: nat)
    requires IsRun(perMinute, tables, calls) && n < |calls|
    requires forall c :: c in calls ==> c.Direct?
    requires forall m :: 0 <= m < n ==> !DroppedIn(perMinute, tables[m], tables[m + 1], calls[m], calls[n].key)
    ensures calls[n].answer == Answer(perMinute, KeepAll(perMinute, calls[..n]), calls[n].key, calls[n].at)
  {
    var c, kept := calls[n], KeepAll(perMinute, calls[..n]);
    assert CallOk(perMinute, tables[n], tables[n + 1], c);
    if perMinute > 0 {
      assert Credit(perMinute, tables[n], c.key, c.at) == Credit(perMinute, kept, c.key, c.at) by {
        assert n > 0 ==> calls[n - 1].at == Finish(calls[n - 1]) && c.at == Begin(c);
        Simulates(perMinute, tables, calls, n, c.key, c.at);
      }
      SameCreditSameAnswer(perMinute, tables[n], tables[n + 1], kept, c.key, c.at, c.answer);
    }
  }

  lemma SameCreditSameAnswer(
    perMinute: int, before: Table, after: Table, kept: Table, key: string, now: real, wait: Option<real>)
    requires Acquired(perMinute, before, after, key, now, wait)
    requires Credit(perMinute, before, key, now) == Credit(perMinute, kept, key, now)
    ensures wait == Answer(perMinute, kept, key, now)
  {
  }

  /** A full bucket is gone after every call that opens another key at the limit; kept, it would answer at once. */
  lemma EvictedFull(
    perMinute: int, before: Table, after: Table, key: string, now: real, answer: Option<real>, k: string, t: real)
    requires perMinute > 0 && Acquired(perMinute, before, after, key, now, answer) && now <= t
    requires key !in before && |before| >= MAX_BUCKETS
    requires k in before && Full(perMinute, before[k], now)
    ensures k !in after && Answer(perMinute, before, k, t) == None
  {
    LevelGrows(perMinute, before[k], now, t);
    assert Capacity(perMinute) >= 1.0;
    assert k !in Without(after, key);
  }

  /**
   * A request can tell that its bearer's full bucket was dropped by a call that opened another key at the limit: it
   * gets the answer the bucket would have given if and only if the address can pay for a new bearer, whatever else
   * was dropped. The address's means are those it had before, unless that call spent from it or the pressure branch
   * dropped its bucket too.
   */
  lemma RequestSeesTheDrop(
    perMinute: int, kept: Table, dropped: Table, key: string, dropAt: real, answer: Option<real>, b: string,
    address: string, start: real, end: real, mid: Table, after: Table, first: Option<real>, wait: Option<real>)
    requires perMinute > 0 && Acquired(perMinute, kept, dropped, key, dropAt, answer) && dropAt <= start <= end
    requires key !in kept && |kept| >= MAX_BUCKETS
    requires "bearer:" + b in kept && Full(perMinute, kept["bearer:" + b], dropAt)
    requires RequestSteps(perMinute, dropped, mid, after, Some(b), address, start, end, first, wait)
    ensures wait == Answer(perMinute, kept, "bearer:" + b, start) <==>
            Credit(perMinute, dropped, "new:" + address, end) >= 1.0
    ensures key != "new:" + address && !PressureDropped(perMinute, kept, dropped, "new:" + address, dropAt) ==>
              (wait == Answer(perMinute, kept, "bearer:" + b, start) <==>
               Credit(perMinute, kept, "new:" + address, end) >= 1.0)
  {
    var bearerKey, addressKey := "bearer:" + b, "new:" + address;
    assert bearerKey[0] == 'b' && addressKey[0] == 'n';
    EvictedFull(perMinute, kept, dropped, key, dropAt, answer, bearerKey, start);
    OtherBucket(perMinute, dropped, mid, addressKey, end, first, bearerKey);
    assert Capacity(perMinute) >= 1.0;
    if key != addressKey && !PressureDropped(perMinute, kept, dropped, addressKey, dropAt) {
      CreditStable(perMinute, kept, dropped, key, dropAt, answer, addressKey, end);
    }
  }
}
