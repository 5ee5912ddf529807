/**
 The sharded token-bucket limiter: calls as functions on its state, and a limiter that never evicts to compare with.
 */
module RateLimit {
  datatype Config = Config(rate: real, capacity: real)

  /** lastRefill and lastSeen are seconds since the zero time of the clock. */
  datatype Bucket = Bucket(tokens: real, lastRefill: real, lastSeen: real)

  datatype Shard = Shard(buckets: map<string, Bucket>, lastSweep: real)

  datatype Call = Call(key: string, now: real)

  const SHARD_COUNT := 32
  const BUCKET_TTL := 600.0
  const SWEEP_EVERY := 60.0

  function MinReal(a: real, b: real): real
  {
    if a < b then a else b
  }

  predicate Idle(b: Bucket, now: real)
  {
    now - b.lastSeen > BUCKET_TTL
  }

  function Sweep(s: Shard, now: real): Shard
  {
    if now - s.lastSweep < SWEEP_EVERY then s
    else Shard(map k | k in s.buckets && !Idle(s.buckets[k], now) :: s.buckets[k], now)
  }

  /** Tokens earned between two instants. */
  function Earned(c: Config, from: real, to: real): real
  {
    (to - from) * c.rate
  }

  lemma ScaleMonotone(x: real, y: real, r: real)
    requires x <= y && r >= 0.0
    ensures x * r <= y * r
  {
    var d := y - x;
    assert d * r >= 0.0;
    assert y * r == (x + d) * r == x * r + d * r;
  }

  lemma EarnedGrows(c: Config, from: real, to: real)
    requires c.rate >= 0.0 && from <= to
    ensures Earned(c, from, to) >= 0.0
  {
    ScaleMonotone(0.0, to - from, c.rate);
  }

  lemma EarnedSplits(c: Config, from: real, mid: real, to: real)
    ensures Earned(c, from, to) == Earned(c, from, mid) + Earned(c, mid, to)
  {
    var x, y, r := mid - from, to - mid, c.rate;
    assert to - from == x + y;
    assert (x + y) * r == x * r + y * r;
  }

  /** Tokens after the refill, before the cap. */
  function Refilled(c: Config, b: Bucket, now: real): real
  {
    b.tokens + Earned(c, b.lastRefill, now)
  }

  /** Refill and spend one token of the bucket of `key`; a missing bucket starts full. */
  function Take(c: Config, buckets: map<string, Bucket>, key: string, now: real): (map<string, Bucket>, bool)
  {
    if key !in buckets then (buckets[key := Bucket(c.capacity - 1.0, now, now)], true)
    else
      var b := buckets[key];
      var tokens := MinReal(c.capacity, Refilled(c, b, now));
      if tokens < 1.0 then (buckets[key := Bucket(tokens, now, now)], false)
      else (buckets[key := Bucket(tokens - 1.0, now, now)], true)
  }

  function KeyOf(key: string): string
  {
    if key == "" then "anonymous" else key
  }

  /** The hash is a library function, so any function of the key stands for it. */
  type Hash = string -> nat

  function Allow(c: Config, hash: Hash, shards: seq<Shard>, call: Call): (seq<Shard>, bool)
    requires |shards| > 0
  {
    var i := hash(KeyOf(call.key)) % |shards|;
    var swept := Sweep(shards[i], call.now);
    var (buckets, ok) := Take(c, swept.buckets, KeyOf(call.key), call.now);
    (shards[i := Shard(buckets, swept.lastSweep)], ok)
  }

  const EmptyShard := Shard(map[], 0.0)

  function NewShards(): seq<Shard>
  {
    seq(SHARD_COUNT, i => EmptyShard)
  }

  function Decisions(c: Config, hash: Hash, shards: seq<Shard>, calls: seq<Call>): (r: seq<bool>)
    requires |shards| > 0
    ensures |r| == |calls|
    decreases calls
  {
    if |calls| == 0 then []
    else
      var (next, ok) := Allow(c, hash, shards, calls[0]);
      [ok] + Decisions(c, hash, next, calls[1..])
  }

  /** The limiter without shards and without eviction. */
  function Reference(c: Config, buckets: map<string, Bucket>, calls: seq<Call>): (r: seq<bool>)
    ensures |r| == |calls|
    decreases calls
  {
    if |calls| == 0 then []
    else
      var (next, ok) := Take(c, buckets, KeyOf(calls[0].key), calls[0].now);
      [ok] + Reference(c, next, calls[1..])
  }

  ghost predicate Ordered(calls: seq<Call>)
  {
    && (forall i | 0 <= i < |calls| :: calls[i].now >= 0.0)
    && (forall i, j | 0 <= i < j < |calls| :: calls[i].now <= calls[j].now)
  }

  /** How many of the calls for `key` were admitted. */
  function Admitted(calls: seq<Call>, decisions: seq<bool>, key: string): nat
    requires |calls| == |decisions|
    decreases calls
  {
    if |calls| == 0 then 0
    else (if decisions[0] && KeyOf(calls[0].key) == key then 1 else 0) + Admitted(calls[1..], decisions[1..], key)
  }

  predicate Admissible(c: Config)
  {
    c.capacity >= 1.0 && c.rate >= 0.0
  }

  /** An idle bucket is full again before the sweep may delete it. */
  predicate RefillsBeforeEviction(c: Config)
  {
    c.rate * BUCKET_TTL >= c.capacity
  }

  // ---------- eviction does not show ----------

  /** The bucket is full if it is refilled at `now`. */
  predicate FullBy(c: Config, b: Bucket, now: real)
  {
    Refilled(c, b, now) >= c.capacity
  }

  /**
   Every bucket of the reference is in its shard, or has been evicted and is full by now; shards hold nothing else.
   */
  ghost predicate Simulates(c: Config, hash: Hash, shards: seq<Shard>, all: map<string, Bucket>, now: real)
    requires |shards| > 0
  {
    && (forall k | k in all ::
          && 0.0 <= all[k].tokens <= c.capacity && all[k].lastRefill == all[k].lastSeen <= now
          && var local := shards[hash(k) % |shards|].buckets;
             if k in local then local[k] == all[k] else FullBy(c, all[k], now))
    && (forall i, k | 0 <= i < |shards| && k in shards[i].buckets :: i == hash(k) % |shards| && k in all)
  }

  lemma FullStays(c: Config, b: Bucket, now: real, later: real)
    requires c.rate >= 0.0 && now <= later && FullBy(c, b, now)
    ensures FullBy(c, b, later)
  {
    hide Earned;
    EarnedSplits(c, b.lastRefill, now, later);
    EarnedGrows(c, now, later);
  }

  lemma IdleIsFull(c: Config, b: Bucket, now: real)
    requires Admissible(c) && RefillsBeforeEviction(c) && b.tokens >= 0.0 && b.lastRefill == b.lastSeen && Idle(b, now)
    ensures FullBy(c, b, now)
  {
    ScaleMonotone(BUCKET_TTL, now - b.lastRefill, c.rate);
  }

  lemma SweepSimulates(c: Config, hash: Hash, shards: seq<Shard>, all: map<string, Bucket>, i: nat, before: real,
      now: real)
    requires Admissible(c) && RefillsBeforeEviction(c) && i < |shards| && before <= now
    requires Simulates(c, hash, shards, all, before)
    ensures Simulates(c, hash, shards[i := Sweep(shards[i], now)], all, now)
  {
    var swept := shards[i := Sweep(shards[i], now)];
    forall k | k in all
      ensures var local := swept[hash(k) % |swept|].buckets;
              if k in local then local[k] == all[k] else FullBy(c, all[k], now)
    {
      if k !in shards[hash(k) % |shards|].buckets {
        FullStays(c, all[k], before, now);
      } else if Idle(all[k], now) {
        IdleIsFull(c, all[k], now);
      }
    }
  }

  /** A bucket that has just been taken from holds between zero and capacity tokens. */
  lemma TakeBounds(c: Config, buckets: map<string, Bucket>, key: string, now: real)
    requires Admissible(c)
    requires key in buckets ==> 0.0 <= buckets[key].tokens && buckets[key].lastRefill <= now
    ensures var b := Take(c, buckets, key, now).0[key];
            0.0 <= b.tokens <= c.capacity && b.lastRefill == b.lastSeen == now
  {
    hide Earned;
    if key in buckets {
      EarnedGrows(c, buckets[key].lastRefill, now);
    }
  }

  /** Two bucket maps that agree on `key`, or one that lacks it while it is full in the other, take alike. */
  lemma TakeAlike(c: Config, local: map<string, Bucket>, all: map<string, Bucket>, key: string, now: real)
    requires Admissible(c)
    requires key in local ==> key in all && local[key] == all[key]
    requires key in all && key !in local ==> FullBy(c, all[key], now)
    ensures Take(c, local, key, now).1 == Take(c, all, key, now).1
    ensures Take(c, local, key, now).0 == local[key := Take(c, all, key, now).0[key]]
    ensures Take(c, all, key, now).0 == all[key := Take(c, all, key, now).0[key]]
  {
    hide Refilled;
  }

  lemma TakeSimulates(c: Config, hash: Hash, shards: seq<Shard>, all: map<string, Bucket>, key: string, now: real)
    requires Admissible(c) && |shards| > 0
    requires Simulates(c, hash, shards, all, now)
    ensures var i := hash(key) % |shards|;
            var (local, ok) := Take(c, shards[i].buckets, key, now);
            var (next, expected) := Take(c, all, key, now);
            ok == expected && Simulates(c, hash, shards[i := Shard(local, shards[i].lastSweep)], next, now)
  {
    hide Take, FullBy, MinReal;
    TakeBounds(c, all, key, now);
    TakeAlike(c, shards[hash(key) % |shards|].buckets, all, key, now);
  }

  lemma {:induction false} SimulationDecides(c: Config, hash: Hash, shards: seq<Shard>, all: map<string, Bucket>,
      calls: seq<Call>, before: real)
    requires Admissible(c) && RefillsBeforeEviction(c) && |shards| > 0
    requires Ordered(calls) && (|calls| > 0 ==> before <= calls[0].now)
    requires Simulates(c, hash, shards, all, before)
    ensures Decisions(c, hash, shards, calls) == Reference(c, all, calls)
    decreases calls
  {
    hide Simulates, Sweep, Take;
    if |calls| > 0 {
      var key, now := KeyOf(calls[0].key), calls[0].now;
      var i := hash(key) % |shards|;
      var swept := shards[i := Sweep(shards[i], now)];
      SweepSimulates(c, hash, shards, all, i, before, now);
      TakeSimulates(c, hash, swept, all, key, now);
      var (next, ok) := Allow(c, hash, shards, calls[0]);
      assert next == swept[i := Shard(Take(c, swept[i].buckets, key, now).0, swept[i].lastSweep)];
      SimulationDecides(c, hash, next, Take(c, all, key, now).0, calls[1..], now);
    }
  }

  /** The sweeping limiter and the one that never deletes a bucket agree on every call of this trace. */
  ghost predicate EvictionInvisible(c: Config, hash: Hash, calls: seq<Call>)
  {
    Decisions(c, hash, NewShards(), calls) == Reference(c, map[], calls)
  }

  lemma InvisibleWhenRefilled(c: Config, hash: Hash, calls: seq<Call>)
    requires Admissible(c) && RefillsBeforeEviction(c) && Ordered(calls)
    ensures EvictionInvisible(c, hash, calls)
  {
    SimulationDecides(c, hash, NewShards(), map[], calls, 0.0);
  }

  // ---------- the admission bound ----------

  /** What the bucket of `key` would hold if refilled at `now`. */
  function Level(c: Config, buckets: map<string, Bucket>, key: string, now: real): real
  {
    if key in buckets then MinReal(c.capacity, Refilled(c, buckets[key], now)) else c.capacity
  }

  lemma LevelRises(c: Config, buckets: map<string, Bucket>, key: string, now: real, later: real)
    requires c.rate >= 0.0 && now <= later
    ensures Level(c, buckets, key, later) <= Level(c, buckets, key, now) + Earned(c, now, later)
  {
    hide Earned;
    if key in buckets {
      EarnedSplits(c, buckets[key].lastRefill, now, later);
    }
    EarnedGrows(c, now, later);
  }

  /** The buckets a limiter can be in at `now`. */
  ghost predicate Sound(c: Config, buckets: map<string, Bucket>, now: real)
  {
    forall k | k in buckets :: 0.0 <= buckets[k].tokens <= c.capacity && buckets[k].lastRefill <= now
  }

  lemma RefillNow(c: Config, b: Bucket)
    ensures Refilled(c, b, b.lastRefill) == b.tokens
  {
    assert b.lastRefill - b.lastRefill == 0.0;
    assert 0.0 * c.rate == 0.0;
  }

  lemma RefillAdds(c: Config, b: Bucket, now: real)
    requires c.rate >= 0.0 && b.lastRefill <= now
    ensures Refilled(c, b, now) >= b.tokens
  {
    hide Earned;
    EarnedGrows(c, b.lastRefill, now);
  }

  /** A call lowers the level of its own key by the token it spends, and no other level. */
  lemma TakeLevel(c: Config, buckets: map<string, Bucket>, k: string, now: real, key: string)
    requires Admissible(c) && Sound(c, buckets, now)
    ensures var (next, ok) := Take(c, buckets, k, now);
            && Sound(c, next, now)
            && Level(c, next, key, now) == Level(c, buckets, key, now) - (if ok && k == key then 1.0 else 0.0)
            && Level(c, next, key, now) >= 0.0
  {
    hide Refilled;
    TakeBounds(c, buckets, k, now);
    var next := Take(c, buckets, k, now).0;
    RefillNow(c, next[k]);
    if key in next { RefillAdds(c, next[key], now); }
    if k in buckets { RefillAdds(c, buckets[k], now); }
  }

  /** Tokens spent in a window came from the level at its start or from the refill during it. */
  lemma {:induction false} SpentFromLevel(c: Config, buckets: map<string, Bucket>, calls: seq<Call>, key: string)
    requires Admissible(c) && Ordered(calls) && |calls| > 0 && Sound(c, buckets, calls[0].now)
    ensures Admitted(calls, Reference(c, buckets, calls), key) as real
         <= Level(c, buckets, key, calls[0].now) + Earned(c, calls[0].now, calls[|calls| - 1].now)
    decreases calls
  {
    hide Sound, Level, Take, Earned;
    var k, now := KeyOf(calls[0].key), calls[0].now;
    var next := Take(c, buckets, k, now).0;
    TakeLevel(c, buckets, k, now, key);
    if |calls| > 1 {
      var rest := calls[1..];
      LaterSound(c, next, now, rest[0].now);
      SpentFromLevel(c, next, rest, key);
      LevelRises(c, next, key, now, rest[0].now);
      EarnedSplits(c, now, rest[0].now, calls[|calls| - 1].now);
    } else {
      assert Reference(c, buckets, calls)[1..] == [];
      assert Admitted(calls[1..], [], key) == 0;
      EarnedSplits(c, now, now, now);
    }
  }

  lemma LaterSound(c: Config, buckets: map<string, Bucket>, now: real, later: real)
    requires Sound(c, buckets, now) && now <= later
    ensures Sound(c, buckets, later)
  {
  }

  lemma ReferenceSplit(c: Config, buckets: map<string, Bucket>, calls: seq<Call>, i: nat)
    returns (at: map<string, Bucket>)
    requires Admissible(c) && Ordered(calls) && i < |calls| && Sound(c, buckets, calls[0].now)
    ensures Sound(c, at, calls[i].now) && Reference(c, buckets, calls)[i..] == Reference(c, at, calls[i..])
    decreases i
  {
    if i == 0 {
      at := buckets;
      assert calls[0..] == calls;
    } else {
      TakeBounds(c, buckets, KeyOf(calls[0].key), calls[0].now);
      at := ReferenceSplit(c, Take(c, buckets, KeyOf(calls[0].key), calls[0].now).0, calls[1..], i - 1);
      assert calls[1..][i - 1..] == calls[i..];
    }
  }

  lemma ReferencePrefix(c: Config, buckets: map<string, Bucket>, calls: seq<Call>, j: nat)
    requires j <= |calls|
    ensures Reference(c, buckets, calls)[..j] == Reference(c, buckets, calls[..j])
    decreases j
  {
    if j > 0 {
      ReferencePrefix(c, Take(c, buckets, KeyOf(calls[0].key), calls[0].now).0, calls[1..], j - 1);
      assert calls[..j][1..] == calls[1..][..j - 1];
    }
  }

  /** In the window from call i to call j, `key` is admitted at most capacity + rate * length times. */
  predicate WindowBounded(c: Config, calls: seq<Call>, decisions: seq<bool>, i: nat, j: nat, key: string)
    requires |calls| == |decisions| && i <= j < |calls|
  {
    Admitted(calls[i..j + 1], decisions[i..j + 1], key) as real <= c.capacity + Earned(c, calls[i].now, calls[j].now)
  }

  ghost predicate RateBounded(c: Config, calls: seq<Call>, decisions: seq<bool>)
    requires |calls| == |decisions|
  {
    forall i: nat, j: nat, key | i <= j < |calls| :: WindowBounded(c, calls, decisions, i, j, key)
  }

  lemma ReferenceWindow(c: Config, calls: seq<Call>, i: nat, j: nat, key: string)
    requires Admissible(c) && Ordered(calls) && i <= j < |calls|
    ensures WindowBounded(c, calls, Reference(c, map[], calls), i, j, key)
  {
    hide Level, Take, Sound, Reference, Earned, Ordered;
    var d := Reference(c, map[], calls);
    EmptySound(c, calls[0].now);
    var at := ReferenceSplit(c, map[], calls, i);
    assert d[i..j + 1] == Reference(c, at, calls[i..j + 1]) by {
      ReferencePrefix(c, at, calls[i..], j + 1 - i);
      assert calls[i..][..j + 1 - i] == calls[i..j + 1] && d[i..][..j + 1 - i] == d[i..j + 1];
    }
    SubOrdered(calls, i, j);
    SpentFromLevel(c, at, calls[i..j + 1], key);
    LevelCapped(c, at, key, calls[i].now);
  }

  lemma SubOrdered(calls: seq<Call>, i: nat, j: nat)
    requires Ordered(calls) && i <= j < |calls|
    ensures Ordered(calls[i..j + 1])
  {
  }

  lemma EmptySound(c: Config, now: real)
    ensures Sound(c, map[], now)
  {
  }

  lemma LevelCapped(c: Config, buckets: map<string, Bucket>, key: string, now: real)
    ensures Level(c, buckets, key, now) <= c.capacity
  {
  }

  lemma ReferenceIsBounded(c: Config, calls: seq<Call>)
    requires Admissible(c) && Ordered(calls)
    ensures RateBounded(c, calls, Reference(c, map[], calls))
  {
    forall i: nat, j: nat, key | i <= j < |calls|
      ensures WindowBounded(c, calls, Reference(c, map[], calls), i, j, key)
    {
      ReferenceWindow(c, calls, i, j, key);
    }
  }

  // ---------- and nothing is refused without need ----------

  /** One more call of this key would stay within the bound in the window that starts with call i. */
  predicate RoomSince(c: Config, calls: seq<Call>, decisions: seq<bool>, i: nat, j: nat)
    requires |calls| == |decisions| && i <= j < |calls|
  {
    Admitted(calls[i..j], decisions[i..j], KeyOf(calls[j].key)) as real + 1.0
      <= c.capacity + c.rate * (calls[j].now - calls[i].now)
  }

  /** The j-th call is admitted exactly when every window that ends with it has room for it. */
  ghost predicate ExactlyAsRoomAllows(c: Config, calls: seq<Call>, decisions: seq<bool>)
    requires |calls| == |decisions|
  {
    forall j: nat | j < |calls| ::
      decisions[j] <==> forall i: nat | i <= j :: RoomSince(c, calls, decisions, i, j)
  }

  /** Between two calls the level rises by what is earned, up to the capacity. */
  lemma LevelLater(c: Config, buckets: map<string, Bucket>, key: string, now: real, later: real)
    requires c.rate >= 0.0 && now <= later
    ensures Level(c, buckets, key, later) == MinReal(c.capacity, Level(c, buckets, key, now) + Earned(c, now, later))
  {
    hide Earned;
    EarnedGrows(c, now, later);
    if key in buckets { EarnedSplits(c, buckets[key].lastRefill, now, later); }
  }

  lemma AdmittedFirst(calls: seq<Call>, decisions: seq<bool>, j: nat, key: string)
    requires |calls| == |decisions| && 0 < j <= |calls|
    ensures Admitted(calls[0..j], decisions[0..j], key)
              == (if decisions[0] && KeyOf(calls[0].key) == key then 1 else 0)
                 + Admitted(calls[1..j], decisions[1..j], key)
  {
    assert calls[0..j][1..] == calls[1..j] && decisions[0..j][1..] == decisions[1..j];
  }

  lemma AdmittedNone(calls: seq<Call>, decisions: seq<bool>, key: string)
    requires |calls| == |decisions|
    ensures Admitted(calls[0..0], decisions[0..0], key) == 0
  {
  }

  lemma SliceOfTail<T>(s: seq<T>, i: nat, j: nat)
    requires i < j <= |s|
    ensures s[1..][i..j - 1] == s[i + 1..j]
  {
  }

  /** The bucket before call j, by the window since the key's bucket was last full, or since the first call. */
  lemma LevelExplained(c: Config, buckets: map<string, Bucket>, calls: seq<Call>, j: nat, key: string)
    returns (i: nat, full: bool, at: map<string, Bucket>)
    requires Admissible(c) && Ordered(calls) && j < |calls| && Sound(c, buckets, calls[0].now)
    ensures i <= j && (full || i == 0)
    ensures Reference(c, buckets, calls)[j] == Take(c, at, KeyOf(calls[j].key), calls[j].now).1
    ensures Level(c, at, key, calls[j].now)
         == (if full then c.capacity else Level(c, buckets, key, calls[0].now))
            + Earned(c, calls[i].now, calls[j].now)
            - Admitted(calls[i..j], Reference(c, buckets, calls)[i..j], key) as real
    decreases j
  {
    hide Level, Take, Sound, Earned, Admitted;
    var d := Reference(c, buckets, calls);
    if j == 0 {
      i, full, at := 0, false, buckets;
      EarnedSplits(c, calls[0].now, calls[0].now, calls[0].now);
      AdmittedNone(calls, d, key);
    } else {
      var now, rest := calls[0].now, calls[1..];
      var next := Take(c, buckets, KeyOf(calls[0].key), now).0;
      TakeLevel(c, buckets, KeyOf(calls[0].key), now, key);
      LaterSound(c, next, now, rest[0].now);
      i, full, at := LevelExplained(c, next, rest, j - 1, key);
      SliceOfTail(calls, i, j);
      SliceOfTail(d, i, j);
      assert d[1..] == Reference(c, next, rest);
      LevelLater(c, next, key, now, rest[0].now);
      if full || Level(c, next, key, rest[0].now) == c.capacity {
        i, full := i + 1, true;
      } else {
        assert i == 0;
        AdmittedFirst(calls, d, j, key);
        EarnedSplits(c, now, rest[0].now, calls[j].now);
      }
    }
  }

  /** A call is refused only for lack of a whole token. */
  lemma TakeRefuses(c: Config, buckets: map<string, Bucket>, key: string, now: real)
    requires Admissible(c)
    ensures Take(c, buckets, key, now).1 <==> Level(c, buckets, key, now) >= 1.0
  {
    hide Refilled;
  }

  lemma EmptyIsFull(c: Config, key: string, now: real)
    ensures Level(c, map[], key, now) == c.capacity
  {
  }

  lemma AdmittedLast(calls: seq<Call>, decisions: seq<bool>, key: string)
    requires |calls| == |decisions| > 0
    ensures var n := |calls| - 1;
            Admitted(calls, decisions, key) == Admitted(calls[..n], decisions[..n], key)
              + if decisions[n] && KeyOf(calls[n].key) == key then 1 else 0
    decreases calls
  {
    var n := |calls| - 1;
    if n > 0 {
      AdmittedLast(calls[1..], decisions[1..], key);
      assert calls[..n][1..] == calls[1..][..n - 1] && decisions[..n][1..] == decisions[1..][..n - 1];
    }
  }

  lemma RefusedForLackOfRoom(c: Config, calls: seq<Call>, j: nat) returns (i: nat)
    requires Admissible(c) && Ordered(calls) && j < |calls| && !Reference(c, map[], calls)[j]
    ensures i <= j && !RoomSince(c, calls, Reference(c, map[], calls), i, j)
  {
    hide Level, Take, Sound;
    var full, at;
    EmptySound(c, calls[0].now);
    i, full, at := LevelExplained(c, map[], calls, j, KeyOf(calls[j].key));
    EmptyIsFull(c, KeyOf(calls[j].key), calls[0].now);
    TakeRefuses(c, at, KeyOf(calls[j].key), calls[j].now);
  }

  lemma WindowLast(calls: seq<Call>, decisions: seq<bool>, i: nat, j: nat)
    requires |calls| == |decisions| && i <= j < |calls| && decisions[j]
    ensures Admitted(calls[i..j + 1], decisions[i..j + 1], KeyOf(calls[j].key))
              == Admitted(calls[i..j], decisions[i..j], KeyOf(calls[j].key)) + 1
  {
    hide Admitted, KeyOf;
    var c, d, n := calls[i..j + 1], decisions[i..j + 1], j - i;
    AdmittedLast(c, d, KeyOf(calls[j].key));
    assert n == |c| - 1 && c[..n] == calls[i..j] && d[..n] == decisions[i..j];
    assert c[n] == calls[j] && d[n] == decisions[j];
  }

  lemma AdmittedInRoom(c: Config, calls: seq<Call>, i: nat, j: nat)
    requires Admissible(c) && Ordered(calls) && i <= j < |calls| && Reference(c, map[], calls)[j]
    ensures RoomSince(c, calls, Reference(c, map[], calls), i, j)
  {
    hide Reference, Ordered, Admitted, KeyOf;
    ReferenceWindow(c, calls, i, j, KeyOf(calls[j].key));
    WindowLast(calls, Reference(c, map[], calls), i, j);
    ScaleSwaps(c, calls[i].now, calls[j].now);
  }

  lemma ScaleSwaps(c: Config, from: real, to: real)
    ensures Earned(c, from, to) == c.rate * (to - from)
  {
  }

  /**
   Without eviction every decision is determined by the bound alone: a call is admitted if and only if, with it, no
   window that ends with it exceeds capacity + rate * T.
   */
  lemma ReferenceIsExact(c: Config, calls: seq<Call>)
    requires Admissible(c) && Ordered(calls)
    ensures ExactlyAsRoomAllows(c, calls, Reference(c, map[], calls))
  {
    hide Reference, RoomSince, Ordered;
    var d := Reference(c, map[], calls);
    forall j: nat | j < |calls| ensures d[j] <==> forall i: nat | i <= j :: RoomSince(c, calls, d, i, j) {
      if d[j] {
        forall i: nat | i <= j ensures RoomSince(c, calls, d, i, j) { AdmittedInRoom(c, calls, i, j); }
      } else {
        var i := RefusedForLackOfRoom(c, calls, j);
      }
    }
  }

  /** Only the missing key and "anonymous" share a bucket. */
  lemma KeysApart(a: string, b: string)
    ensures KeyOf(a) == KeyOf(b) <==> a == b || (a in {"", "anonymous"} && b in {"", "anonymous"})
  {
  }

  // ---------- when the condition fails ----------

  function Burst(key: string, now: real, n: nat): seq<Call>
  {
    seq(n, i => Call(key, now))
  }

  /** The bucket of `key` in its shard was last touched at `now`, after a sweep too recent to repeat. */
  predicate Hot(hash: Hash, shards: seq<Shard>, key: string, now: real, swept: real, tokens: real)
    requires |shards| > 0
  {
    var s := shards[hash(key) % |shards|];
    s.lastSweep == swept && now - swept < SWEEP_EVERY && key in s.buckets && s.buckets[key] == Bucket(tokens, now, now)
  }

  lemma HotAllow(c: Config, hash: Hash, shards: seq<Shard>, key: string, now: real, swept: real, tokens: real)
    requires |shards| > 0 && key != "" && Hot(hash, shards, key, now, swept, tokens) && 1.0 <= tokens <= c.capacity
    ensures var (next, ok) := Allow(c, hash, shards, Call(key, now));
            ok && |next| == |shards| && Hot(hash, next, key, now, swept, tokens - 1.0)
  {
    hide Refilled;
    RefillNow(c, Bucket(tokens, now, now));
  }

  function Trues(n: nat): seq<bool>
  {
    seq(n, i => true)
  }

  /** A bucket with enough tokens admits a whole burst. */
  lemma {:induction false} BurstAdmitted(c: Config, hash: Hash, shards: seq<Shard>, key: string, now: real, swept: real,
      tokens: real, n: nat, rest: seq<Call>)
    returns (after: seq<Shard>)
    requires |shards| > 0 && key != "" && Hot(hash, shards, key, now, swept, tokens)
               && n as real <= tokens <= c.capacity
    ensures |after| == |shards| && Hot(hash, after, key, now, swept, tokens - n as real)
    ensures Decisions(c, hash, shards, Burst(key, now, n) + rest) == Trues(n) + Decisions(c, hash, after, rest)
    decreases n
  {
    hide Allow, Hot;
    var calls := Burst(key, now, n) + rest;
    if n == 0 {
      after := shards;
      assert calls == rest;
    } else {
      HotAllow(c, hash, shards, key, now, swept, tokens);
      assert calls[1..] == Burst(key, now, n - 1) + rest;
      after := BurstAdmitted(c, hash, Allow(c, hash, shards, calls[0]).0, key, now, swept, tokens - 1.0, n - 1, rest);
      assert Trues(n) == [true] + Trues(n - 1);
    }
  }

  /** The shard holds no bucket for `key`, or only one that the sweep of this call deletes. */
  predicate Cold(hash: Hash, shards: seq<Shard>, key: string, now: real)
    requires |shards| > 0
  {
    var s := shards[hash(key) % |shards|];
    key in s.buckets ==> now - s.lastSweep >= SWEEP_EVERY && Idle(s.buckets[key], now)
  }

  function SweptAt(hash: Hash, shards: seq<Shard>, key: string, now: real): real
    requires |shards| > 0
  {
    Sweep(shards[hash(key) % |shards|], now).lastSweep
  }

  lemma ColdAllow(c: Config, hash: Hash, shards: seq<Shard>, key: string, now: real)
    requires |shards| > 0 && key != "" && Cold(hash, shards, key, now)
    ensures var (next, ok) := Allow(c, hash, shards, Call(key, now));
            ok && |next| == |shards| && Hot(hash, next, key, now, SweptAt(hash, shards, key, now), c.capacity - 1.0)
  {
  }

  /** A burst that finds no bucket is admitted up to the capacity. */
  lemma FreshBurst(c: Config, hash: Hash, shards: seq<Shard>, key: string, now: real, n: nat, rest: seq<Call>)
    returns (after: seq<Shard>)
    requires |shards| > 0 && key != "" && n >= 1 && c.capacity == n as real && Cold(hash, shards, key, now)
    ensures |after| == |shards| && Hot(hash, after, key, now, SweptAt(hash, shards, key, now), 0.0)
    ensures Decisions(c, hash, shards, Burst(key, now, n) + rest) == Trues(n) + Decisions(c, hash, after, rest)
  {
    hide Allow, Hot, Cold, SweptAt;
    var calls := Burst(key, now, n) + rest;
    ColdAllow(c, hash, shards, key, now);
    assert calls[1..] == Burst(key, now, n - 1) + rest;
    after := BurstAdmitted(c, hash, Allow(c, hash, shards, calls[0]).0, key, now, SweptAt(hash, shards, key, now),
      c.capacity - 1.0, n - 1, rest);
    assert Trues(n) == [true] + Trues(n - 1);
  }

  lemma AllAdmitted(calls: seq<Call>, decisions: seq<bool>, key: string)
    requires |calls| == |decisions|
    requires forall i | 0 <= i < |calls| :: decisions[i] && KeyOf(calls[i].key) == key
    ensures Admitted(calls, decisions, key) == |calls|
    decreases calls
  {
  }

  /**
   Drain the bucket, wait just past the idle limit, drain it again. The sweep hands out a full bucket that the refill
   had not earned.
   */
  lemma DrainedTwice(c: Config, hash: Hash, n: nat, start: real) returns (calls: seq<Call>)
    requires n >= 1 && c.capacity == n as real && c.rate >= 0.0 && !RefillsBeforeEviction(c) && start >= 0.0
    ensures |calls| > 0 && calls[0].now == start && Ordered(calls)
    ensures !RateBounded(c, calls, Decisions(c, hash, NewShards(), calls))
    ensures !EvictionInvisible(c, hash, calls)
  {
    hide RateBounded, Allow, Reference, Decisions;
    var wait := WaitPast(c);
    var key := "k";
    var again := start + wait;
    calls := Burst(key, start, n) + Burst(key, again, n);
    var shards := NewShards();
    var mid := FreshBurst(c, hash, shards, key, start, n, Burst(key, again, n));
    assert Burst(key, again, n) + [] == Burst(key, again, n);
    var end := FreshBurst(c, hash, mid, key, again, n, []);
    var d := Decisions(c, hash, shards, calls);
    assert d == Trues(n) + Trues(n) + [];
    WindowOverflows(c, calls, d, key, start, wait);
    ReferenceIsBounded(c, calls);
  }

  /** From any instant on, some trace exceeds the bound and shows the eviction. */
  lemma OverAdmission(c: Config, hash: Hash, n: nat, start: real)
    requires n >= 1 && c.capacity == n as real && c.rate >= 0.0 && !RefillsBeforeEviction(c) && start >= 0.0
    ensures exists calls: seq<Call> | |calls| > 0 && calls[0].now == start && Ordered(calls) ::
              && !RateBounded(c, calls, Decisions(c, hash, NewShards(), calls))
              && !EvictionInvisible(c, hash, calls)
  {
    hide RateBounded, EvictionInvisible, Decisions, RefillsBeforeEviction;
    var calls := DrainedTwice(c, hash, n, start);
  }

  lemma WindowOverflows(c: Config, calls: seq<Call>, d: seq<bool>, key: string, start: real, wait: real)
    requires |calls| == |d| >= 1 && c.capacity * 2.0 == |calls| as real
    requires forall i | 0 <= i < |calls| :: d[i] && KeyOf(calls[i].key) == key
    requires calls[0].now == start && calls[|calls| - 1].now == start + wait && wait * c.rate < c.capacity
    ensures !RateBounded(c, calls, d)
  {
    hide Earned, Admitted, KeyOf;
    AllAdmitted(calls, d, key);
    EarnsTooLittle(c, start, wait);
    assert calls[0..|calls| - 1 + 1] == calls && d[0..|calls| - 1 + 1] == d;
    assert !WindowBounded(c, calls, d, 0, |calls| - 1, key);
  }

  lemma EarnsTooLittle(c: Config, start: real, wait: real)
    requires wait * c.rate < c.capacity
    ensures Earned(c, start, start + wait) < c.capacity
  {
    assert start + wait - start == wait;
  }

  lemma WaitPast(c: Config) returns (wait: real)
    requires c.rate >= 0.0 && c.capacity >= 1.0 && !RefillsBeforeEviction(c)
    ensures wait > BUCKET_TTL && wait * c.rate < c.capacity
  {
    var spare := c.capacity - c.rate * BUCKET_TTL;
    var step := spare / (2.0 * (c.rate + 1.0));
    wait := BUCKET_TTL + step;
    assert step > 0.0 && step * (2.0 * (c.rate + 1.0)) == spare;
    assert step * (2.0 * (c.rate + 1.0)) == 2.0 * (step * c.rate) + 2.0 * step;
    ScaleMonotone(0.0, step, c.rate);
    assert (BUCKET_TTL + step) * c.rate == BUCKET_TTL * c.rate + step * c.rate;
  }

  /** Eviction is invisible on every trace exactly when an idle bucket refills before it may be evicted. */
  lemma InvisibleIffRefilled(c: Config, hash: Hash, n: nat)
    requires n >= 1 && c.capacity == n as real && c.rate >= 0.0
    ensures RefillsBeforeEviction(c) <==> forall calls | Ordered(calls) :: EvictionInvisible(c, hash, calls)
  {
    if RefillsBeforeEviction(c) {
      forall calls | Ordered(calls) ensures EvictionInvisible(c, hash, calls) { InvisibleWhenRefilled(c, hash, calls); }
    } else {
      OverAdmission(c, hash, n, 1.0);
    }
  }

  /**
   Under the same condition, and only then, every key stays within capacity + rate * T in every window of every trace.
   */
  lemma BoundedIffRefilled(c: Config, hash: Hash, n: nat)
    requires n >= 1 && c.capacity == n as real && c.rate >= 0.0
    ensures RefillsBeforeEviction(c) <==>
            forall calls | Ordered(calls) :: RateBounded(c, calls, Decisions(c, hash, NewShards(), calls))
  {
    if RefillsBeforeEviction(c) {
      forall calls | Ordered(calls) ensures RateBounded(c, calls, Decisions(c, hash, NewShards(), calls)) {
        InvisibleWhenRefilled(c, hash, calls);
        ReferenceIsBounded(c, calls);
      }
    } else {
      OverAdmission(c, hash, n, 1.0);
    }
  }

  /** If idle buckets refill in time, the sweeping limiter's decisions are determined by the bound alone. */
  lemma DecisionsAreExact(c: Config, hash: Hash, calls: seq<Call>)
    requires Admissible(c) && RefillsBeforeEviction(c) && Ordered(calls)
    ensures ExactlyAsRoomAllows(c, calls, Decisions(c, hash, NewShards(), calls))
  {
    hide ExactlyAsRoomAllows, Decisions, Reference;
    InvisibleWhenRefilled(c, hash, calls);
    ReferenceIsExact(c, calls);
  }

  /** The two limiters the gateway configures, 20/s up to 40 and 5/s up to 10, are on the safe side. */
  lemma GatewayLimiters(hash: Hash, calls: seq<Call>)
    requires Ordered(calls)
    ensures forall c | c in {Config(20.0, 40.0), Config(5.0, 10.0)} ::
      && EvictionInvisible(c, hash, calls) && RateBounded(c, calls, Decisions(c, hash, NewShards(), calls))
      && ExactlyAsRoomAllows(c, calls, Decisions(c, hash, NewShards(), calls))
  {
    forall c | c in {Config(20.0, 40.0), Config(5.0, 10.0)}
      ensures EvictionInvisible(c, hash, calls) && RateBounded(c, calls, Decisions(c, hash, NewShards(), calls))
      ensures ExactlyAsRoomAllows(c, calls, Decisions(c, hash, NewShards(), calls))
    {
      hide ExactlyAsRoomAllows, RateBounded, Decisions, Reference;
      InvisibleWhenRefilled(c, hash, calls);
      ReferenceIsBounded(c, calls);
      DecisionsAreExact(c, hash, calls);
    }
  }
}
