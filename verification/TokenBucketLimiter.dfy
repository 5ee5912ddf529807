/** The limiter object: the shards it updates in place, proved to decide as module RateLimit says. */
module TokenBucketLimiters {
  import opened RateLimit

  class TokenBucketLimiter {
    const config: Config
    const hash: Hash
    var shards: seq<Shard>

    constructor (rate: real, capacity: int, hash: Hash)
      ensures config == Config(rate, capacity as real) && this.hash == hash && shards == NewShards()
    {
      config := Config(rate, capacity as real);
      this.hash := hash;
      shards := NewShards();
    }

    /** Delete the idle buckets of one shard, at most once a minute; the map is walked in any order. */
    method SweepLocked(i: nat, now: real)
      requires i < |shards|
      modifies this
      ensures shards == old(shards)[i := Sweep(old(shards)[i], now)]
      ensures forall k | k in old(shards)[i].buckets ::
                if now - old(shards)[i].lastSweep >= 60.0 && now - old(shards)[i].buckets[k].lastSeen > 600.0
                then k !in shards[i].buckets
                else k in shards[i].buckets && shards[i].buckets[k] == old(shards)[i].buckets[k]
    {
      var shard := shards[i];
      if now - shard.lastSweep < SWEEP_EVERY {
        assert shards == shards[i := shard];
        return;
      }
      var buckets := shard.buckets;
      var keys := buckets.Keys;
      while keys != {}
        invariant keys <= shard.buckets.Keys
        invariant buckets == map k | k in shard.buckets && (k in keys || !Idle(shard.buckets[k], now)) ::
                    shard.buckets[k]
        decreases keys
      {
        var key :| key in keys;
        if Idle(buckets[key], now) {
          buckets := buckets - {key};
        }
        keys := keys - {key};
      }
      assert Shard(buckets, now) == Sweep(shard, now);
      shards := shards[i := Shard(buckets, now)];
    }

    method Allow(key: string, now: real) returns (ok: bool)
      requires |shards| > 0
      modifies this
      ensures (shards, ok) == RateLimit.Allow(config, hash, old(shards), Call(key, now))
    {
      var k := key;
      if k == "" {
        k := "anonymous";
      }
      var i := hash(k) % |shards|;
      SweepLocked(i, now);
      var buckets := shards[i].buckets;
      if k !in buckets {
        shards := shards[i := Shard(buckets[k := Bucket(config.capacity - 1.0, now, now)], shards[i].lastSweep)];
        assert shards == old(shards)[i := shards[i]];
        return true;
      }
      var bucket := buckets[k];
      var tokens := MinReal(config.capacity, Refilled(config, bucket, now));
      ok := tokens >= 1.0;
      if ok {
        tokens := tokens - 1.0;
      }
      shards := shards[i := Shard(buckets[k := Bucket(tokens, now, now)], shards[i].lastSweep)];
      assert shards == old(shards)[i := shards[i]];
    }
  }
}
