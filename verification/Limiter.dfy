/** The token-bucket rate limiter (src/resilience/limiter.ts) over exact rationals. */
module Limiter {
  import opened Common

  /** `rpm <= 0` disables limiting. Times are milliseconds. */
  datatype Config = Config(rpm: int, burst: real)

  const DEFAULT_MAX_IDLE_MS := 600_000

  /** The burst the limiter chooses when none is given: `max(5, floor(rpm / 4))`. */
  function DefaultBurst(rpm: int): real {
    if rpm / 4 > 5 then (rpm / 4) as real else 5.0
  }

  datatype Bucket = Bucket(tokens: real, updatedAt: int)

  function RefillPerMs(cfg: Config): real {
    cfg.rpm as real / 60_000.0
  }

  function Min(a: real, b: real): real {
    if a <= b then a else b
  }

  function Ceil(x: real): int {
    -((-x).Floor)
  }

  /** Tokens in the bucket once it has been refilled at `now`; a missing bucket is full. */
  function Level(cfg: Config, b: Option<Bucket>, now: int): real {
    if b.None? then cfg.burst
    else Min(cfg.burst, b.value.tokens + (now - b.value.updatedAt) as real * RefillPerMs(cfg))
  }

  predicate Admits(cfg: Config, b: Option<Bucket>, now: int) {
    cfg.rpm <= 0 || Level(cfg, b, now) >= 1.0
  }

  function AfterTake(cfg: Config, b: Option<Bucket>, now: int): Option<Bucket> {
    if cfg.rpm <= 0 then b
    else
      var level := Level(cfg, b, now);
      Some(Bucket(if level >= 1.0 then level - 1.0 else level, now))
  }

  /** Seconds to wait, None when admitted. */
  function Answer(cfg: Config, b: Option<Bucket>, now: int): Option<int> {
    if Admits(cfg, b, now) then None
    else Some(Ceil((1.0 - Level(cfg, b, now)) / RefillPerMs(cfg) / 1000.0))
  }

  function AfterPrune(b: Option<Bucket>, maxIdleMs: int, now: int): Option<Bucket> {
    if b.Some? && now - b.value.updatedAt > maxIdleMs then None else b
  }

  class RateLimiter {
    var buckets: map<string, Bucket>
    const cfg: Config

    constructor (cfg: Config)
      ensures this.cfg == cfg && forall k :: BucketOf(k) == None
    {
      this.cfg := cfg;
      buckets := map[];
    }

    function BucketOf(key: string): Option<Bucket>
      reads this
    {
      if key in buckets then Some(buckets[key]) else None
    }

    method Take(key: string, now: int) returns (wait: Option<int>)
      modifies this
      ensures wait == Answer(cfg, old(BucketOf(key)), now)
      ensures BucketOf(key) == AfterTake(cfg, old(BucketOf(key)), now)
      ensures forall k :: k != key ==> BucketOf(k) == old(BucketOf(k))
    {
      if cfg.rpm <= 0 { return None; }
      var b := if key in buckets then buckets[key] else Bucket(cfg.burst, now);
      var tokens := Min(cfg.burst, b.tokens + (now - b.updatedAt) as real * RefillPerMs(cfg));
      assert tokens == Level(cfg, BucketOf(key), now) by {
        assert 0.0 * RefillPerMs(cfg) == 0.0;
      }
      if tokens >= 1.0 {
        buckets := buckets[key := Bucket(tokens - 1.0, now)];
        return None;
      }
      buckets := buckets[key := Bucket(tokens, now)];
      return Some(Ceil((1.0 - tokens) / RefillPerMs(cfg) / 1000.0));
    }

    method Prune(maxIdleMs: int, now: int)
      modifies this
      ensures forall k :: BucketOf(k) == AfterPrune(old(BucketOf(k)), maxIdleMs, now)
    {
      var todo := buckets.Keys;
      while todo != {}
        invariant todo <= old(buckets).Keys
        invariant forall k :: k in todo ==> BucketOf(k) == old(BucketOf(k))
        invariant forall k :: k !in todo ==> BucketOf(k) == AfterPrune(old(BucketOf(k)), maxIdleMs, now)
        decreases todo
      {
        var k :| k in todo;
        todo := todo - {k};
        if now - buckets[k].updatedAt > maxIdleMs {
          buckets := buckets - {k};
        }
      }
    }
  }
}
