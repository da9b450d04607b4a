/** The per-IP token bucket of the ingest endpoint, with lazy pruning
    (internal/server/ratelimit.go). Time is in seconds; tokens are real numbers. */
module RateLimiter {
  import opened Options

  /** What a bucket holds. */
  datatype Level = Level(tokens: real, updated: real, lastSeen: real)

  datatype Config = Config(rate: real, burst: real, pruneAfter: real)

  const PRUNE_FROM := 64

  /** The limiter of POST /v1/sessions: 10 events a second, burst of 60, pruned after 10 minutes. */
  const INGEST := Config(10.0, 60.0, 600.0)

  /** An idle bucket has refilled by the time it may be pruned. */
  predicate Sensible(c: Config) {
    c.rate >= 0.0 && c.burst >= 0.0 && c.pruneAfter >= 0.0 && c.rate * c.pruneAfter >= c.burst
  }

  lemma IngestIsSensible()
    ensures INGEST == Config(10.0, 60.0, 600.0) && 10.0 * 600.0 >= 60.0
    ensures Sensible(INGEST)
  {
  }

  function Min(a: real, b: real): real {
    if a <= b then a else b
  }

  /** The tokens a request at `now` finds. */
  function Available(c: Config, prior: Option<Level>, now: real): real {
    match prior
    case None => c.burst
    case Some(b) => Min(c.burst, b.tokens + (now - b.updated) * c.rate)
  }

  /** One request against one bucket. */
  function Hit(c: Config, prior: Option<Level>, now: real): (Level, bool) {
    var t := Available(c, prior, now);
    if t >= 1.0 then (Level(t - 1.0, now, now), true) else (Level(t, now, now), false)
  }

  function Lookup(m: map<string, Level>, key: string): Option<Level> {
    if key in m then Some(m[key]) else None
  }

  predicate Idle(c: Config, b: Level, now: real) {
    now - b.lastSeen > c.pruneAfter
  }

  function Pruned(c: Config, m: map<string, Level>, now: real): map<string, Level> {
    if |m| < PRUNE_FROM then m else map k | k in m && !Idle(c, m[k], now) :: m[k]
  }

  /** One request against the table of buckets. */
  function Served(c: Config, m: map<string, Level>, key: string, now: real): (map<string, Level>, bool) {
    var (b, ok) := Hit(c, Lookup(m, key), now);
    (Pruned(c, m[key := b], now), ok)
  }

  /** One request, read off the table: it is granted exactly if a full bucket holds a token and
      the refilled one does; it then takes one, and its bucket is as old as the request. From 64
      buckets on, those idle for longer than `pruneAfter` go; the others stay. */
  lemma ServedExactly(c: Config, m: map<string, Level>, key: string, now: real, refilled: real)
    requires c.pruneAfter >= 0.0
    requires refilled == if key in m then m[key].tokens + (now - m[key].updated) * c.rate else c.burst
    ensures var (m', ok) := Served(c, m, key, now);
            var left := if refilled <= c.burst then refilled else c.burst;
            && (ok <==> c.burst >= 1.0 && refilled >= 1.0)
            && key in m' && m'[key] == Level(if ok then left - 1.0 else left, now, now)
            && forall k :: k != key ==>
                 && (k in m' <==> k in m && (|m.Keys + {key}| < 64 || now - m[k].lastSeen <= c.pruneAfter))
                 && (k in m' ==> m'[k] == m[k])
  {
    var b, ok := Hit(c, Lookup(m, key), now).0, Hit(c, Lookup(m, key), now).1;
    var left := if refilled <= c.burst then refilled else c.burst;
    assert Available(c, Lookup(m, key), now) == left;
    assert b == Level(if ok then left - 1.0 else left, now, now) && (ok <==> left >= 1.0);
    assert Served(c, m, key, now) == (Pruned(c, m[key := b], now), ok);
    assert m[key := b].Keys == m.Keys + {key} && |m[key := b]| == |m[key := b].Keys|;
  }

  class Bucket {
    var tokens: real
    var updated: real
    var lastSeen: real

    constructor (tokens: real, updated: real)
      ensures this.tokens == tokens && this.updated == updated
    {
      this.tokens, this.updated, this.lastSeen := tokens, updated, updated;
    }

    function View(): Level
      reads this
    {
      Level(tokens, updated, lastSeen)
    }
  }

  class Limiter {
    const rate: real
    const burst: real
    const pruneAfter: real
    var buckets: map<string, Bucket>

    constructor (ratePerSec: real, burst: real)
      ensures Valid() && Contents() == map[] && buckets == map[]
      ensures Settings() == Config(ratePerSec, burst, 600.0)
    {
      this.rate, this.burst, this.pruneAfter, this.buckets := ratePerSec, burst, 600.0, map[];
    }

    function Settings(): Config {
      Config(rate, burst, pruneAfter)
    }

    /** No two keys share a bucket. */
    ghost predicate Valid()
      reads this
    {
      forall j, k :: j in buckets && k in buckets && j != k ==> buckets[j] != buckets[k]
    }

    ghost function Contents(): map<string, Level>
      reads this, buckets.Values
    {
      map k | k in buckets :: buckets[k].View()
    }

    method Allow(key: string, now: real) returns (ok: bool)
      requires Valid()
      modifies this, buckets.Values
      ensures Valid() && fresh(buckets.Values - old(buckets.Values))
      ensures (Contents(), ok) == Served(Settings(), old(Contents()), key, now)
    {
      ghost var before := Contents();
      var b := BucketFor(key, now);
      ok := Spend(key, b, now);
      assert Contents() == before[key := Hit(Settings(), Lookup(before, key), now).0];
      MaybePrune(now);  // both returns of the source prune first
    }

    /** The second half: one token, if there is one. */
    method Spend(key: string, b: Bucket, now: real) returns (ok: bool)
      requires Valid() && key in buckets && buckets[key] == b && b.updated == now
      modifies b
      ensures Valid() && ok == (old(b.tokens) >= 1.0)
      ensures Contents() == old(Contents())[key := Level(if ok then old(b.tokens) - 1.0 else old(b.tokens), now, now)]
    {
      b.lastSeen := now;
      if b.tokens >= 1.0 {
        b.tokens := b.tokens - 1.0;
        return true;
      }
      return false;
    }

    /** The first half of `Allow`: a new full bucket, or the old one refilled up to `now`. */
    method BucketFor(key: string, now: real) returns (b: Bucket)
      requires Valid()
      modifies this, buckets.Values
      ensures Valid() && fresh(buckets.Values - old(buckets.Values))
      ensures key in buckets && buckets[key] == b
      ensures b.tokens == Available(Settings(), Lookup(old(Contents()), key), now) && b.updated == now
      ensures Contents() == old(Contents())[key := b.View()]
    {
      if key !in buckets {
        b := new Bucket(burst, now);
        buckets := buckets[key := b];
      } else {
        b := buckets[key];
        var elapsed := now - b.updated;
        b.tokens := b.tokens + elapsed * rate;
        if b.tokens > burst {
          b.tokens := burst;
        }
        b.updated := now;
      }
    }

    method MaybePrune(now: real)
      requires Valid()
      modifies this`buckets
      ensures Valid() && buckets.Values <= old(buckets.Values)
      ensures Contents() == Pruned(Settings(), old(Contents()), now)
    {
      assert |Contents()| == |buckets| by {
        assert Contents().Keys == buckets.Keys;
      }
      if |buckets| < PRUNE_FROM {
        return;
      }
      ghost var before := buckets;
      var left := buckets.Keys;
      while left != {}
        invariant left <= before.Keys
        invariant forall k :: k in buckets <==>
                                k in before && (k in left || !Idle(Settings(), before[k].View(), now))
        invariant forall k :: k in buckets ==> buckets[k] == before[k]
        decreases left
      {
        var k :| k in left;
        left := left - {k};
        if now - buckets[k].lastSeen > pruneAfter {
          buckets := buckets - {k};
        }
      }
    }
  }
}
