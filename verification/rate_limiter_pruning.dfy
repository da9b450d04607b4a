/** Exactly when pruning is invisible: whenever an idle bucket has refilled by the time it may be
    dropped, or no bucket ever holds a token (internal/server/ratelimit.go). */
module RateLimiterPruning {
  import opened Options
  import opened RateLimiter
  import opened RateLimiterTheorems
  import opened Sets
  import opened Text

  /** Every key is answered as by its own never-pruned bucket, on every trace. */
  ghost predicate Invisible(c: Config) {
    forall trace, key :: InOrder(trace) ==>
                           OwnDecisions(trace, Serve(c, map[], trace), key) == Alone(c, None, Own(trace, key))
  }

  // --- Traces in pieces ---

  function TableAfter(c: Config, m: map<string, Level>, trace: seq<Request>): map<string, Level>
    decreases |trace|
  {
    if trace == [] then m else TableAfter(c, Served(c, m, trace[0].key, trace[0].at).0, trace[1..])
  }

  function LevelAfter(c: Config, prior: Option<Level>, times: seq<real>): Option<Level>
    decreases |times|
  {
    if times == [] then prior else LevelAfter(c, Some(Hit(c, prior, times[0]).0), times[1..])
  }

  lemma {:induction false} ServeConcat(c: Config, m: map<string, Level>, xs: seq<Request>, ys: seq<Request>)
    ensures Serve(c, m, xs + ys) == Serve(c, m, xs) + Serve(c, TableAfter(c, m, xs), ys)
    ensures TableAfter(c, m, xs + ys) == TableAfter(c, TableAfter(c, m, xs), ys)
    decreases |xs|
  {
    if xs == [] {
      assert xs + ys == ys;
    } else {
      assert (xs + ys)[1..] == xs[1..] + ys;
      ServeConcat(c, Served(c, m, xs[0].key, xs[0].at).0, xs[1..], ys);
    }
  }

  lemma {:induction false} AloneConcat(c: Config, prior: Option<Level>, xs: seq<real>, ys: seq<real>)
    ensures Alone(c, prior, xs + ys) == Alone(c, prior, xs) + Alone(c, LevelAfter(c, prior, xs), ys)
    ensures LevelAfter(c, prior, xs + ys) == LevelAfter(c, LevelAfter(c, prior, xs), ys)
    decreases |xs|
  {
    if xs == [] {
      assert xs + ys == ys;
    } else {
      assert (xs + ys)[1..] == xs[1..] + ys;
      AloneConcat(c, Some(Hit(c, prior, xs[0]).0), xs[1..], ys);
    }
  }

  lemma {:induction false} OwnConcat(xs: seq<Request>, ys: seq<Request>, key: string)
    ensures Own(xs + ys, key) == Own(xs, key) + Own(ys, key)
    decreases |xs|
  {
    if xs == [] {
      assert xs + ys == ys;
    } else {
      assert (xs + ys)[1..] == xs[1..] + ys;
      OwnConcat(xs[1..], ys, key);
      var first := if xs[0].key == key then [xs[0].at] else [];
      assert first + (Own(xs[1..], key) + Own(ys, key)) == first + Own(xs[1..], key) + Own(ys, key);
    }
  }

  lemma {:induction false} OwnDecisionsConcat(xs: seq<Request>, ys: seq<Request>, ds: seq<bool>, es: seq<bool>,
                                              key: string)
    requires |ds| == |xs| && |es| == |ys|
    ensures OwnDecisions(xs + ys, ds + es, key) == OwnDecisions(xs, ds, key) + OwnDecisions(ys, es, key)
    decreases |xs|
  {
    if xs == [] {
      assert xs + ys == ys && ds + es == es;
    } else {
      assert (xs + ys)[1..] == xs[1..] + ys && (ds + es)[1..] == ds[1..] + es;
      OwnDecisionsConcat(xs[1..], ys, ds[1..], es, key);
      var first := if xs[0].key == key then [ds[0]] else [];
      var a, b := OwnDecisions(xs[1..], ds[1..], key), OwnDecisions(ys, es, key);
      assert first + (a + b) == first + a + b;
    }
  }

  /** Requests of one key. */
  function On(key: string, times: seq<real>): (r: seq<Request>)
    ensures |r| == |times| && forall i :: 0 <= i < |r| ==> r[i] == Request(key, times[i])
  {
    seq(|times|, i requires 0 <= i < |times| => Request(key, times[i]))
  }

  lemma {:induction false} OwnOn(key: string, times: seq<real>, ds: seq<bool>)
    requires |ds| == |times|
    ensures Own(On(key, times), key) == times && OwnDecisions(On(key, times), ds, key) == ds
    decreases |times|
  {
    if times != [] {
      assert On(key, times)[1..] == On(key, times[1..]);
      OwnOn(key, times[1..], ds[1..]);
    }
  }

  lemma {:induction false} OwnOfOthers(trace: seq<Request>, ds: seq<bool>, key: string)
    requires |ds| == |trace| && forall i :: 0 <= i < |trace| ==> trace[i].key != key
    ensures Own(trace, key) == [] && OwnDecisions(trace, ds, key) == []
    decreases |trace|
  {
    if trace != [] {
      OwnOfOthers(trace[1..], ds[1..], key);
    }
  }

  /** A key's own requests never find its bucket pruned: it has just been seen. */
  lemma {:induction false} OneKeyAlone(c: Config, m: map<string, Level>, key: string, times: seq<real>)
    requires c.pruneAfter >= 0.0
    ensures Serve(c, m, On(key, times)) == Alone(c, Lookup(m, key), times)
    ensures Lookup(TableAfter(c, m, On(key, times)), key) == LevelAfter(c, Lookup(m, key), times)
    decreases |times|
  {
    if times != [] {
      var b := Hit(c, Lookup(m, key), times[0]).0;
      var m' := Served(c, m, key, times[0]).0;
      assert !Idle(c, b, times[0]);
      assert key in m' && m'[key] == b;
      assert On(key, times)[1..] == On(key, times[1..]);
      OneKeyAlone(c, m', key, times[1..]);
    }
  }

  // --- Enough other keys to have the bucket pruned ---

  const CROWD := PRUNE_FROM - 1

  /** One request each of `n` other keys, at one instant. */
  function Others(n: nat, t: real): (r: seq<Request>)
    ensures |r| == n && forall i :: 0 <= i < n ==> r[i] == Request(Decimal(i), t)
  {
    seq(n, i requires 0 <= i < n => Request(Decimal(i), t))
  }

  function OtherKeys(n: nat): set<string> {
    if n == 0 then {} else OtherKeys(n - 1) + {Decimal(n - 1)}
  }

  lemma {:induction false} NotYet(n: nat, k: nat)
    requires n <= k
    ensures Decimal(k) !in OtherKeys(n) && "" !in OtherKeys(n)
  {
    if n > 0 {
      NotYet(n - 1, k);
      if Decimal(n - 1) == Decimal(k) {
        DecimalInjective(n - 1, k);
      }
    }
  }

  lemma {:induction false} OtherKeysCount(n: nat)
    ensures |OtherKeys(n)| == n
  {
    if n > 0 {
      OtherKeysCount(n - 1);
      NotYet(n - 1, n - 1);
    }
  }

  /** A table that holds the bucket and those of `n` others. */
  predicate Crowded(m: map<string, Level>, n: nat) {
    "" in m && forall i :: 0 <= i < n ==> Decimal(i) in m
  }

  lemma {:induction false} CrowdedKeys(m: map<string, Level>, n: nat)
    requires Crowded(m, n)
    ensures OtherKeys(n) <= m.Keys
  {
    if n > 0 {
      CrowdedKeys(m, n - 1);
    }
  }

  lemma CrowdedSize(m: map<string, Level>, n: nat)
    requires Crowded(m, n)
    ensures |m| > n
  {
    OtherKeysCount(n);
    NotYet(n, n);
    CrowdedKeys(m, n);
    SubsetSize(OtherKeys(n) + {""}, m.Keys);
    assert |OtherKeys(n) + {""}| == n + 1;
    assert |m| == |m.Keys|;
  }

  /** One more key asks. */
  lemma CrowdGrows(c: Config, m: map<string, Level>, b: Level, n: nat, t: real)
    requires c.pruneAfter >= 0.0 && Crowded(m, n) && m[""] == b && Idle(c, b, t)
    requires forall i :: 0 <= i < n ==> !Idle(c, m[Decimal(i)], t)
    ensures var m' := Served(c, m, Decimal(n), t).0;
            if "" in m'
            then Crowded(m', n + 1) && m'[""] == b && (forall i :: 0 <= i <= n ==> !Idle(c, m'[Decimal(i)], t))
                 && n + 1 < CROWD
            else true
  {
    var latest := Hit(c, Lookup(m, Decimal(n)), t).0;
    var full := m[Decimal(n) := latest];
    assert Crowded(full, n + 1);
    CrowdedSize(full, n + 1);
    assert !Idle(c, latest, t);
  }

  lemma {:induction false} CrowdPrunes(c: Config, m: map<string, Level>, b: Level, t: real, n: nat)
    requires c.pruneAfter >= 0.0 && "" in m && m[""] == b && Idle(c, b, t)
    ensures var m' := TableAfter(c, m, Others(n, t));
            "" in m' ==> Crowded(m', n) && m'[""] == b && (forall i :: 0 <= i < n ==> !Idle(c, m'[Decimal(i)], t))
                         && (n == 0 || n < CROWD)
  {
    if n > 0 {
      CrowdPrunes(c, m, b, t, n - 1);
      var before := TableAfter(c, m, Others(n - 1, t));
      var last := Request(Decimal(n - 1), t);
      assert Others(n, t) == Others(n - 1, t) + [last];
      ServeConcat(c, m, Others(n - 1, t), [last]);
      assert [last][1..] == [];
      assert TableAfter(c, before, [last]) == Served(c, before, Decimal(n - 1), t).0;
      if "" in before {
        CrowdGrows(c, before, b, n - 1, t);
      }
    }
  }

  // --- Telling a full bucket from one that is not ---

  lemma Divide(x: real, r: real)
    requires r > 0.0
    ensures x / r * r == x && (x >= 0.0 ==> x / r >= 0.0)
  {
  }

  lemma Elapsed(t: real, d: real, r: real)
    ensures (t + d - t) * r == d * r
  {
  }

  lemma SameInstant(c: Config, tokens: real, t: real)
    requires tokens <= c.burst
    ensures Available(c, Some(Level(tokens, t, t)), t) == tokens
  {
    var b := Level(tokens, t, t);
    var none := t - b.updated;
    assert none == 0.0;
    assert none * c.rate == 0.0;
    assert Available(c, Some(b), t) == Min(c.burst, b.tokens + none * c.rate);
  }

  lemma ConsDiffers(b: bool, xs: seq<bool>, ys: seq<bool>)
    requires xs != ys
    ensures [b] + xs != [b] + ys
  {
    assert ([b] + xs)[1..] == xs && ([b] + ys)[1..] == ys;
  }

  /** The first request is answered differently. */
  lemma FirstDiffers(c: Config, hi: Option<Level>, lo: Option<Level>, t: real)
    requires Available(c, hi, t) >= 1.0 > Available(c, lo, t)
    ensures Alone(c, hi, [t]) != Alone(c, lo, [t])
  {
    assert Alone(c, hi, [t])[0] && !Alone(c, lo, [t])[0];
  }

  /** The first request is admitted from both, and what follows is answered differently. */
  lemma LaterDiffers(c: Config, hi: Option<Level>, lo: Option<Level>, t: real, times: seq<real>)
    requires Available(c, hi, t) >= 1.0 && Available(c, lo, t) >= 1.0
    requires Alone(c, Some(Level(Available(c, hi, t) - 1.0, t, t)), times)
             != Alone(c, Some(Level(Available(c, lo, t) - 1.0, t, t)), times)
    ensures Alone(c, hi, [t] + times) != Alone(c, lo, [t] + times)
  {
    AloneStep(c, hi, t, times);
    AloneStep(c, lo, t, times);
    ConsDiffers(true, Alone(c, Some(Hit(c, hi, t).0), times), Alone(c, Some(Hit(c, lo, t).0), times));
  }

  predicate From(times: seq<real>, t: real) {
    Ordered(times) && forall i :: 0 <= i < |times| ==> t <= times[i]
  }

  lemma AloneStep(c: Config, prior: Option<Level>, t: real, times: seq<real>)
    ensures Alone(c, prior, [t] + times) == [Hit(c, prior, t).1] + Alone(c, Some(Hit(c, prior, t).0), times)
  {
    assert ([t] + times)[1..] == times;
  }

  lemma FromStep(t: real, times: seq<real>)
    requires From(times, t)
    ensures From([t] + times, t)
  {
  }

  /** Of two levels at the same instant, some requests are answered differently. */
  lemma {:induction false} LevelsDiffer(c: Config, a: real, b: real, t: real) returns (times: seq<real>)
    requires c.rate > 0.0 && c.burst >= 1.0 && 0.0 <= b < a <= c.burst
    ensures From(times, t)
    ensures Alone(c, Some(Level(a, t, t)), times) != Alone(c, Some(Level(b, t, t)), times)
    decreases a.Floor
  {
    SameInstant(c, a, t);
    SameInstant(c, b, t);
    var hi, lo := Some(Level(a, t, t)), Some(Level(b, t, t));
    if a < 1.0 {
      var wait := (1.0 - a) / c.rate;
      Divide(1.0 - a, c.rate);
      Elapsed(t, wait, c.rate);
      assert Available(c, hi, t + wait) == 1.0;
      assert Available(c, lo, t + wait) < 1.0;
      FirstDiffers(c, hi, lo, t + wait);
      times := [t + wait];
    } else if b < 1.0 {
      FirstDiffers(c, hi, lo, t);
      times := [t];
    } else {
      var more := LevelsDiffer(c, a - 1.0, b - 1.0, t);
      LaterDiffers(c, hi, lo, t, more);
      FromStep(t, more);
      times := [t] + more;
    }
  }

  /** A new bucket and one that has not refilled are answered differently. */
  lemma NewDiffers(c: Config, prior: Level, t: real) returns (times: seq<real>)
    requires c.rate >= 0.0 && c.burst >= 1.0
    requires 0.0 <= Available(c, Some(prior), t) < c.burst
    requires c.rate == 0.0 ==> Available(c, Some(prior), t) < 1.0
    ensures From(times, t) && Alone(c, None, times) != Alone(c, Some(prior), times)
  {
    var u := Available(c, Some(prior), t);
    if u < 1.0 {
      FirstDiffers(c, None, Some(prior), t);
      times := [t];
    } else {
      var more := LevelsDiffer(c, c.burst - 1.0, u - 1.0, t);
      LaterDiffers(c, None, Some(prior), t, more);
      FromStep(t, more);
      times := [t] + more;
    }
  }

  // --- Emptying a bucket ---

  lemma LevelStep(c: Config, prior: Option<Level>, t: real, times: seq<real>)
    ensures LevelAfter(c, prior, [t] + times) == LevelAfter(c, Some(Hit(c, prior, t).0), times)
  {
    assert ([t] + times)[1..] == times;
  }

  predicate Until(times: seq<real>, t: real) {
    Ordered(times) && forall i :: 0 <= i < |times| ==> times[i] <= t
  }

  /** Requests at one instant take a bucket below one token. */
  lemma {:induction false} DrainNow(c: Config, a: real, t: real) returns (times: seq<real>, left: real)
    requires 0.0 <= a <= c.burst
    ensures forall i :: 0 <= i < |times| ==> times[i] == t
    ensures 0.0 <= left < 1.0 && left <= c.burst
    ensures LevelAfter(c, Some(Level(a, t, t)), times) == Some(Level(left, t, t))
    decreases a.Floor
  {
    if a < 1.0 {
      times, left := [], a;
    } else {
      SameInstant(c, a, t);
      var more;
      more, left := DrainNow(c, a - 1.0, t);
      times := [t] + more;
      LevelStep(c, Some(Level(a, t, t)), t, more);
    }
  }

  /** Requests at time 0 take a new bucket below one token. */
  lemma EmptyAtOnce(c: Config) returns (times: seq<real>, left: real)
    requires c.burst >= 1.0
    ensures forall i :: 0 <= i < |times| ==> times[i] == 0.0
    ensures LevelAfter(c, None, times) == Some(Level(left, 0.0, 0.0)) && 0.0 <= left < 1.0
  {
    var more;
    more, left := DrainNow(c, c.burst - 1.0, 0.0);
    LevelStep(c, None, 0.0, more);
    times := [0.0] + more;
  }

  /** One more request when there is exactly one token. */
  lemma TakeLast(c: Config, left: real) returns (t: real)
    requires c.rate > 0.0 && c.burst >= 1.0 && 0.0 <= left < 1.0
    ensures t >= 0.0 && Hit(c, Some(Level(left, 0.0, 0.0)), t).0 == Level(0.0, t, t)
  {
    t := (1.0 - left) / c.rate;
    Divide(1.0 - left, c.rate);
    Elapsed(0.0, t, c.rate);
    assert Available(c, Some(Level(left, 0.0, 0.0)), t) == 1.0;
  }

  /** A key can bring its bucket below one token, and to none if it refills at all. */
  lemma Empty(c: Config) returns (times: seq<real>, t: real, left: real)
    requires c.rate >= 0.0 && c.burst >= 1.0
    ensures Until(times, t) && LevelAfter(c, None, times) == Some(Level(left, t, t))
    ensures 0.0 <= left < 1.0 && (c.rate > 0.0 ==> left == 0.0)
  {
    times, left := EmptyAtOnce(c);
    t := 0.0;
    if c.rate > 0.0 {
      t := TakeLast(c, left);
      AloneConcat(c, None, times, [t]);
      LevelStep(c, Some(Level(left, 0.0, 0.0)), t, []);
      assert [t] + [] == [t];
      times, left := times + [t], 0.0;
    }
  }

  /** How long to wait: long enough to be pruned, too short to refill. */
  lemma WaitingTime(c: Config, left: real) returns (d: real)
    requires c.rate >= 0.0 && c.pruneAfter >= 0.0 && c.burst >= 1.0 && c.rate * c.pruneAfter < c.burst
    requires 0.0 <= left < 1.0 && (c.rate > 0.0 ==> left == 0.0)
    ensures d > c.pruneAfter && 0.0 <= left + d * c.rate < c.burst && (c.rate == 0.0 ==> left + d * c.rate < 1.0)
  {
    if c.rate == 0.0 {
      d := c.pruneAfter + 1.0;
      assert d * c.rate == 0.0;
    } else {
      var refill := c.burst / c.rate;
      Divide(c.burst, c.rate);
      assert refill > c.pruneAfter by {
        if refill <= c.pruneAfter {
          Scale(refill, c.pruneAfter, c.rate);
        }
      }
      d := (c.pruneAfter + refill) / 2.0;
      Halfway(c.pruneAfter, refill, c.rate);
    }
  }

  lemma Halfway(a: real, b: real, r: real)
    requires r >= 0.0
    ensures (a + b) / 2.0 * r == (a * r + b * r) / 2.0
  {
  }

  // --- The theorem ---

  /** A key asks, stays away until its bucket is gone, and asks again: the second time it is
      answered from a new bucket. */
  lemma PrunedAnswers(c: Config, xs: seq<real>, t: real, ys: seq<real>)
    requires c.pruneAfter >= 0.0 && LevelAfter(c, None, xs).Some?
    requires Idle(c, LevelAfter(c, None, xs).value, t)
    ensures var trace := On("", xs) + Others(CROWD, t) + On("", ys);
            && Own(trace, "") == xs + ys
            && OwnDecisions(trace, Serve(c, map[], trace), "") == Alone(c, None, xs) + Alone(c, None, ys)
  {
    var first, crowd, last := On("", xs), Others(CROWD, t), On("", ys);
    var m1 := TableAfter(c, map[], first);
    var m2 := TableAfter(c, m1, crowd);
    OneKeyAlone(c, map[], "", xs);
    CrowdPrunes(c, m1, LevelAfter(c, None, xs).value, t, CROWD);
    assert Lookup(m2, "") == None;
    OneKeyAlone(c, m2, "", ys);
    ServeConcat(c, map[], first, crowd);
    ServeConcat(c, map[], first + crowd, last);
    ThreeParts(first, crowd, last, Serve(c, map[], first), Serve(c, m1, crowd), Serve(c, m2, last), xs, ys);
  }

  lemma ThreeParts(first: seq<Request>, crowd: seq<Request>, last: seq<Request>,
                   ds: seq<bool>, es: seq<bool>, fs: seq<bool>, xs: seq<real>, ys: seq<real>)
    requires |ds| == |first| && |es| == |crowd| && |fs| == |last|
    requires first == On("", xs) && last == On("", ys) && forall i :: 0 <= i < |crowd| ==> crowd[i].key != ""
    ensures Own(first + crowd + last, "") == xs + ys
    ensures OwnDecisions(first + crowd + last, ds + es + fs, "") == ds + fs
  {
    OwnOn("", xs, ds);
    OwnOfOthers(crowd, es, "");
    OwnConcat(first, crowd, "");
    OwnDecisionsConcat(first, crowd, ds, es, "");
    assert xs + [] == xs && ds + [] == ds;
    assert Own(first + crowd, "") == xs && OwnDecisions(first + crowd, ds + es, "") == ds;
    OwnOn("", ys, fs);
    OwnConcat(first + crowd, last, "");
    OwnDecisionsConcat(first + crowd, last, ds + es, fs, "");
  }

  lemma TraceInOrder(xs: seq<real>, t: real, ys: seq<real>)
    requires Until(xs, t) && From(ys, t)
    ensures InOrder(On("", xs) + Others(CROWD, t) + On("", ys))
  {
  }

  lemma SuffixesDiffer(same: seq<bool>, xs: seq<bool>, ys: seq<bool>)
    requires xs != ys
    ensures same + xs != same + ys
  {
    assert (same + xs)[|same|..] == xs && (same + ys)[|same|..] == ys;
  }

  /** A bucket that stays away too long to be kept and too briefly to refill. */
  lemma PruningHurts(c: Config) returns (xs: seq<real>, t: real, ys: seq<real>)
    requires c.rate >= 0.0 && c.pruneAfter >= 0.0 && c.burst >= 1.0 && c.rate * c.pruneAfter < c.burst
    ensures LevelAfter(c, None, xs).Some? && Idle(c, LevelAfter(c, None, xs).value, t)
    ensures Until(xs, t) && From(ys, t) && Alone(c, None, ys) != Alone(c, LevelAfter(c, None, xs), ys)
  {
    var t0, left;
    xs, t0, left := Empty(c);
    var d := WaitingTime(c, left);
    t := t0 + d;
    Elapsed(t0, d, c.rate);
    var prior := Level(left, t0, t0);
    assert Available(c, Some(prior), t) == left + d * c.rate;
    ys := NewDiffers(c, prior, t);
  }

  /** Where a bucket can be dropped before it has refilled, some key is answered differently. */
  lemma PruningShows(c: Config) returns (trace: seq<Request>)
    requires c.rate >= 0.0 && c.pruneAfter >= 0.0 && c.burst >= 1.0 && c.rate * c.pruneAfter < c.burst
    ensures InOrder(trace) && OwnDecisions(trace, Serve(c, map[], trace), "") != Alone(c, None, Own(trace, ""))
  {
    var xs, t, ys := PruningHurts(c);
    PrunedAnswers(c, xs, t, ys);
    AloneConcat(c, None, xs, ys);
    TraceInOrder(xs, t, ys);
    SuffixesDiffer(Alone(c, None, xs), Alone(c, None, ys), Alone(c, LevelAfter(c, None, xs), ys));
    trace := On("", xs) + Others(CROWD, t) + On("", ys);
  }

  lemma {:induction false} NothingAdmitted(c: Config, m: map<string, Level>, trace: seq<Request>, key: string)
    requires c.burst < 1.0
    ensures forall i :: 0 <= i < |OwnDecisions(trace, Serve(c, m, trace), key)| ==>
                          !OwnDecisions(trace, Serve(c, m, trace), key)[i]
    decreases |trace|
  {
    if trace != [] {
      NothingAdmitted(c, Served(c, m, trace[0].key, trace[0].at).0, trace[1..], key);
    }
  }

  lemma {:induction false} NothingAdmittedAlone(c: Config, prior: Option<Level>, times: seq<real>)
    requires c.burst < 1.0
    ensures forall i :: 0 <= i < |times| ==> !Alone(c, prior, times)[i]
    decreases |times|
  {
    if times != [] {
      NothingAdmittedAlone(c, Some(Hit(c, prior, times[0]).0), times[1..]);
    }
  }

  /** The exact condition on the configuration. */
  lemma InvisibleExactly(c: Config)
    requires c.rate >= 0.0 && c.pruneAfter >= 0.0
    ensures Invisible(c) <==> c.burst < 1.0 || c.rate * c.pruneAfter >= c.burst
  {
    if c.burst < 1.0 {
      forall trace, key | InOrder(trace)
        ensures OwnDecisions(trace, Serve(c, map[], trace), key) == Alone(c, None, Own(trace, key))
      {
        NothingAdmitted(c, map[], trace, key);
        NothingAdmittedAlone(c, None, Own(trace, key));
      }
    } else if c.rate * c.pruneAfter >= c.burst {
      forall trace, key | InOrder(trace)
        ensures OwnDecisions(trace, Serve(c, map[], trace), key) == Alone(c, None, Own(trace, key))
      {
        PruningIsTransparent(c, trace, key);
      }
    } else {
      var trace := PruningShows(c);
    }
  }
}
