/** What the limiter does over whole request traces (internal/server/ratelimit.go): pruning is
    invisible, keys are independent, every window is bounded, and no other policy within the same
    bound admits more. */
module RateLimiterTheorems {
  import opened Options
  import opened RateLimiter

  datatype Request = Request(key: string, at: real)

  /** The clock is read under the lock, so it never goes back. */
  predicate Ordered(times: seq<real>) {
    forall i, j :: 0 <= i < j < |times| ==> times[i] <= times[j]
  }

  predicate InOrder(trace: seq<Request>) {
    forall i, j :: 0 <= i < j < |trace| ==> trace[i].at <= trace[j].at
  }

  /** The limiter's decisions on a trace. */
  function Serve(c: Config, m: map<string, Level>, trace: seq<Request>): (ds: seq<bool>)
    ensures |ds| == |trace|
    decreases |trace|
  {
    if trace == [] then [] else
      var (m', ok) := Served(c, m, trace[0].key, trace[0].at);
      [ok] + Serve(c, m', trace[1..])
  }

  /** One bucket, never pruned, on its own. */
  function Alone(c: Config, prior: Option<Level>, times: seq<real>): (ds: seq<bool>)
    ensures |ds| == |times|
    decreases |times|
  {
    if times == [] then [] else
      var (b, ok) := Hit(c, prior, times[0]);
      [ok] + Alone(c, Some(b), times[1..])
  }

  /** What one key asked, and what it was answered. */
  function Own(trace: seq<Request>, key: string): seq<real> {
    if trace == [] then [] else
      (if trace[0].key == key then [trace[0].at] else []) + Own(trace[1..], key)
  }

  function OwnDecisions(trace: seq<Request>, ds: seq<bool>, key: string): (r: seq<bool>)
    requires |ds| == |trace|
    ensures |r| == |Own(trace, key)|
  {
    if trace == [] then [] else
      (if trace[0].key == key then [ds[0]] else []) + OwnDecisions(trace[1..], ds[1..], key)
  }

  // --- Pruning and the other keys are invisible ---

  predicate WellKept(c: Config, b: Level, clock: real) {
    0.0 <= b.tokens && b.tokens <= c.burst && b.updated == b.lastSeen && b.updated <= clock
  }

  /** The table against the never-pruned bucket of one key: equal, or the table's was pruned and
      the other has refilled. */
  predicate Agrees(c: Config, m: map<string, Level>, key: string, ideal: Option<Level>, clock: real) {
    && (ideal.Some? ==> WellKept(c, ideal.value, clock))
    && (if key in m then ideal == Some(m[key])
        else ideal.Some? ==> ideal.value.tokens + (clock - ideal.value.updated) * c.rate >= c.burst)
  }

  lemma Scale(a: real, b: real, r: real)
    requires a <= b && r >= 0.0
    ensures a * r <= b * r
  {
  }

  lemma NoOutflow(a: real, b: real, r: real)
    requires a <= b && r >= 0.0
    ensures (b - a) * r >= 0.0
  {
  }

  lemma HitKeepsWell(c: Config, prior: Option<Level>, now: real)
    requires Sensible(c) && (prior.Some? ==> WellKept(c, prior.value, now))
    ensures WellKept(c, Hit(c, prior, now).0, now)
  {
    match prior
    case None =>
    case Some(b) =>
      NoOutflow(b.updated, now, c.rate);
      var gained := (now - b.updated) * c.rate;
      assert Available(c, prior, now) == Min(c.burst, b.tokens + gained) >= 0.0;
  }

  lemma AgreeingAnswer(c: Config, m: map<string, Level>, key: string, ideal: Option<Level>, clock: real, now: real)
    requires Sensible(c) && clock <= now && Agrees(c, m, key, ideal, clock)
    ensures Hit(c, Lookup(m, key), now) == Hit(c, ideal, now)
  {
    if key !in m && ideal.Some? {
      Scale(clock - ideal.value.updated, now - ideal.value.updated, c.rate);
    }
  }

  lemma PruneAgrees(c: Config, m: map<string, Level>, key: string, ideal: Option<Level>, now: real)
    requires Sensible(c) && Agrees(c, m, key, ideal, now)
    ensures Agrees(c, Pruned(c, m, now), key, ideal, now)
  {
    if key in m && key !in Pruned(c, m, now) {
      Scale(c.pruneAfter, now - ideal.value.updated, c.rate);
    }
  }

  lemma StepAgrees(c: Config, m: map<string, Level>, q: Request, key: string, ideal: Option<Level>, clock: real)
    requires Sensible(c) && clock <= q.at && Agrees(c, m, key, ideal, clock)
    ensures Agrees(c, Served(c, m, q.key, q.at).0, key,
                   if q.key == key then Some(Hit(c, ideal, q.at).0) else ideal, q.at)
  {
    var (b, _) := Hit(c, Lookup(m, q.key), q.at);
    var ideal' := if q.key == key then Some(Hit(c, ideal, q.at).0) else ideal;
    if q.key == key {
      AgreeingAnswer(c, m, key, ideal, clock, q.at);
      HitKeepsWell(c, ideal, q.at);
    } else if ideal.Some? {
      Scale(clock - ideal.value.updated, q.at - ideal.value.updated, c.rate);
    }
    PruneAgrees(c, m[q.key := b], key, ideal', q.at);
  }

  lemma {:induction false} Transparent(c: Config, m: map<string, Level>, trace: seq<Request>, key: string,
                                       ideal: Option<Level>, clock: real)
    requires Sensible(c) && Agrees(c, m, key, ideal, clock)
    requires InOrder(trace) && forall i :: 0 <= i < |trace| ==> clock <= trace[i].at
    ensures OwnDecisions(trace, Serve(c, m, trace), key) == Alone(c, ideal, Own(trace, key))
    decreases |trace|
  {
    if trace != [] {
      var q := trace[0];
      var m' := Served(c, m, q.key, q.at).0;
      var ideal' := if q.key == key then Some(Hit(c, ideal, q.at).0) else ideal;
      StepAgrees(c, m, q, key, ideal, clock);
      assert Serve(c, m, trace)[1..] == Serve(c, m', trace[1..]);
      Transparent(c, m', trace[1..], key, ideal', q.at);
      if q.key == key {
        AgreeingAnswer(c, m, key, ideal, clock, q.at);
        assert Own(trace, key) == [q.at] + Own(trace[1..], key);
        assert Own(trace, key)[1..] == Own(trace[1..], key);
      } else {
        assert Own(trace, key) == Own(trace[1..], key);
      }
    }
  }

  /** Pruning transparency and key isolation: each key is answered as if it had a bucket of its
      own that is never dropped, whatever the other keys ask in between. */
  lemma PruningIsTransparent(c: Config, trace: seq<Request>, key: string)
    requires Sensible(c) && InOrder(trace)
    ensures OwnDecisions(trace, Serve(c, map[], trace), key) == Alone(c, None, Own(trace, key))
  {
    if trace != [] {
      Transparent(c, map[], trace, key, None, trace[0].at);
    }
  }

  // --- One bucket, in units of inflow ---

  // From here on an instant t is measured by what has flowed in by then, t * rate, so that a
  // bucket gains one token per unit.

  function Inflow(c: Config, t: real): real {
    t * c.rate
  }

  function Inflows(c: Config, times: seq<real>): (r: seq<real>)
    ensures |r| == |times| && forall i :: 0 <= i < |r| ==> r[i] == Inflow(c, times[i])
  {
    seq(|times|, i requires 0 <= i < |times| => Inflow(c, times[i]))
  }

  /** A bucket's tokens, and the inflow at its last request. */
  datatype Pot = Pot(tokens: real, mark: real)

  function Found(burst: real, pot: Option<Pot>, now: real): real {
    match pot
    case None => burst
    case Some(p) => Min(burst, p.tokens + (now - p.mark))
  }

  function Took(burst: real, pot: Option<Pot>, now: real, pick: bool): Pot {
    Pot(Found(burst, pot, now) - (if pick then 1.0 else 0.0), now)
  }

  /** Admit whenever there is a token. */
  function Greedy(burst: real, pot: Option<Pot>, marks: seq<real>): (ds: seq<bool>)
    ensures |ds| == |marks|
    decreases |marks|
  {
    if marks == [] then [] else
      var ok := Found(burst, pot, marks[0]) >= 1.0;
      [ok] + Greedy(burst, Some(Took(burst, pot, marks[0], ok)), marks[1..])
  }

  function ToPot(c: Config, b: Option<Level>): Option<Pot> {
    match b
    case None => None
    case Some(l) => Some(Pot(l.tokens, Inflow(c, l.updated)))
  }

  lemma Distribute(a: real, b: real, r: real)
    ensures (a - b) * r == a * r - b * r
  {
  }

  lemma AvailableIsFound(c: Config, prior: Option<Level>, now: real)
    ensures Available(c, prior, now) == Found(c.burst, ToPot(c, prior), Inflow(c, now))
  {
    match prior
    case None =>
    case Some(l) => Distribute(now, l.updated, c.rate);
  }

  lemma {:induction false} AloneIsGreedy(c: Config, prior: Option<Level>, times: seq<real>)
    ensures Alone(c, prior, times) == Greedy(c.burst, ToPot(c, prior), Inflows(c, times))
    decreases |times|
  {
    if times != [] {
      AvailableIsFound(c, prior, times[0]);
      var (b, ok) := Hit(c, prior, times[0]);
      AloneIsGreedy(c, Some(b), times[1..]);
      assert ToPot(c, Some(b)) == Some(Took(c.burst, ToPot(c, prior), Inflow(c, times[0]), ok));
      assert Inflows(c, times)[1..] == Inflows(c, times[1..]);
    }
  }

  // --- Admission policies ---

  function Count(picks: seq<bool>): nat {
    if picks == [] then 0 else (if picks[0] then 1 else 0) + Count(picks[1..])
  }

  /** The policy's bucket never goes below zero. */
  predicate Solvent(burst: real, pot: Option<Pot>, marks: seq<real>, picks: seq<bool>)
    requires |picks| == |marks|
    decreases |marks|
  {
    marks == [] ||
    (&& (picks[0] ==> Found(burst, pot, marks[0]) >= 1.0)
     && Solvent(burst, Some(Took(burst, pot, marks[0], picks[0])), marks[1..], picks[1..]))
  }

  lemma {:induction false} GreedyIsSolvent(burst: real, pot: Option<Pot>, marks: seq<real>)
    ensures Solvent(burst, pot, marks, Greedy(burst, pot, marks))
    decreases |marks|
  {
    if marks != [] {
      var ds := Greedy(burst, pot, marks);
      var next := Some(Took(burst, pot, marks[0], ds[0]));
      GreedyIsSolvent(burst, next, marks[1..]);
      assert ds[1..] == Greedy(burst, next, marks[1..]);
    }
  }

  /** The first bucket is behind by at most `lead` tokens, and has admitted `lead` requests more. */
  predicate Ahead(g: Option<Pot>, o: Option<Pot>, lead: nat) {
    match (g, o)
    case (Some(x), Some(y)) => x.mark == y.mark && x.tokens + lead as real >= y.tokens
    case (None, None) => true
    case _ => false
  }

  /** Admitting whenever possible never falls behind. */
  lemma {:induction false} GreedyLeads(burst: real, g: Option<Pot>, o: Option<Pot>, lead: nat, marks: seq<real>,
                                       picks: seq<bool>)
    requires |picks| == |marks| && Ahead(g, o, lead) && Solvent(burst, o, marks, picks)
    ensures lead + Count(Greedy(burst, g, marks)) >= Count(picks)
    decreases |marks|
  {
    if marks != [] {
      var ds := Greedy(burst, g, marks);
      var g' := Some(Took(burst, g, marks[0], ds[0]));
      var o' := Some(Took(burst, o, marks[0], picks[0]));
      var lead' := lead + (if ds[0] then 1 else 0) - (if picks[0] then 1 else 0);
      assert lead' >= 0;
      GreedyLeads(burst, g', o', lead', marks[1..], picks[1..]);
      assert ds[1..] == Greedy(burst, g', marks[1..]);
    }
  }

  lemma {:induction false} GreedyPrefix(burst: real, pot: Option<Pot>, marks: seq<real>, n: nat)
    requires n <= |marks|
    ensures Greedy(burst, pot, marks[..n]) == Greedy(burst, pot, marks)[..n]
    decreases n
  {
    if n > 0 {
      var ok := Found(burst, pot, marks[0]) >= 1.0;
      GreedyPrefix(burst, Some(Took(burst, pot, marks[0], ok)), marks[1..], n - 1);
      assert marks[..n][1..] == marks[1..][..n - 1];
    }
  }

  lemma {:induction false} SolventPrefix(burst: real, pot: Option<Pot>, marks: seq<real>, picks: seq<bool>, n: nat)
    requires n <= |marks| == |picks| && Solvent(burst, pot, marks, picks)
    ensures Solvent(burst, pot, marks[..n], picks[..n])
    decreases n
  {
    if n > 0 {
      SolventPrefix(burst, Some(Took(burst, pot, marks[0], picks[0])), marks[1..], picks[1..], n - 1);
      assert marks[..n][1..] == marks[1..][..n - 1];
      assert picks[..n][1..] == picks[1..][..n - 1];
    }
  }

  // --- Windows ---

  /** The requests admitted from the i-th up to but not including the j-th. */
  function Admitted(picks: seq<bool>, i: nat, j: nat): nat
    requires i <= j <= |picks|
  {
    Count(picks[i..j])
  }

  /** No stretch of consecutive requests admits more than a full bucket and what flowed in. */
  predicate WithinInflow(burst: real, marks: seq<real>, picks: seq<bool>)
    requires |picks| == |marks|
  {
    forall i, j :: 0 <= i <= j < |marks| ==> Admitted(picks, i, j + 1) as real <= burst + (marks[j] - marks[i])
  }

  lemma {:induction false} CountSnoc(picks: seq<bool>, p: bool)
    ensures Count(picks + [p]) == Count(picks) + (if p then 1 else 0)
    decreases |picks|
  {
    if picks == [] {
      assert [] + [p] == [p];
    } else {
      CountSnoc(picks[1..], p);
      assert (picks + [p])[1..] == picks[1..] + [p];
    }
  }

  predicate NotBefore(marks: seq<real>, t: real) {
    forall i :: 0 <= i < |marks| ==> t <= marks[i]
  }

  lemma OrderedTail(marks: seq<real>)
    requires marks != [] && Ordered(marks)
    ensures Ordered(marks[1..]) && NotBefore(marks[1..], marks[0])
  {
  }

  /** What a solvent bucket can still admit up to the last request. */
  lemma {:induction false} SolventBound(burst: real, pot: Pot, marks: seq<real>, picks: seq<bool>, last: real)
    requires burst >= 0.0 && pot.tokens >= 0.0 && |picks| == |marks|
    requires Ordered(marks) && NotBefore(marks, pot.mark)
    requires last == if marks == [] then pot.mark else marks[|marks| - 1]
    requires Solvent(burst, Some(pot), marks, picks)
    ensures Count(picks) as real <= pot.tokens + (last - pot.mark)
    decreases |marks|
  {
    if marks != [] {
      OrderedTail(marks);
      SolventBound(burst, Took(burst, Some(pot), marks[0], picks[0]), marks[1..], picks[1..], last);
    }
  }

  lemma {:induction false} SolventWindow(burst: real, pot: Option<Pot>, marks: seq<real>, picks: seq<bool>, i: nat,
                                        j: nat)
    requires burst >= 0.0 && |picks| == |marks| && Ordered(marks) && i <= j < |marks|
    requires pot.Some? ==> pot.value.tokens >= 0.0 && pot.value.mark <= marks[0]
    requires Solvent(burst, pot, marks, picks)
    ensures Admitted(picks, i, j + 1) as real <= burst + (marks[j] - marks[i])
    decreases i
  {
    var next := Took(burst, pot, marks[0], picks[0]);
    OrderedTail(marks);
    if i == 0 {
      SolventPrefix(burst, Some(next), marks[1..], picks[1..], j);
      SolventBound(burst, next, marks[1..][..j], picks[1..][..j], marks[j]);
      assert picks[0..j + 1][1..] == picks[1..][..j];
    } else {
      SolventWindow(burst, Some(next), marks[1..], picks[1..], i - 1, j - 1);
      assert picks[1..][i - 1..j] == picks[i..j + 1];
    }
  }

  /** The bucket is always the full bucket of some earlier request, plus what flowed in, less what
      was admitted since; so the windows bound keeps it from going below zero. */
  lemma {:induction false} WindowsSolvent(burst: real, marks: seq<real>, picks: seq<bool>, k: nat,
                                        pot: Option<Pot>, s: nat)
    requires |picks| == |marks| && k <= |marks| && WithinInflow(burst, marks, picks)
    requires pot.None? ==> k == 0
    requires pot.Some? ==>
               && s < k && pot.value.mark == marks[k - 1]
               && pot.value.tokens == burst + (marks[k - 1] - marks[s]) - Admitted(picks, s, k) as real
    ensures Solvent(burst, pot, marks[k..], picks[k..])
    decreases |marks| - k
  {
    if k < |marks| {
      var found := Found(burst, pot, marks[k]);
      var s' := if pot.None? || found == burst then k else s;
      CountSnoc(picks[s'..k], picks[k]);
      assert picks[s'..k + 1] == picks[s'..k] + [picks[k]];
      assert Admitted(picks, s', k + 1) == Admitted(picks, s', k) + (if picks[k] then 1 else 0);
      assert found == burst + (marks[k] - marks[s']) - Admitted(picks, s', k) as real;
      WindowsSolvent(burst, marks, picks, k + 1, Some(Took(burst, pot, marks[k], picks[k])), s');
      assert marks[k..][1..] == marks[k + 1..] && picks[k..][1..] == picks[k + 1..];
    }
  }

  /** The windows bound says exactly what the bucket says. */
  lemma SolventIffWithinInflow(burst: real, marks: seq<real>, picks: seq<bool>)
    requires burst >= 0.0 && |picks| == |marks| && Ordered(marks)
    ensures Solvent(burst, None, marks, picks) <==> WithinInflow(burst, marks, picks)
  {
    if Solvent(burst, None, marks, picks) {
      forall i, j | 0 <= i <= j < |marks|
        ensures Admitted(picks, i, j + 1) as real <= burst + (marks[j] - marks[i])
      {
        SolventWindow(burst, None, marks, picks, i, j);
      }
    }
    if WithinInflow(burst, marks, picks) {
      WindowsSolvent(burst, marks, picks, 0, None, 0);
      assert marks[0..] == marks && picks[0..] == picks;
    }
  }

  // --- Back to time ---

  /** Every stretch of consecutive requests admits at most burst + rate * its length. */
  predicate WithinWindows(c: Config, times: seq<real>, picks: seq<bool>)
    requires |picks| == |times|
  {
    forall i, j :: 0 <= i <= j < |times| ==>
                     Admitted(picks, i, j + 1) as real <= c.burst + (times[j] - times[i]) * c.rate
  }

  lemma InflowsOrdered(c: Config, times: seq<real>)
    requires c.rate >= 0.0 && Ordered(times)
    ensures Ordered(Inflows(c, times))
  {
    forall i, j | 0 <= i < j < |times|
      ensures Inflow(c, times[i]) <= Inflow(c, times[j])
    {
      Scale(times[i], times[j], c.rate);
    }
  }

  lemma WindowsAreInflows(c: Config, times: seq<real>, picks: seq<bool>)
    requires |picks| == |times|
    ensures WithinWindows(c, times, picks) <==> WithinInflow(c.burst, Inflows(c, times), picks)
  {
    forall i, j | 0 <= i <= j < |times|
      ensures (times[j] - times[i]) * c.rate == Inflows(c, times)[j] - Inflows(c, times)[i]
    {
      Distribute(times[j], times[i], c.rate);
    }
  }

  /** A policy keeps every window within burst + rate * length if and only if its bucket, with the
      same burst, rate and cap, never goes below zero. */
  lemma SolventIffWithinWindows(c: Config, times: seq<real>, picks: seq<bool>)
    requires Sensible(c) && |picks| == |times| && Ordered(times)
    ensures Solvent(c.burst, None, Inflows(c, times), picks) <==> WithinWindows(c, times, picks)
  {
    InflowsOrdered(c, times);
    SolventIffWithinInflow(c.burst, Inflows(c, times), picks);
    WindowsAreInflows(c, times, picks);
  }

  lemma {:induction false} OwnOrdered(trace: seq<Request>, key: string)
    requires InOrder(trace)
    ensures Ordered(Own(trace, key))
    ensures trace != [] ==> NotBefore(Own(trace, key), trace[0].at)
    decreases |trace|
  {
    if trace != [] {
      OwnOrdered(trace[1..], key);
    }
  }

  // --- The theorems about the limiter as it is, with pruning and many keys ---

  /** Each key's admissions keep every window within the bound. */
  lemma LimiterKeepsWindows(c: Config, trace: seq<Request>, key: string)
    requires Sensible(c) && InOrder(trace)
    ensures WithinWindows(c, Own(trace, key), OwnDecisions(trace, Serve(c, map[], trace), key))
  {
    PruningIsTransparent(c, trace, key);
    AloneIsGreedy(c, None, Own(trace, key));
    GreedyIsSolvent(c.burst, None, Inflows(c, Own(trace, key)));
    OwnOrdered(trace, key);
    SolventIffWithinWindows(c, Own(trace, key), Alone(c, None, Own(trace, key)));
  }

  /** Greedy optimality: at every point of every trace a key has been admitted at least as often as
      by any other policy that keeps every window within the bound. */
  lemma LimiterIsOptimal(c: Config, trace: seq<Request>, key: string, picks: seq<bool>, n: nat)
    requires Sensible(c) && InOrder(trace)
    requires |picks| == |Own(trace, key)| && n <= |picks| && WithinWindows(c, Own(trace, key), picks)
    ensures Count(OwnDecisions(trace, Serve(c, map[], trace), key)[..n]) >= Count(picks[..n])
  {
    var times := Own(trace, key);
    PruningIsTransparent(c, trace, key);
    OwnOrdered(trace, key);
    SolventIffWithinWindows(c, times, picks);
    AloneIsGreedy(c, None, times);
    var marks := Inflows(c, times);
    SolventPrefix(c.burst, None, marks, picks, n);
    GreedyPrefix(c.burst, None, marks, n);
    GreedyLeads(c.burst, None, None, 0, marks[..n], picks[..n]);
  }

  /** The requests admitted at instants in the closed interval from t1 to t2. */
  function AdmittedBetween(times: seq<real>, picks: seq<bool>, t1: real, t2: real): nat
    requires |picks| == |times|
  {
    if times == [] then 0 else
      (if t1 <= times[0] <= t2 && picks[0] then 1 else 0) + AdmittedBetween(times[1..], picks[1..], t1, t2)
  }

  lemma {:induction false} NoneBetween(times: seq<real>, picks: seq<bool>, t1: real, t2: real)
    requires |picks| == |times| && forall i :: 0 <= i < |times| ==> t2 < times[i]
    ensures AdmittedBetween(times, picks, t1, t2) == 0
    decreases |times|
  {
    if times != [] {
      NoneBetween(times[1..], picks[1..], t1, t2);
    }
  }

  lemma SliceShift(picks: seq<bool>, i: nat, j: nat)
    requires i <= j < |picks|
    ensures picks[1..][i..j] == picks[i + 1..j + 1]
    ensures picks[..j + 1][1..] == picks[1..][..j]
  {
  }

  /** The requests of an interval are a stretch of consecutive ones. */
  lemma {:induction false} BetweenIsStretch(times: seq<real>, picks: seq<bool>, t1: real, t2: real)
    returns (i: nat, j: nat)
    requires |picks| == |times| && Ordered(times)
    ensures i <= j <= |times| && AdmittedBetween(times, picks, t1, t2) == Admitted(picks, i, j)
    ensures i < j ==> t1 <= times[i] && times[j - 1] <= t2
    ensures times != [] && t1 <= times[0] && i < j ==> i == 0
    decreases |times|
  {
    if times == [] {
      i, j := 0, 0;
    } else if times[0] > t2 {
      OrderedTail(times);
      NoneBetween(times, picks, t1, t2);
      i, j := 0, 0;
    } else {
      OrderedTail(times);
      i, j := BetweenIsStretch(times[1..], picks[1..], t1, t2);
      SliceShift(picks, i, j);
      if t1 <= times[0] {
        if i == j {
          i, j := 0, 0;
        }
        SliceShift(picks, 0, j);
        assert picks[0..j + 1] == picks[..j + 1];
        i, j := 0, j + 1;
      } else {
        i, j := i + 1, j + 1;
      }
    }
  }

  /** The window bound: between any two instants a key is admitted at most burst + rate * (t2 - t1)
      times, whatever other keys do and however often its bucket is pruned and made anew. */
  lemma LimiterWindowBound(c: Config, trace: seq<Request>, key: string, t1: real, t2: real)
    requires Sensible(c) && InOrder(trace) && t1 <= t2
    ensures AdmittedBetween(Own(trace, key), OwnDecisions(trace, Serve(c, map[], trace), key), t1, t2) as real
            <= c.burst + (t2 - t1) * c.rate
  {
    OwnOrdered(trace, key);
    LimiterKeepsWindows(c, trace, key);
    IntervalBound(c, Own(trace, key), OwnDecisions(trace, Serve(c, map[], trace), key), t1, t2);
  }

  lemma IntervalBound(c: Config, times: seq<real>, picks: seq<bool>, t1: real, t2: real)
    requires c.rate >= 0.0 && c.burst >= 0.0 && t1 <= t2
    requires |picks| == |times| && Ordered(times) && WithinWindows(c, times, picks)
    ensures AdmittedBetween(times, picks, t1, t2) as real <= c.burst + (t2 - t1) * c.rate
  {
    var i, j := BetweenIsStretch(times, picks, t1, t2);
    if i < j {
      StretchInWindow(c, times, picks, i, j, t1, t2);
    } else {
      assert Admitted(picks, i, j) == 0;
      EmptyWindow(c, t1, t2);
    }
  }

  lemma EmptyWindow(c: Config, t1: real, t2: real)
    requires c.rate >= 0.0 && c.burst >= 0.0 && t1 <= t2
    ensures 0.0 <= c.burst + (t2 - t1) * c.rate
  {
    NoOutflow(t1, t2, c.rate);
  }

  lemma StretchInWindow(c: Config, times: seq<real>, picks: seq<bool>, i: nat, j: nat, t1: real, t2: real)
    requires c.rate >= 0.0 && |picks| == |times| && i < j <= |times| && WithinWindows(c, times, picks)
    requires t1 <= times[i] && times[j - 1] <= t2
    ensures Admitted(picks, i, j) as real <= c.burst + (t2 - t1) * c.rate
  {
    var length := times[j - 1] - times[i];
    assert Admitted(picks, i, j - 1 + 1) as real <= c.burst + length * c.rate;
    Scale(length, t2 - t1, c.rate);
  }

  // --- The calls of the code are the trace ---

  /** Requests served one after another by the limiter of rate_limiter.dfy. */
  method ServeAll(rl: Limiter, trace: seq<Request>) returns (ds: seq<bool>)
    requires rl.Valid()
    modifies rl, rl.buckets.Values
    ensures rl.Valid() && ds == Serve(rl.Settings(), old(rl.Contents()), trace)
  {
    ds := [];
    ghost var c, m0 := rl.Settings(), rl.Contents();
    for n := 0 to |trace|
      invariant rl.Valid() && fresh(rl.buckets.Values - old(rl.buckets.Values))
      invariant |ds| == n
      invariant Serve(c, m0, trace) == ds + Serve(c, rl.Contents(), trace[n..])
    {
      ghost var m := rl.Contents();
      var ok := rl.Allow(trace[n].key, trace[n].at);
      assert trace[n..][1..] == trace[n + 1..];
      ds := ds + [ok];
    }
  }
}
