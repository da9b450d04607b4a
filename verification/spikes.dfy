/** The spike detector: sessions and days that stand out against the median of what came before
    (internal/stats/spikes.go). */
module Spikes {
  import opened Medians
  import Text

  datatype Kind = SessionSpike | TrendSpike
  datatype Severity = Low | Medium | High

  /** `timestamp` is the instant as text: RFC 3339 for a session, the date for a day. */
  datatype Spike = Spike(kind: Kind, timestamp: string, project: string,
                         value: real, baseline: real, ratio: real, severity: Severity)

  datatype SessionRecord = SessionRecord(endedAt: string, project: string, cost: real)
  datatype DayRecord = DayRecord(date: string, tokens: int)

  datatype Config = Config(windowN: int, sessionRatio: real, trendRatio: real)

  /** The settings that are not positive replaced by the defaults. */
  function Defaulted(cfg: Config): (r: Config)
    ensures r.windowN > 0 && r.sessionRatio > 0.0 && r.trendRatio > 0.0
  {
    Config(if cfg.windowN <= 0 then 20 else cfg.windowN,
           if cfg.sessionRatio <= 0.0 then 3.0 else cfg.sessionRatio,
           if cfg.trendRatio <= 0.0 then 2.0 else cfg.trendRatio)
  }

  function SeverityFor(ratio: real, threshold: real): Severity {
    if ratio >= threshold * 3.0 then High
    else if ratio >= threshold * 1.5 then Medium
    else Low
  }

  // --- The test both detectors make ---

  /** At least `history` values in all; the median of at most `window` predecessors, of which
      there must be `least`; and the multiple of it that makes a spike. */
  datatype Rule = Rule(history: nat, window: nat, least: nat, ratio: real)

  function SessionRule(cfg: Config): Rule
    requires cfg.windowN > 0
  {
    Rule(3, cfg.windowN, 1, cfg.sessionRatio)
  }

  function TrendRule(cfg: Config): Rule {
    Rule(4, 7, 3, cfg.trendRatio)
  }

  function WindowStart(i: nat, window: nat): (start: nat)
    ensures start <= i && i - start <= window
  {
    if i < window then 0 else i - window
  }

  function Baseline(values: seq<real>, rule: Rule, i: nat): real
    requires i < |values|
  {
    Median(values[WindowStart(i, rule.window)..i])
  }

  predicate IsSpike(values: seq<real>, rule: Rule, i: nat)
    requires i < |values|
  {
    && i - WindowStart(i, rule.window) >= rule.least
    && Baseline(values, rule, i) > 0.0
    && values[i] >= Baseline(values, rule, i) * rule.ratio
  }

  /** The spikes among the first `k` values, in order. */
  function Flags(values: seq<real>, rule: Rule, k: nat): (r: seq<nat>)
    requires k <= |values|
    ensures forall x :: x in r ==> x < k
  {
    if k == 0 then [] else
      Flags(values, rule, k - 1) + (if IsSpike(values, rule, k - 1) then [k - 1] else [])
  }

  function Detected(values: seq<real>, rule: Rule): (r: seq<nat>)
    ensures forall x :: x in r ==> x < |values|
  {
    if |values| < rule.history then [] else Flags(values, rule, |values|)
  }

  // --- The code ---

  function Costs(sessions: seq<SessionRecord>): (r: seq<real>)
    ensures |r| == |sessions| && forall i :: 0 <= i < |r| ==> r[i] == sessions[i].cost
  {
    seq(|sessions|, i requires 0 <= i < |sessions| => sessions[i].cost)
  }

  function Tokens(days: seq<DayRecord>): (r: seq<real>)
    ensures |r| == |days| && forall i :: 0 <= i < |r| ==> r[i] == days[i].tokens as real
  {
    seq(|days|, i requires 0 <= i < |days| => days[i].tokens as real)
  }

  function SessionSpikeAt(sessions: seq<SessionRecord>, cfg: Config, i: nat): Spike
    requires i < |sessions| && cfg.windowN > 0
  {
    var b := Baseline(Costs(sessions), SessionRule(cfg), i);
    var ratio := if b == 0.0 then 0.0 else sessions[i].cost / b;
    Spike(SessionSpike, sessions[i].endedAt, sessions[i].project, sessions[i].cost, b, ratio,
          SeverityFor(ratio, cfg.sessionRatio))
  }

  function TrendSpikeAt(days: seq<DayRecord>, cfg: Config, i: nat): Spike
    requires i < |days|
  {
    var b := Baseline(Tokens(days), TrendRule(cfg), i);
    var value := days[i].tokens as real;
    var ratio := if b == 0.0 then 0.0 else value / b;
    Spike(TrendSpike, days[i].date, "", value, b, ratio, SeverityFor(ratio, cfg.trendRatio))
  }

  function JudgedSession(sessions: seq<SessionRecord>, cfg: Config, i: nat): seq<Spike>
    requires i < |sessions| && cfg.windowN > 0
  {
    if IsSpike(Costs(sessions), SessionRule(cfg), i) then [SessionSpikeAt(sessions, cfg, i)] else []
  }

  function JudgedDay(days: seq<DayRecord>, cfg: Config, i: nat): seq<Spike>
    requires i < |days|
  {
    if IsSpike(Tokens(days), TrendRule(cfg), i) then [TrendSpikeAt(days, cfg, i)] else []
  }

  /** The spikes among the first `k` sessions. */
  function SessionSpikes(sessions: seq<SessionRecord>, cfg: Config, k: nat): seq<Spike>
    requires cfg.windowN > 0 && k <= |sessions|
  {
    if k == 0 then [] else SessionSpikes(sessions, cfg, k - 1) + JudgedSession(sessions, cfg, k - 1)
  }

  function TrendSpikes(days: seq<DayRecord>, cfg: Config, k: nat): seq<Spike>
    requires k <= |days|
  {
    if k == 0 then [] else TrendSpikes(days, cfg, k - 1) + JudgedDay(days, cfg, k - 1)
  }

  function AllSessionSpikes(sessions: seq<SessionRecord>, cfg: Config): seq<Spike>
    requires cfg.windowN > 0
  {
    if |sessions| < 3 then [] else SessionSpikes(sessions, cfg, |sessions|)
  }

  function AllTrendSpikes(days: seq<DayRecord>, cfg: Config): seq<Spike> {
    if |days| < 4 then [] else TrendSpikes(days, cfg, |days|)
  }

  method MedianCost(rows: seq<SessionRecord>) returns (m: real)
    ensures m == Median(Costs(rows))
  {
    if |rows| == 0 {
      return 0.0;
    }
    var values := new real[|rows|](i requires 0 <= i < |rows| => rows[i].cost);
    assert values[..] == Costs(rows);
    m := MedianFloat(values[..]);
  }

  method MedianTokens(rows: seq<DayRecord>) returns (m: real)
    ensures m == Median(Tokens(rows))
  {
    if |rows| == 0 {
      return 0.0;
    }
    var values := new real[|rows|](i requires 0 <= i < |rows| => rows[i].tokens as real);
    assert values[..] == Tokens(rows);
    m := MedianFloat(values[..]);
  }

  /** `at` are the positions of the sessions reported. */
  method DetectSessionSpikes(sessions: seq<SessionRecord>, cfg: Config) returns (out: seq<Spike>, ghost at: seq<nat>)
    requires cfg.windowN > 0
    ensures out == AllSessionSpikes(sessions, cfg)
    ensures forall m, n :: 0 <= m < n < |at| ==> at[m] < at[n]
    ensures forall i: nat :: i in at <==>
              && i < |sessions| && |sessions| >= 3 && i >= 1
              && var m := Median(Costs(sessions)[if i < cfg.windowN then 0 else i - cfg.windowN..i]);
                 m > 0.0 && sessions[i].cost >= m * cfg.sessionRatio
    ensures |out| == |at|
    ensures forall n :: 0 <= n < |out| ==>
              && at[n] < |sessions|
              && var m := Median(Costs(sessions)[if at[n] < cfg.windowN then 0 else at[n] - cfg.windowN..at[n]]);
                 && m > 0.0 && out[n].kind == SessionSpike
                 && out[n].timestamp == sessions[at[n]].endedAt && out[n].project == sessions[at[n]].project
                 && out[n].value == sessions[at[n]].cost && out[n].baseline == m
                 && out[n].ratio == sessions[at[n]].cost / m
  {
    at := Detected(Costs(sessions), SessionRule(cfg));
    SessionsFlagged(sessions, cfg, at);
    out := SessionLoop(sessions, cfg);
    forall n | 0 <= n < |out|
      ensures at[n] < |sessions|
      ensures var m := Median(Costs(sessions)[if at[n] < cfg.windowN then 0 else at[n] - cfg.windowN..at[n]]);
              && m > 0.0 && out[n].kind == SessionSpike
              && out[n].timestamp == sessions[at[n]].endedAt && out[n].project == sessions[at[n]].project
              && out[n].value == sessions[at[n]].cost && out[n].baseline == m
              && out[n].ratio == sessions[at[n]].cost / m
    {
      SessionReported(sessions, cfg, at, n, at[n], out[n]);
    }
  }

  method SessionLoop(sessions: seq<SessionRecord>, cfg: Config) returns (out: seq<Spike>)
    requires cfg.windowN > 0
    ensures out == AllSessionSpikes(sessions, cfg)
  {
    out := [];
    if |sessions| < 3 {
      return;
    }
    for i := 0 to |sessions|
      invariant out == SessionSpikes(sessions, cfg, i)
    {
      var found := JudgeSession(sessions, cfg, i);
      out := out + found;
    }
  }

  /** The body of the loop over the sessions. */
  method JudgeSession(sessions: seq<SessionRecord>, cfg: Config, i: nat) returns (found: seq<Spike>)
    requires cfg.windowN > 0 && i < |sessions|
    ensures found == JudgedSession(sessions, cfg, i)
  {
    var start := i - cfg.windowN;
    if start < 0 {
      start := 0;
    }
    if start == i {
      return [];
    }
    var baseline := MedianCost(sessions[start..i]);
    SessionWindow(sessions, cfg, i, start);
    if baseline <= 0.0 {
      return [];
    }
    var s := sessions[i];
    if s.cost >= baseline * cfg.sessionRatio {
      var ratio := s.cost / baseline;
      return [Spike(SessionSpike, s.endedAt, s.project, s.cost, baseline, ratio,
                    SeverityFor(ratio, cfg.sessionRatio))];
    }
    return [];
  }

  lemma SessionWindow(sessions: seq<SessionRecord>, cfg: Config, i: nat, start: nat)
    requires cfg.windowN > 0 && i < |sessions| && start == if i < cfg.windowN then 0 else i - cfg.windowN
    ensures start <= i && Median(Costs(sessions[start..i])) == Baseline(Costs(sessions), SessionRule(cfg), i)
  {
    assert Costs(sessions[start..i]) == Costs(sessions)[start..i];
  }

  /** `at` are the positions of the days reported. */
  method DetectTrendSpikes(days: seq<DayRecord>, cfg: Config) returns (out: seq<Spike>, ghost at: seq<nat>)
    ensures out == AllTrendSpikes(days, cfg)
    ensures forall m, n :: 0 <= m < n < |at| ==> at[m] < at[n]
    ensures forall i: nat :: i in at <==>
              && i < |days| && |days| >= 4 && i >= 3
              && var m := Median(Tokens(days)[if i < 7 then 0 else i - 7..i]);
                 m > 0.0 && days[i].tokens as real >= m * cfg.trendRatio
    ensures |out| == |at|
    ensures forall n :: 0 <= n < |out| ==>
              && at[n] < |days|
              && var m := Median(Tokens(days)[if at[n] < 7 then 0 else at[n] - 7..at[n]]);
                 && m > 0.0 && out[n].kind == TrendSpike
                 && out[n].timestamp == days[at[n]].date && out[n].project == ""
                 && out[n].value == days[at[n]].tokens as real && out[n].baseline == m
                 && out[n].ratio == days[at[n]].tokens as real / m
  {
    at := Detected(Tokens(days), TrendRule(cfg));
    DaysFlagged(days, cfg, at);
    out := TrendLoop(days, cfg);
    forall n | 0 <= n < |out|
      ensures at[n] < |days|
      ensures var m := Median(Tokens(days)[if at[n] < 7 then 0 else at[n] - 7..at[n]]);
              && m > 0.0 && out[n].kind == TrendSpike
              && out[n].timestamp == days[at[n]].date && out[n].project == ""
              && out[n].value == days[at[n]].tokens as real && out[n].baseline == m
              && out[n].ratio == days[at[n]].tokens as real / m
    {
      DayReported(days, cfg, at, n, at[n], out[n]);
    }
  }

  method TrendLoop(days: seq<DayRecord>, cfg: Config) returns (out: seq<Spike>)
    ensures out == AllTrendSpikes(days, cfg)
  {
    out := [];
    if |days| < 4 {
      return;
    }
    for i := 0 to |days|
      invariant out == TrendSpikes(days, cfg, i)
    {
      var found := JudgeDay(days, cfg, i);
      out := out + found;
    }
  }

  /** The body of the loop over the days. */
  method JudgeDay(days: seq<DayRecord>, cfg: Config, i: nat) returns (found: seq<Spike>)
    requires i < |days|
    ensures found == JudgedDay(days, cfg, i)
  {
    var start := i - 7;
    if start < 0 {
      start := 0;
    }
    if i - start < 3 {
      return [];
    }
    var baseline := MedianTokens(days[start..i]);
    assert Tokens(days[start..i]) == Tokens(days)[start..i];
    assert baseline == Baseline(Tokens(days), TrendRule(cfg), i);
    if baseline <= 0.0 {
      return [];
    }
    var d := days[i];
    if d.tokens as real >= baseline * cfg.trendRatio {
      var ratio := d.tokens as real / baseline;
      return [Spike(TrendSpike, d.date, "", d.tokens as real, baseline, ratio,
                    SeverityFor(ratio, cfg.trendRatio))];
    }
    return [];
  }

  predicate NewestFirst(s: seq<Spike>) {
    forall i, j :: 0 <= i < j < |s| ==> Text.AtMost(s[j].timestamp, s[i].timestamp)
  }

  /** Into a newest-first list, before what is not newer. */
  function Place(x: Spike, s: seq<Spike>): seq<Spike> {
    if s == [] || Text.AtMost(s[0].timestamp, x.timestamp) then [x] + s else [s[0]] + Place(x, s[1..])
  }

  lemma {:induction false} PlaceKeeps(x: Spike, s: seq<Spike>)
    requires NewestFirst(s)
    ensures NewestFirst(Place(x, s)) && multiset(Place(x, s)) == multiset(s) + multiset{x}
    ensures Place(x, s)[0] == x || (s != [] && Place(x, s)[0] == s[0])
    decreases |s|
  {
    if s == [] {
    } else if Text.AtMost(s[0].timestamp, x.timestamp) {
      forall i | 0 <= i < |s|
        ensures Text.AtMost(s[i].timestamp, x.timestamp)
      {
        if i > 0 {
          Text.AtMostTransitive(s[i].timestamp, s[0].timestamp, x.timestamp);
        }
      }
    } else {
      PlaceKeeps(x, s[1..]);
      var rest := Place(x, s[1..]);
      Text.LessTotal(s[0].timestamp, x.timestamp);
      forall i | 0 <= i < |rest|
        ensures Text.AtMost(rest[i].timestamp, s[0].timestamp)
      {
        if i > 0 {
          Text.AtMostTransitive(rest[i].timestamp, rest[0].timestamp, s[0].timestamp);
        }
      }
      assert s == [s[0]] + s[1..];
    }
  }

  /** `sort.Slice` by timestamp, newest first. */
  method SortNewestFirst(all: seq<Spike>) returns (out: seq<Spike>)
    ensures NewestFirst(out) && multiset(out) == multiset(all)
  {
    out := [];
    for i := 0 to |all|
      invariant NewestFirst(out) && multiset(out) == multiset(all[..i])
    {
      PlaceKeeps(all[i], out);
      out := Place(all[i], out);
      assert all[..i + 1] == all[..i] + [all[i]];
    }
    assert all[..|all|] == all;
  }

  /** Both detectors' spikes, each as often as found, newest first. Settings that are not positive
      are replaced by 20 sessions and the ratios 3 and 2. */
  method DetectSpikes(sessions: seq<SessionRecord>, days: seq<DayRecord>, config: Config) returns (out: seq<Spike>)
    ensures NewestFirst(out)
    ensures var cfg := Config(if config.windowN > 0 then config.windowN else 20,
                              if config.sessionRatio > 0.0 then config.sessionRatio else 3.0,
                              if config.trendRatio > 0.0 then config.trendRatio else 2.0);
            multiset(out) == multiset(AllSessionSpikes(sessions, cfg) + AllTrendSpikes(days, cfg))
  {
    var cfg := Defaulted(config);
    var a, _ := DetectSessionSpikes(sessions, cfg);
    var b, _ := DetectTrendSpikes(days, cfg);
    out := SortNewestFirst(a + b);
  }

  // --- Exactness ---

  lemma InSnoc(s: seq<nat>, x: nat, y: nat)
    ensures y in s + [x] <==> y in s || y == x
  {
  }

  lemma {:induction false} FlagIn(values: seq<real>, rule: Rule, k: nat, i: nat)
    requires k <= |values| && i < |values|
    ensures i in Flags(values, rule, k) <==> i < k && IsSpike(values, rule, i)
    decreases k
  {
    if k > 0 {
      FlagIn(values, rule, k - 1, i);
      var before := Flags(values, rule, k - 1);
      assert k - 1 !in before;
      if IsSpike(values, rule, k - 1) {
        InSnoc(before, k - 1, i);
      }
    }
  }

  /** The flags are exactly the indices that pass the test. */
  lemma FlagsExact(values: seq<real>, rule: Rule, i: nat)
    requires i < |values|
    ensures i in Detected(values, rule) <==> |values| >= rule.history && IsSpike(values, rule, i)
  {
    FlagIn(values, rule, |values|, i);
  }

  lemma {:induction false} FlagsIncrease(values: seq<real>, rule: Rule, k: nat, a: nat, b: nat)
    requires k <= |values| && a < b < |Flags(values, rule, k)|
    ensures Flags(values, rule, k)[a] < Flags(values, rule, k)[b]
    decreases k
  {
    var before := Flags(values, rule, k - 1);
    if b < |before| {
      FlagsIncrease(values, rule, k - 1, a, b);
    } else {
      assert before[a] in before;
    }
  }

  /** The code's session spikes are the flagged sessions, in order, with the figures of each. */
  lemma {:induction false} SessionSpikesAreFlags(sessions: seq<SessionRecord>, cfg: Config, k: nat)
    requires cfg.windowN > 0 && k <= |sessions|
    ensures var flags := Flags(Costs(sessions), SessionRule(cfg), k);
            && |SessionSpikes(sessions, cfg, k)| == |flags|
            && forall n :: 0 <= n < |flags| ==>
                             && flags[n] < k
                             && SessionSpikes(sessions, cfg, k)[n] == SessionSpikeAt(sessions, cfg, flags[n])
    decreases k
  {
    if k > 0 {
      SessionSpikesAreFlags(sessions, cfg, k - 1);
      var spikes, flags := SessionSpikes(sessions, cfg, k - 1), Flags(Costs(sessions), SessionRule(cfg), k - 1);
      if IsSpike(Costs(sessions), SessionRule(cfg), k - 1) {
        assert SessionSpikes(sessions, cfg, k) == spikes + [SessionSpikeAt(sessions, cfg, k - 1)];
        assert Flags(Costs(sessions), SessionRule(cfg), k) == flags + [k - 1];
      } else {
        assert SessionSpikes(sessions, cfg, k) == spikes;
        assert Flags(Costs(sessions), SessionRule(cfg), k) == flags;
      }
    }
  }

  lemma {:induction false} TrendSpikesAreFlags(days: seq<DayRecord>, cfg: Config, k: nat)
    requires k <= |days|
    ensures var flags := Flags(Tokens(days), TrendRule(cfg), k);
            && |TrendSpikes(days, cfg, k)| == |flags|
            && forall n :: 0 <= n < |flags| ==>
                             flags[n] < k && TrendSpikes(days, cfg, k)[n] == TrendSpikeAt(days, cfg, flags[n])
    decreases k
  {
    if k > 0 {
      TrendSpikesAreFlags(days, cfg, k - 1);
    }
  }

  lemma SessionFlag(sessions: seq<SessionRecord>, cfg: Config, i: nat)
    requires cfg.windowN > 0
    ensures i in Detected(Costs(sessions), SessionRule(cfg)) <==>
              && i < |sessions| && |sessions| >= 3 && i >= 1
              && var m := Median(Costs(sessions)[if i < cfg.windowN then 0 else i - cfg.windowN..i]);
                 m > 0.0 && sessions[i].cost >= m * cfg.sessionRatio
  {
    if i < |sessions| {
      FlagsExact(Costs(sessions), SessionRule(cfg), i);
    }
  }

  lemma DayFlag(days: seq<DayRecord>, cfg: Config, i: nat)
    ensures i in Detected(Tokens(days), TrendRule(cfg)) <==>
              && i < |days| && |days| >= 4 && i >= 3
              && var m := Median(Tokens(days)[if i < 7 then 0 else i - 7..i]);
                 m > 0.0 && days[i].tokens as real >= m * cfg.trendRatio
  {
    if i < |days| {
      FlagsExact(Tokens(days), TrendRule(cfg), i);
    }
  }

  /** What the n-th spike says of the session it reports. */
  lemma SessionReported(sessions: seq<SessionRecord>, cfg: Config, at: seq<nat>, n: nat, i: nat, spike: Spike)
    requires cfg.windowN > 0 && at == Detected(Costs(sessions), SessionRule(cfg)) && n < |at| && i == at[n]
    requires n < |AllSessionSpikes(sessions, cfg)| ==> spike == AllSessionSpikes(sessions, cfg)[n]
    ensures n < |AllSessionSpikes(sessions, cfg)| && i < |sessions|
    ensures var m := Median(Costs(sessions)[if i < cfg.windowN then 0 else i - cfg.windowN..i]);
            && m > 0.0 && spike.kind == SessionSpike
            && spike.timestamp == sessions[i].endedAt && spike.project == sessions[i].project
            && spike.value == sessions[i].cost && spike.baseline == m && spike.ratio == sessions[i].cost / m
  {
    assert i in at;
    SessionFlag(sessions, cfg, i);
    SessionSpikesAreFlags(sessions, cfg, |sessions|);
    assert spike == SessionSpikeAt(sessions, cfg, i);
  }

  lemma SessionsFlagged(sessions: seq<SessionRecord>, cfg: Config, at: seq<nat>)
    requires cfg.windowN > 0 && at == Detected(Costs(sessions), SessionRule(cfg))
    ensures forall m, n :: 0 <= m < n < |at| ==> at[m] < at[n]
    ensures forall i: nat :: i in at <==>
              && i < |sessions| && |sessions| >= 3 && i >= 1
              && var m := Median(Costs(sessions)[if i < cfg.windowN then 0 else i - cfg.windowN..i]);
                 m > 0.0 && sessions[i].cost >= m * cfg.sessionRatio
    ensures |AllSessionSpikes(sessions, cfg)| == |at|
  {
    forall i: nat
      ensures i in at <==>
                && i < |sessions| && |sessions| >= 3 && i >= 1
                && var m := Median(Costs(sessions)[if i < cfg.windowN then 0 else i - cfg.windowN..i]);
                   m > 0.0 && sessions[i].cost >= m * cfg.sessionRatio
    {
      SessionFlag(sessions, cfg, i);
    }
    if |sessions| >= 3 {
      SessionSpikesAreFlags(sessions, cfg, |sessions|);
      forall m, n | 0 <= m < n < |at|
        ensures at[m] < at[n]
      {
        FlagsIncrease(Costs(sessions), SessionRule(cfg), |sessions|, m, n);
      }
    }
  }

  /** What the n-th spike says of the day it reports. */
  lemma DayReported(days: seq<DayRecord>, cfg: Config, at: seq<nat>, n: nat, i: nat, spike: Spike)
    requires at == Detected(Tokens(days), TrendRule(cfg)) && n < |at| && i == at[n]
    requires n < |AllTrendSpikes(days, cfg)| ==> spike == AllTrendSpikes(days, cfg)[n]
    ensures n < |AllTrendSpikes(days, cfg)| && i < |days|
    ensures var m := Median(Tokens(days)[if i < 7 then 0 else i - 7..i]);
            && m > 0.0 && spike.kind == TrendSpike && spike.timestamp == days[i].date && spike.project == ""
            && spike.value == days[i].tokens as real && spike.baseline == m && spike.ratio == days[i].tokens as real / m
  {
    assert i in at;
    DayFlag(days, cfg, i);
    TrendSpikesAreFlags(days, cfg, |days|);
    assert spike == TrendSpikeAt(days, cfg, i);
  }

  lemma DaysFlagged(days: seq<DayRecord>, cfg: Config, at: seq<nat>)
    requires at == Detected(Tokens(days), TrendRule(cfg))
    ensures forall m, n :: 0 <= m < n < |at| ==> at[m] < at[n]
    ensures forall i: nat :: i in at <==>
              && i < |days| && |days| >= 4 && i >= 3
              && var m := Median(Tokens(days)[if i < 7 then 0 else i - 7..i]);
                 m > 0.0 && days[i].tokens as real >= m * cfg.trendRatio
    ensures |AllTrendSpikes(days, cfg)| == |at|
  {
    forall i: nat
      ensures i in at <==>
                && i < |days| && |days| >= 4 && i >= 3
                && var m := Median(Tokens(days)[if i < 7 then 0 else i - 7..i]);
                   m > 0.0 && days[i].tokens as real >= m * cfg.trendRatio
    {
      DayFlag(days, cfg, i);
    }
    if |days| >= 4 {
      TrendSpikesAreFlags(days, cfg, |days|);
      forall m, n | 0 <= m < n < |at|
        ensures at[m] < at[n]
      {
        FlagsIncrease(Tokens(days), TrendRule(cfg), |days|, m, n);
      }
    }
  }

  lemma QuotientBand(value: real, baseline: real, bound: real)
    requires baseline > 0.0
    ensures value / baseline * baseline == value
    ensures value / baseline >= bound <==> value >= bound * baseline
  {
    var q := value / baseline;
    assert q * baseline == value;
    if q >= bound {
      assert (q - bound) * baseline >= 0.0;
    } else {
      assert (bound - q) * baseline > 0.0;
    }
  }

  /** Where the severity's bounds on the ratio lie on the value. */
  lemma Bands(value: real, baseline: real, r: real)
    requires baseline > 0.0 && value >= baseline * r
    ensures var ratio := value / baseline;
            && ratio * baseline == value && ratio >= r
            && (SeverityFor(ratio, r) == High <==> value >= r * 3.0 * baseline)
            && (SeverityFor(ratio, r) == Low <==> value < r * 3.0 * baseline && value < r * 1.5 * baseline)
  {
    QuotientBand(value, baseline, r);
    QuotientBand(value, baseline, r * 3.0);
    QuotientBand(value, baseline, r * 1.5);
  }

  /** A session's figures fit together: the ratio is the value over the baseline and meets the
      threshold, and the severity says how many thresholds' worth of baseline the value reaches. */
  lemma SessionFigures(sessions: seq<SessionRecord>, cfg: Config, i: nat)
    requires cfg.windowN > 0 && i < |sessions| && IsSpike(Costs(sessions), SessionRule(cfg), i)
    ensures var s, r := SessionSpikeAt(sessions, cfg, i), cfg.sessionRatio;
            && s.baseline > 0.0 && s.ratio * s.baseline == s.value && s.ratio >= r
            && (s.severity == High <==> s.value >= r * 3.0 * s.baseline)
            && (s.severity == Low <==> s.value < r * 3.0 * s.baseline && s.value < r * 1.5 * s.baseline)
  {
    var s, r := SessionSpikeAt(sessions, cfg, i), cfg.sessionRatio;
    Bands(s.value, s.baseline, r);
  }

  lemma TrendFigures(days: seq<DayRecord>, cfg: Config, i: nat)
    requires i < |days| && IsSpike(Tokens(days), TrendRule(cfg), i)
    ensures var s, r := TrendSpikeAt(days, cfg, i), cfg.trendRatio;
            && s.baseline > 0.0 && s.ratio * s.baseline == s.value && s.ratio >= r
            && (s.severity == High <==> s.value >= r * 3.0 * s.baseline)
            && (s.severity == Low <==> s.value < r * 3.0 * s.baseline && s.value < r * 1.5 * s.baseline)
  {
    var s, r := TrendSpikeAt(days, cfg, i), cfg.trendRatio;
    Bands(s.value, s.baseline, r);
  }

  // --- Earlier verdicts are final ---

  lemma {:induction false} FlagsSame(xs: seq<real>, ys: seq<real>, rule: Rule, k: nat)
    requires k <= |xs| && k <= |ys|
    requires forall i :: 0 <= i < k ==> (IsSpike(xs, rule, i) <==> IsSpike(ys, rule, i))
    ensures Flags(xs, rule, k) == Flags(ys, rule, k)
    decreases k
  {
    if k > 0 {
      FlagsSame(xs, ys, rule, k - 1);
    }
  }

  lemma FlagsPrefix(xs: seq<real>, ys: seq<real>, rule: Rule, k: nat)
    requires k <= |xs|
    ensures Flags(xs + ys, rule, k) == Flags(xs, rule, k)
  {
    forall i | 0 <= i < k
      ensures IsSpike(xs + ys, rule, i) <==> IsSpike(xs, rule, i)
    {
      SameWindow(xs, ys, rule, i);
    }
    FlagsSame(xs + ys, xs, rule, k);
  }

  lemma {:induction false} FlagsGrow(values: seq<real>, rule: Rule, k: nat, n: nat)
    requires k <= n <= |values|
    ensures Flags(values, rule, k) <= Flags(values, rule, n)
    decreases n
  {
    if k < n {
      FlagsGrow(values, rule, k, n - 1);
    }
  }

  /** Once a history is long enough to be judged, appending to it only appends verdicts. */
  lemma AppendingKeepsVerdicts(xs: seq<real>, ys: seq<real>, rule: Rule)
    requires |xs| >= rule.history
    ensures Detected(xs, rule) <= Detected(xs + ys, rule)
  {
    FlagsPrefix(xs, ys, rule, |xs|);
    FlagsGrow(xs + ys, rule, |xs|, |xs + ys|);
  }

  /** ... and the verdict on each earlier value, and its baseline, stay what they were. */
  lemma AppendingKeepsVerdict(xs: seq<real>, ys: seq<real>, rule: Rule, i: nat)
    requires |xs| >= rule.history && i < |xs|
    ensures Baseline(xs + ys, rule, i) == Baseline(xs, rule, i)
    ensures i in Detected(xs + ys, rule) <==> i in Detected(xs, rule)
  {
    SameWindow(xs, ys, rule, i);
    FlagsExact(xs, rule, i);
    FlagsExact(xs + ys, rule, i);
  }

  lemma SameWindow(xs: seq<real>, ys: seq<real>, rule: Rule, i: nat)
    requires i < |xs|
    ensures Baseline(xs + ys, rule, i) == Baseline(xs, rule, i)
    ensures IsSpike(xs + ys, rule, i) <==> IsSpike(xs, rule, i)
  {
    assert (xs + ys)[WindowStart(i, rule.window)..i] == xs[WindowStart(i, rule.window)..i];
  }

  // --- Scaling ---

  lemma ProductScales(c: real, b: real, r: real)
    ensures Times(c, b) * r == Times(c, b * r)
  {
  }

  lemma QuotientScales(c: real, v: real, b: real)
    requires c > 0.0 && b > 0.0
    ensures Times(c, b) > 0.0 && Times(c, v) / Times(c, b) == v / b
  {
    var q := v / b;
    assert q * b == v;
    assert Times(c, v) == q * Times(c, b);
  }

  lemma PositiveScales(c: real, b: real)
    requires c > 0.0
    ensures Times(c, b) > 0.0 <==> b > 0.0
  {
    ScaleOrder(c, b, 0.0);
  }

  lemma BaselineScales(c: real, values: seq<real>, rule: Rule, i: nat)
    requires c > 0.0 && i < |values|
    ensures Baseline(Scaled(c, values), rule, i) == Times(c, Baseline(values, rule, i))
  {
    var start := WindowStart(i, rule.window);
    assert Scaled(c, values)[start..i] == Scaled(c, values[start..i]);
    MedianScaled(c, values[start..i]);
  }

  lemma SpikeScales(c: real, values: seq<real>, rule: Rule, i: nat)
    requires c > 0.0 && i < |values|
    ensures IsSpike(Scaled(c, values), rule, i) <==> IsSpike(values, rule, i)
  {
    var b := Baseline(values, rule, i);
    BaselineScales(c, values, rule, i);
    PositiveScales(c, b);
    ProductScales(c, b, rule.ratio);
    ScaleOrder(c, b * rule.ratio, values[i]);
  }

  /** The currency does not matter: multiplying every value by c > 0 keeps which are flagged. */
  lemma ScalingKeepsVerdicts(c: real, values: seq<real>, rule: Rule)
    requires c > 0.0
    ensures Detected(Scaled(c, values), rule) == Detected(values, rule)
  {
    forall i | 0 <= i < |values|
      ensures IsSpike(Scaled(c, values), rule, i) <==> IsSpike(values, rule, i)
    {
      SpikeScales(c, values, rule, i);
    }
    FlagsSame(Scaled(c, values), values, rule, |values|);
  }

  /** ... and the ratio of each, hence its severity, which depends on the ratio alone. */
  lemma ScalingKeepsRatio(c: real, values: seq<real>, rule: Rule, i: nat)
    requires c > 0.0 && i < |values| && i in Detected(values, rule)
    ensures Baseline(values, rule, i) > 0.0 && Baseline(Scaled(c, values), rule, i) > 0.0
    ensures Scaled(c, values)[i] / Baseline(Scaled(c, values), rule, i) == values[i] / Baseline(values, rule, i)
  {
    FlagsExact(values, rule, i);
    BaselineScales(c, values, rule, i);
    QuotientScales(c, values[i], Baseline(values, rule, i));
  }

  // --- One costly session ---

  lemma QuotientFalls(v: real, b: real, b': real)
    requires 0.0 < b <= b' && v >= 0.0
    ensures v / b' <= v / b
  {
    var q := v / b;
    assert q * b == v && q >= 0.0;
    assert q * (b' - b) >= 0.0;
    assert q * b' >= v;
  }

  lemma ProductGrows(b: real, b': real, r: real)
    requires b <= b' && r >= 0.0
    ensures b * r <= b' * r
  {
  }

  /** Raising one value never lowers a later baseline. So where the baseline was already positive
      it adds no flag, and raises no ratio. (A baseline that was not positive may become so.) */
  lemma RaisingOneValue(values: seq<real>, j: nat, higher: real, rule: Rule, i: nat)
    requires j < i < |values| && values[j] <= higher && rule.ratio > 0.0
    ensures Baseline(values, rule, i) <= Baseline(values[j := higher], rule, i)
    ensures Baseline(values, rule, i) > 0.0 ==>
              && (IsSpike(values[j := higher], rule, i) ==> IsSpike(values, rule, i))
              && (values[i] >= 0.0 ==>
                    values[i] / Baseline(values[j := higher], rule, i) <= values[i] / Baseline(values, rule, i))
  {
    var start := WindowStart(i, rule.window);
    var raised := values[j := higher];
    MedianMonotone(values[start..i], raised[start..i]);
    assert raised[i] == values[i];
    HigherBaseline(values, raised, rule, i, Baseline(values, rule, i), Baseline(raised, rule, i));
  }

  lemma HigherBaseline(values: seq<real>, raised: seq<real>, rule: Rule, i: nat, b: real, b': real)
    requires i < |values| == |raised| && raised[i] == values[i] && rule.ratio > 0.0
    requires b == Baseline(values, rule, i) && b' == Baseline(raised, rule, i) && b <= b'
    ensures b > 0.0 ==> (IsSpike(raised, rule, i) ==> IsSpike(values, rule, i))
    ensures b > 0.0 && values[i] >= 0.0 ==> values[i] / b' <= values[i] / b
  {
    if b > 0.0 {
      ProductGrows(b, b', rule.ratio);
      if values[i] >= 0.0 {
        QuotientFalls(values[i], b, b');
      }
    }
  }

  /** A given raise adds a flag where the baseline was not positive and the raised one is, with
      enough predecessors and a value that meets the test against it. */
  lemma RaiseAddsFlag(values: seq<real>, j: nat, higher: real, rule: Rule, i: nat)
    requires j < i < |values| && values[j] <= higher && rule.ratio > 0.0
    ensures IsSpike(values[j := higher], rule, i) && !IsSpike(values, rule, i) <==>
              && Baseline(values, rule, i) <= 0.0 < Baseline(values[j := higher], rule, i)
              && i - WindowStart(i, rule.window) >= rule.least
              && values[i] >= Baseline(values[j := higher], rule, i) * rule.ratio
  {
    RaisingOneValue(values, j, higher, rule, i);
  }

  predicate Adds(values: seq<real>, j: nat, higher: real, rule: Rule, i: nat)
    requires j < i < |values|
  {
    && values[j] <= higher
    && i !in Detected(values, rule)
    && i in Detected(values[j := higher], rule)
  }

  /** Read off the history alone: raising an earlier value can add a flag on a later one exactly if
      the history and the window are long enough, the earlier value is in the window, the later one
      is positive, and the window's median is not positive but would be with the earlier value above
      all others. */
  lemma RaiseAddsFlagExactly(values: seq<real>, j: nat, rule: Rule, i: nat)
    requires j < i < |values| && rule.ratio > 0.0
    ensures var start := WindowStart(i, rule.window);
            var window := values[start..i];
            (exists higher :: Adds(values, j, higher, rule, i)) <==>
              && |values| >= rule.history && i - start >= rule.least
              && start <= j && values[i] > 0.0
              && Median(window) <= 0.0 < Median(window[j - start := Above(window)])
  {
    var start := WindowStart(i, rule.window);
    var window := values[start..i];
    forall higher | Adds(values, j, higher, rule, i)
      ensures |values| >= rule.history && i - start >= rule.least && start <= j && values[i] > 0.0
      ensures Median(window) <= 0.0 < Median(window[j - start := Above(window)])
    {
      AddingNeeds(values, window, j, start, higher, rule, i);
    }
    if && |values| >= rule.history && i - start >= rule.least
       && start <= j && values[i] > 0.0
       && Median(window) <= 0.0 < Median(window[j - start := Above(window)])
    {
      var higher := RaiseThatAdds(values, window, j, start, rule, i, Above(window));
    }
  }

  lemma RaisedWindow(values: seq<real>, j: nat, higher: real, start: nat, i: nat)
    requires start <= i < |values| && j < i
    ensures values[j := higher][start..i] ==
            if start <= j then values[start..i][j - start := higher] else values[start..i]
  {
  }

  lemma AddedMeets(values: seq<real>, j: nat, higher: real, rule: Rule, i: nat)
    requires j < i < |values| && rule.ratio > 0.0 && Adds(values, j, higher, rule, i)
    ensures |values| >= rule.history && i - WindowStart(i, rule.window) >= rule.least && values[i] > 0.0
    ensures Baseline(values, rule, i) <= 0.0 < Baseline(values[j := higher], rule, i)
  {
    FlagsExact(values, rule, i);
    FlagsExact(values[j := higher], rule, i);
    RaiseAddsFlag(values, j, higher, rule, i);
    ProductPositive(Baseline(values[j := higher], rule, i), rule.ratio);
  }

  lemma AddedInWindow(values: seq<real>, j: nat, higher: real, rule: Rule, i: nat)
    requires j < i < |values| && Baseline(values, rule, i) != Baseline(values[j := higher], rule, i)
    ensures WindowStart(i, rule.window) <= j
  {
    RaisedWindow(values, j, higher, WindowStart(i, rule.window), i);
  }

  lemma AddingNeeds(values: seq<real>, window: seq<real>, j: nat, start: nat, higher: real, rule: Rule, i: nat)
    requires j < i < |values| && rule.ratio > 0.0 && Adds(values, j, higher, rule, i)
    requires start == WindowStart(i, rule.window) && window == values[start..i]
    ensures |values| >= rule.history && i - start >= rule.least && start <= j && values[i] > 0.0
    ensures Median(window) <= 0.0 < Median(window[j - start := Above(window)])
  {
    AddedMeets(values, j, higher, rule, i);
    AddedInWindow(values, j, higher, rule, i);
    RaisedBaseline(values, window, j, higher, rule, i);
    HighestRaise(window, j - start, higher);
  }

  lemma ProductPositive(b: real, r: real)
    requires b > 0.0 && r > 0.0
    ensures b * r > 0.0
  {
  }

  lemma RaisedBaseline(values: seq<real>, window: seq<real>, j: nat, higher: real, rule: Rule, i: nat)
    requires i < |values| && WindowStart(i, rule.window) <= j < i
    requires window == values[WindowStart(i, rule.window)..i]
    ensures Baseline(values[j := higher], rule, i) == Median(window[j - WindowStart(i, rule.window) := higher])
  {
    RaisedWindow(values, j, higher, WindowStart(i, rule.window), i);
  }

  lemma RaiseThatAdds(values: seq<real>, window: seq<real>, j: nat, start: nat, rule: Rule, i: nat, top: real)
    returns (higher: real)
    requires start <= j < i < |values| && start == WindowStart(i, rule.window) && window == values[start..i]
    requires rule.ratio > 0.0 && |values| >= rule.history && i - start >= rule.least && values[i] > 0.0
    requires Median(window) <= 0.0 < Median(window[j - start := top])
    ensures Adds(values, j, higher, rule, i)
  {
    var m;
    higher, m := LowRaise(window, j - start, top, values[i], rule.ratio);
    RaisedBaseline(values, window, j, higher, rule, i);
    assert values[j] == window[j - start];
    LowBaselineAdds(values, values[j := higher], rule, i, m);
  }

  /** A raise that makes the median positive without lifting its multiple above `v`. */
  lemma LowRaise(window: seq<real>, j: nat, top: real, v: real, r: real) returns (higher: real, m: real)
    requires j < |window| && v > 0.0 && r > 0.0
    requires Median(window) <= 0.0 < Median(window[j := top])
    ensures higher >= window[j] && m == Median(window[j := higher])
    ensures 0.0 < m && m * r <= v
  {
    var c := Quotient(v, r);
    higher := SmallRaise(window, j, top, c);
    m := Median(window[j := higher]);
    ProductGrows(m, c, r);
  }

  lemma Quotient(v: real, r: real) returns (c: real)
    requires v > 0.0 && r > 0.0
    ensures c > 0.0 && c * r == v
  {
    c := v / r;
  }

  lemma LowBaselineAdds(values: seq<real>, raised: seq<real>, rule: Rule, i: nat, m: real)
    requires i < |values| == |raised| && raised[i] == values[i] && |values| >= rule.history
    requires i - WindowStart(i, rule.window) >= rule.least
    requires Baseline(values, rule, i) <= 0.0 < m && m == Baseline(raised, rule, i)
    requires m * rule.ratio <= values[i]
    ensures i !in Detected(values, rule) && i in Detected(raised, rule)
  {
    assert IsSpike(raised, rule, i) && !IsSpike(values, rule, i);
    FlagsExact(values, rule, i);
    FlagsExact(raised, rule, i);
  }

  /** The guard matters: over a baseline of zero, a raise can add a flag. */
  lemma RaisingFromZero()
    ensures var rule, values := Rule(3, 1, 1, 3.0), [0.0, 0.0, 9.0];
            !IsSpike(values, rule, 2) && IsSpike(values[1 := 1.0], rule, 2)
  {
    assert [0.0, 0.0, 9.0][1..2] == [0.0];
    assert [0.0, 1.0, 9.0][1..2] == [1.0];
    assert [0.0, 0.0, 9.0][1 := 1.0] == [0.0, 1.0, 9.0];
    SingleMedian(0.0);
    SingleMedian(1.0);
  }

  /** A minority of outliers among the predecessors cannot carry the baseline out of the range of
      the others. */
  lemma BaselineRobust(usual: seq<real>, values: seq<real>, rule: Rule, i: nat, lo: real, hi: real)
    requires |usual| == |values| && i < |values|
    requires var start := WindowStart(i, rule.window);
             && BoundsKept(usual[start..i], values[start..i], lo, hi)
             && 2 * Changed(usual[start..i], values[start..i]) < i - start
    ensures lo <= Baseline(values, rule, i) <= hi
  {
    var start := WindowStart(i, rule.window);
    MedianRobust(usual[start..i], values[start..i], lo, hi);
  }
}
