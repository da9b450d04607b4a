/** Token prices by model family (internal/transcript/pricing.go). Money is in real numbers. */
module Pricing {
  import opened Text

  /** Tokens of the four kinds. */
  datatype Usage = Usage(input: int, output: int, cacheRead: int, cacheWrite: int)

  const NOTHING := Usage(0, 0, 0, 0)

  function AddUsage(a: Usage, b: Usage): Usage {
    Usage(a.input + b.input, a.output + b.output, a.cacheRead + b.cacheRead, a.cacheWrite + b.cacheWrite)
  }

  predicate Clean(u: Usage) {
    u.input >= 0 && u.output >= 0 && u.cacheRead >= 0 && u.cacheWrite >= 0
  }

  datatype Prices = Prices(inputPerM: real, outputPerM: real, cacheReadPerM: real, cacheWritePerM: real)

  const OPUS := Prices(15.0, 75.0, 1.5, 18.75)
  const SONNET := Prices(3.0, 15.0, 0.3, 3.75)
  const HAIKU := Prices(1.0, 5.0, 0.1, 1.25)

  function PricingFor(model: string): Prices {
    var m := ToLower(model);
    if Occurs(m, "opus") then OPUS
    else if Occurs(m, "haiku") then HAIKU
    else SONNET
  }

  function ClampTokens(v: int): nat {
    if v < 0 then 0 else v
  }

  function Clamped(u: Usage): (r: Usage)
    ensures Clean(r) && (Clean(u) ==> r == u)
  {
    Usage(ClampTokens(u.input), ClampTokens(u.output), ClampTokens(u.cacheRead), ClampTokens(u.cacheWrite))
  }

  const PER_M := 1_000_000.0

  function CostAt(p: Prices, u: Usage): real {
    (ClampTokens(u.input) as real * p.inputPerM
     + ClampTokens(u.output) as real * p.outputPerM
     + ClampTokens(u.cacheRead) as real * p.cacheReadPerM
     + ClampTokens(u.cacheWrite) as real * p.cacheWritePerM) / PER_M
  }

  function ComputeCost(model: string, u: Usage): real {
    CostAt(PricingFor(model), u)
  }

  // --- The three tables are one table, times 1, 3 and 15 ---

  /** The cost in the cheapest table. */
  function Base(u: Usage): real {
    (u.input as real + u.output as real * 5.0 + u.cacheRead as real * 0.1 + u.cacheWrite as real * 1.25) / PER_M
  }

  function Scaled(p: Prices, x: real): real {
    if p == OPUS then 15.0 * x else if p == SONNET then 3.0 * x else x
  }

  lemma TablesDiffer()
    ensures OPUS != SONNET && OPUS != HAIKU && SONNET != HAIKU
  {
    assert OPUS.inputPerM == 15.0 && SONNET.inputPerM == 3.0 && HAIKU.inputPerM == 1.0;
  }

  lemma TableCost(p: Prices, u: Usage)
    requires p == OPUS || p == SONNET || p == HAIKU
    ensures CostAt(p, u) == Scaled(p, Base(Clamped(u)))
  {
    TablesDiffer();
    if p == OPUS {
      assert CostAt(p, u) == CostAt(Prices(15.0, 75.0, 1.5, 18.75), u);
    } else if p == SONNET {
      assert CostAt(p, u) == CostAt(Prices(3.0, 15.0, 0.3, 3.75), u);
    } else {
      assert CostAt(p, u) == CostAt(Prices(1.0, 5.0, 0.1, 1.25), u);
    }
  }

  /** A cost is the base cost of the clamped tokens, times 15, 3 or 1. */
  lemma CostIsScaledBase(model: string, u: Usage)
    ensures ComputeCost(model, u) == Scaled(PricingFor(model), Base(Clamped(u)))
  {
    TableCost(PricingFor(model), u);
  }

  lemma LowerCaseNames()
    ensures forall k :: 0 <= k < |"opus"| ==> 'a' <= "opus"[k] <= 'z'
    ensures forall k :: 0 <= k < |"haiku"| ==> 'a' <= "haiku"[k] <= 'z'
  {
  }

  /** The price list, per million tokens; negative numbers of tokens cost nothing. Models that
      mention neither name are priced as the middle one. */
  lemma CostExactly(model: string, u: Usage, i: real, o: real, r: real, w: real)
    requires i == if u.input > 0 then u.input as real else 0.0
    requires o == if u.output > 0 then u.output as real else 0.0
    requires r == if u.cacheRead > 0 then u.cacheRead as real else 0.0
    requires w == if u.cacheWrite > 0 then u.cacheWrite as real else 0.0
    ensures ComputeCost(model, u) ==
            if Mentions(model, "opus") then (i * 15.0 + o * 75.0 + r * 1.5 + w * 18.75) / 1_000_000.0
            else if Mentions(model, "haiku") then (i * 1.0 + o * 5.0 + r * 0.1 + w * 1.25) / 1_000_000.0
            else (i * 3.0 + o * 15.0 + r * 0.3 + w * 3.75) / 1_000_000.0
  {
    LowerCaseNames();
    MentionsLower(model, "opus");
    MentionsLower(model, "haiku");
    assert ClampTokens(u.input) as real == i && ClampTokens(u.output) as real == o;
    assert ClampTokens(u.cacheRead) as real == r && ClampTokens(u.cacheWrite) as real == w;
  }

  lemma BaseAdds(a: Usage, b: Usage)
    ensures Base(AddUsage(a, b)) == Base(a) + Base(b)
  {
  }

  lemma BaseNotNegative(u: Usage)
    requires Clean(u)
    ensures Base(u) >= 0.0
  {
  }
}
