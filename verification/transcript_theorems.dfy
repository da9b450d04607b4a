/** The two transcript readers against each other: where they agree, and exactly how far apart they
    are where they do not (internal/transcript/transcript.go, breakdown.go, pricing.go). */
module TranscriptTheorems {
  import Text
  import opened Options
  import opened Pricing
  import opened Transcripts

  // --- Turns and tokens, on any lines ---

  function TurnTokens(turns: seq<Turn>): Usage {
    if turns == [] then NOTHING else AddUsage(TurnTokens(turns[..|turns| - 1]), turns[|turns| - 1].tokens)
  }

  /** A line that only the summary counts: its content is not a list of blocks. */
  predicate Odd(l: Line) {
    l.Line? && l.kind == "assistant" && l.message.OddContent?
  }

  /** A line that only the breakdown counts: its message is JSON null. */
  predicate Nullish(l: Line) {
    l.Line? && l.kind == "assistant" && l.message.Null?
  }

  function Odds(lines: seq<Line>): nat {
    if lines == [] then 0 else Odds(lines[..|lines| - 1]) + (if Odd(lines[|lines| - 1]) then 1 else 0)
  }

  function Nulls(lines: seq<Line>): nat {
    if lines == [] then 0 else Nulls(lines[..|lines| - 1]) + (if Nullish(lines[|lines| - 1]) then 1 else 0)
  }

  function OddTokensOf(l: Line): Usage {
    if Odd(l) then Spent(SummaryMessage(l).value) else NOTHING
  }

  function OddTokens(lines: seq<Line>): Usage {
    if lines == [] then NOTHING else AddUsage(OddTokens(lines[..|lines| - 1]), OddTokensOf(lines[|lines| - 1]))
  }

  lemma {:induction false} TurnsAccounted(lines: seq<Line>)
    ensures |Messages(lines, SummaryMessage)| + Nulls(lines) == |TurnsOf(lines)| + Odds(lines)
    decreases |lines|
  {
    if lines != [] {
      TurnsAccounted(lines[..|lines| - 1]);
    }
  }

  lemma TurnTokensSnoc(turns: seq<Turn>, t: Turn)
    ensures TurnTokens(turns + [t]) == AddUsage(TurnTokens(turns), t.tokens)
  {
    assert (turns + [t])[..|turns|] == turns;
  }

  lemma AddNothing(u: Usage)
    ensures AddUsage(u, NOTHING) == u
  {
  }

  /** One line more, for each of the three sums. */
  lemma LineTokens(l: Line, total: Usage, turns: Usage, odd: Usage)
    requires total == AddUsage(turns, odd)
    ensures (if SummaryMessage(l).Some? then AddUsage(total, Spent(SummaryMessage(l).value)) else total)
            == AddUsage(if TurnMessage(l).Some? then AddUsage(turns, Spent(TurnMessage(l).value)) else turns,
                        AddUsage(odd, OddTokensOf(l)))
  {
  }

  lemma SummaryStep(lines: seq<Line>, l: Line, was: Usage, now: Usage)
    requires was == TotalSpent(Messages(lines, SummaryMessage))
            && now == TotalSpent(Messages(lines + [l], SummaryMessage))
    ensures now == if SummaryMessage(l).Some? then AddUsage(was, Spent(SummaryMessage(l).value)) else was
  {
    MessagesSnoc(lines, l, SummaryMessage);
    if SummaryMessage(l).Some? {
      MessageSnoc(Messages(lines, SummaryMessage), SummaryMessage(l).value);
    }
  }

  lemma TurnStep(lines: seq<Line>, l: Line, was: Usage, now: Usage)
    requires was == TurnTokens(TurnsOf(lines)) && now == TurnTokens(TurnsOf(lines + [l]))
    ensures now == if TurnMessage(l).Some? then AddUsage(was, Spent(TurnMessage(l).value)) else was
  {
    TurnsSnoc(lines, l);
    if TurnMessage(l).Some? {
      TurnTokensSnoc(TurnsOf(lines), TurnFor(|TurnsOf(lines)|, l.timestamp, TurnMessage(l).value));
    }
  }

  lemma OddStep(lines: seq<Line>, l: Line, was: Usage, now: Usage)
    requires was == OddTokens(lines) && now == OddTokens(lines + [l])
    ensures now == AddUsage(was, OddTokensOf(l))
  {
    assert (lines + [l])[..|lines|] == lines;
  }

  /** The summary's tokens are those of the turns and of the odd lines. */
  lemma {:induction false} TokensAccounted(lines: seq<Line>, total: Usage, turns: Usage, odd: Usage)
    requires total == TotalSpent(Messages(lines, SummaryMessage))
    requires turns == TurnTokens(TurnsOf(lines)) && odd == OddTokens(lines)
    ensures total == AddUsage(turns, odd)
    decreases |lines|
  {
    if lines != [] {
      var before, l := lines[..|lines| - 1], lines[|lines| - 1];
      assert lines == before + [l];
      var x, y, z := TotalSpent(Messages(before, SummaryMessage)), TurnTokens(TurnsOf(before)), OddTokens(before);
      TokensAccounted(before, x, y, z);
      SummaryStep(before, l, x, total);
      TurnStep(before, l, y, turns);
      OddStep(before, l, z, odd);
      LineTokens(l, x, y, z);
    }
  }

  lemma OddIsClean(l: Line)
    ensures Clean(OddTokensOf(l))
  {
  }

  predicate NoOddTokens(lines: seq<Line>) {
    forall i :: 0 <= i < |lines| ==> OddTokensOf(lines[i]) == NOTHING
  }

  lemma NoOddTokensSnoc(lines: seq<Line>, l: Line)
    ensures NoOddTokens(lines + [l]) <==> NoOddTokens(lines) && OddTokensOf(l) == NOTHING
  {
    var more := lines + [l];
    assert more[|lines|] == l;
    assert forall i :: 0 <= i < |lines| ==> more[i] == lines[i];
  }

  lemma {:induction false} OddTokensClean(lines: seq<Line>, odd: Usage)
    requires odd == OddTokens(lines)
    ensures Clean(odd) && (odd == NOTHING <==> NoOddTokens(lines))
    decreases |lines|
  {
    if lines != [] {
      var before, l := lines[..|lines| - 1], lines[|lines| - 1];
      assert lines == before + [l];
      var was := OddTokens(before);
      OddTokensClean(before, was);
      OddIsClean(l);
      OddStep(before, l, was, odd);
      CleanSum(was, OddTokensOf(l), odd);
      NoOddTokensSnoc(before, l);
    }
  }

  lemma CleanSum(a: Usage, b: Usage, sum: Usage)
    requires Clean(a) && Clean(b) && sum == AddUsage(a, b)
    ensures Clean(sum) && (sum == NOTHING <==> a == NOTHING && b == NOTHING)
  {
    if a == NOTHING {
      NothingAdded(b);
    }
    if sum == NOTHING {
      NothingSummed(a, b);
    }
  }

  lemma NothingAdded(b: Usage)
    ensures AddUsage(NOTHING, b) == b
  {
  }

  lemma NothingSummed(a: Usage, b: Usage)
    requires Clean(a) && Clean(b) && AddUsage(a, b) == NOTHING
    ensures a == NOTHING && b == NOTHING
  {
    assert AddUsage(a, b).input == 0 && AddUsage(a, b).output == 0;
    assert AddUsage(a, b).cacheRead == 0 && AddUsage(a, b).cacheWrite == 0;
  }

  /** On any lines at all: the two turn counts agree exactly if as many null messages as odd
      contents occur, the token totals exactly if no odd line carries tokens. */
  lemma ReadersAgreeExactly(lines: seq<Line>, s: Summary, b: Breakdown)
    requires IsSummary(s, lines) && IsBreakdown(b, lines)
    ensures s.turns == b.turnCount <==> Nulls(lines) == Odds(lines)
    ensures s.tokens == TurnTokens(b.turns) <==> NoOddTokens(lines)
  {
    TurnsAccounted(lines);
    TokensAccounted(lines, s.tokens, TurnTokens(b.turns), OddTokens(lines));
    OddTokensClean(lines, OddTokens(lines));
    Surplus(s.tokens, TurnTokens(b.turns), OddTokens(lines));
  }

  lemma Surplus(total: Usage, turns: Usage, odd: Usage)
    requires total == AddUsage(turns, odd)
    ensures total == turns <==> odd == NOTHING
  {
  }

  // --- Duration ---

  /** The readers see the same times, unless a line with a time has a message that only the
      summary's decoder rejects. */
  predicate TimesShared(lines: seq<Line>) {
    forall i :: 0 <= i < |lines| && lines[i].Line? && lines[i].message.Broken? ==>
                  lines[i].timestamp == "" || lines[i].time.None?
  }

  lemma {:induction false} SameTimes(lines: seq<Line>)
    requires TimesShared(lines)
    ensures Times(lines, SummaryTime) == Times(lines, HeaderTime)
    decreases |lines|
  {
    if lines != [] {
      var n := |lines| - 1;
      assert forall i :: 0 <= i < n ==> lines[..n][i] == lines[i];
      SameTimes(lines[..n]);
    }
  }

  predicate SomeBefore(times: seq<int>) {
    exists i :: 0 <= i < |times| && times[i] < 0
  }

  predicate SomeAfter(times: seq<int>) {
    exists i :: 0 <= i < |times| && times[i] > 0
  }

  lemma SomeSnoc(before: seq<int>, t: int)
    ensures SomeBefore(before + [t]) <==> SomeBefore(before) || t < 0
    ensures SomeAfter(before + [t]) <==> SomeAfter(before) || t > 0
  {
    var times := before + [t];
    assert times[|before|] == t;
    if i :| 0 <= i < |before| && before[i] < 0 {
      assert times[i] < 0;
    }
    if i :| 0 <= i < |before| && before[i] > 0 {
      assert times[i] > 0;
    }
  }

  /** The end is unset if no time is after the zero time. Times before it make the start one of
      them; without any, a last time equal to it unsets the start again. */
  lemma {:induction false} StartAndEndSigns(times: seq<int>)
    ensures End(times) >= 0 && (End(times) > 0 <==> SomeAfter(times))
    ensures SomeBefore(times) <==> Start(times) < 0
    ensures !SomeBefore(times) ==> (Start(times) == 0 <==> times == [] || times[|times| - 1] == 0)
    decreases |times|
  {
    if times != [] {
      var n := |times| - 1;
      assert times == times[..n] + [times[n]];
      StartAndEndSigns(times[..n]);
      SomeSnoc(times[..n], times[n]);
    }
  }

  /** With a time before Go's zero time there must be one after it; without, if there is one after
      it, the last must not be it. */
  predicate TimesSpan(times: seq<int>) {
    if SomeBefore(times) then SomeAfter(times) else SomeAfter(times) ==> times[|times| - 1] != 0
  }

  /** The duration is the end minus the start exactly if the times read allow it; seen from the
      results, if both ends are set or both are the same. */
  lemma DurationExactly(lines: seq<Line>, s: Summary, b: Breakdown)
    requires IsSummary(s, lines) && IsBreakdown(b, lines) && TimesShared(lines)
    ensures b.duration == s.endedAt - s.startedAt <==> TimesSpan(Times(lines, HeaderTime))
    ensures b.duration == s.endedAt - s.startedAt <==> (s.startedAt != 0 && s.endedAt != 0) || s.startedAt == s.endedAt
  {
    SameTimes(lines);
    StartAndEndSigns(Times(lines, HeaderTime));
  }

  function OldLine(): Line {
    Line("user", "0000-12-31T23:59:59Z", Some(-1_000_000_000), Missing)
  }

  lemma OneTime(l: Line, t: int, see: Line -> Option<int>)
    requires see(l) == Some(t)
    ensures Times([l], see) == [t]
  {
    assert [l][..0] == [];
    assert Times([], see) == [];
  }

  lemma OneOldTime()
    ensures Start([-1_000_000_000]) == -1_000_000_000 && End([-1_000_000_000]) == 0
  {
    var t := [-1_000_000_000];
    assert t[..0] == [];
    assert Start([]) == 0 && End([]) == 0;
  }

  lemma OldTimes()
    ensures Times([OldLine()], SummaryTime) == [-1_000_000_000]
    ensures Times([OldLine()], HeaderTime) == [-1_000_000_000]
  {
    OneTime(OldLine(), -1_000_000_000, SummaryTime);
    OneTime(OldLine(), -1_000_000_000, HeaderTime);
  }

  /** It fails for a transcript from before Go's zero time. */
  lemma DurationBeforeZeroTime(s: Summary, b: Breakdown)
    requires IsSummary(s, [OldLine()]) && IsBreakdown(b, [OldLine()])
    ensures b.duration == 0 && s.endedAt - s.startedAt == 1_000_000_000
  {
    OldTimes();
    OneOldTime();
    assert s.startedAt == -1_000_000_000;
    assert s.endedAt == 0;
  }

  // --- Lines that both decoders accept ---

  /** No message that the summary's decoder rejects, and assistant messages with a list of blocks.
      The content of other lines may have any shape: neither reader looks at it. */
  predicate BothAccept(lines: seq<Line>) {
    forall i :: 0 <= i < |lines| && lines[i].Line? ==>
                  && !lines[i].message.Broken?
                  && (lines[i].kind == "assistant" ==> lines[i].message.Missing? || lines[i].message.Whole?)
  }

  lemma {:induction false} NoneApart(lines: seq<Line>)
    requires BothAccept(lines)
    ensures Odds(lines) == 0 && Nulls(lines) == 0
    decreases |lines|
  {
    if lines != [] {
      var n := |lines| - 1;
      assert forall i :: 0 <= i < n ==> lines[..n][i] == lines[i];
      NoneApart(lines[..n]);
    }
  }

  /** The two readers agree: the summary's totals are the sums over the breakdown's turns, and the
      breakdown's duration is the time from the first to the last timestamp. */
  lemma TwoReadersAgree(lines: seq<Line>, s: Summary, b: Breakdown)
    requires IsSummary(s, lines) && IsBreakdown(b, lines)
    requires BothAccept(lines)
    requires forall i :: 0 <= i < |lines| && lines[i].Line? && lines[i].timestamp != "" && lines[i].time.Some? ==>
                           lines[i].time.value > 0
    ensures s.turns == b.turnCount && s.tokens == TurnTokens(b.turns)
    ensures b.duration == s.endedAt - s.startedAt
    ensures forall i :: 0 <= i < |lines| && lines[i].Line? && lines[i].timestamp != "" && lines[i].time.Some? ==>
                          s.startedAt <= lines[i].time.value <= s.endedAt
    ensures (exists i :: 0 <= i < |lines| && lines[i].Line? && lines[i].timestamp != "" && lines[i].time.Some?) ==>
              && (exists i :: 0 <= i < |lines| && lines[i].Line? && lines[i].timestamp != ""
                              && lines[i].time == Some(s.startedAt))
              && (exists i :: 0 <= i < |lines| && lines[i].Line? && lines[i].timestamp != ""
                              && lines[i].time == Some(s.endedAt))
  {
    NoneApart(lines);
    ReadersAgreeExactly(lines, s, b);
    SameTimes(lines);
    HeaderSpan(lines, s.startedAt, s.endedAt);
    if k :| 0 <= k < |lines| && Timed(lines[k]) {
      var i :| 0 <= i < |lines| && Timed(lines[i]) && lines[i].time.value == s.startedAt;
      var j :| 0 <= j < |lines| && Timed(lines[j]) && lines[j].time.value == s.endedAt;
      assert lines[i].time == Some(s.startedAt) && lines[j].time == Some(s.endedAt);
    }
  }

  // --- Money ---

  function TurnCosts(turns: seq<Turn>): real {
    if turns == [] then 0.0 else TurnCosts(turns[..|turns| - 1]) + turns[|turns| - 1].cost
  }

  /** Each turn carries clean tokens and their cost. */
  predicate Priced(turns: seq<Turn>) {
    forall i :: 0 <= i < |turns| ==>
                  Clean(turns[i].tokens) && turns[i].cost == ComputeCost(turns[i].model, turns[i].tokens)
  }

  lemma {:induction false} TurnsPriced(lines: seq<Line>)
    ensures Priced(TurnsOf(lines))
    decreases |lines|
  {
    if lines != [] {
      TurnsPriced(lines[..|lines| - 1]);
    }
  }

  lemma TurnCost(t: Turn)
    requires Clean(t.tokens) && t.cost == ComputeCost(t.model, t.tokens)
    ensures t.cost == Scaled(PricingFor(t.model), Base(t.tokens))
    ensures 0.0 <= Base(t.tokens) <= t.cost <= 15.0 * Base(t.tokens)
  {
    CostIsScaledBase(t.model, t.tokens);
    BaseNotNegative(t.tokens);
  }

  lemma {:induction false} TurnsClean(turns: seq<Turn>)
    requires Priced(turns)
    ensures Clean(TurnTokens(turns))
    decreases |turns|
  {
    if turns != [] {
      TurnsClean(turns[..|turns| - 1]);
    }
  }

  /** The summed cost lies between the base cost of the summed tokens and 15 times that. */
  lemma {:induction false} CostsBracketed(turns: seq<Turn>, costs: real, base: real)
    requires Priced(turns) && costs == TurnCosts(turns) && base == Base(TurnTokens(turns))
    ensures 0.0 <= base <= costs <= 15.0 * base
    decreases |turns|
  {
    if turns != [] {
      var n := |turns| - 1;
      CostsBracketed(turns[..n], TurnCosts(turns[..n]), Base(TurnTokens(turns[..n])));
      TurnCost(turns[n]);
      BaseAdds(TurnTokens(turns[..n]), turns[n].tokens);
    }
  }

  /** Every turn that cost anything is priced from the table `p`. */
  predicate PricedAlike(turns: seq<Turn>, p: Prices) {
    forall i :: 0 <= i < |turns| ==> turns[i].tokens == NOTHING || PricingFor(turns[i].model) == p
  }

  lemma ScaledNothing(p: Prices)
    ensures Scaled(p, Base(NOTHING)) == 0.0
  {
  }

  /** The base cost of the turns priced from one table. */
  function BaseUnder(turns: seq<Turn>, p: Prices): real {
    if turns == [] then 0.0 else
      var n := |turns| - 1;
      BaseUnder(turns[..n], p) + (if PricingFor(turns[n].model) == p then Base(turns[n].tokens) else 0.0)
  }

  /** The costs and the base costs, table by table. */
  lemma {:induction false} CostsByTable(turns: seq<Turn>, costs: real, base: real, o: real, s: real, h: real)
    requires Priced(turns) && costs == TurnCosts(turns) && base == Base(TurnTokens(turns))
    requires o == BaseUnder(turns, OPUS) && s == BaseUnder(turns, SONNET) && h == BaseUnder(turns, HAIKU)
    ensures costs == 15.0 * o + 3.0 * s + h && base == o + s + h
    decreases |turns|
  {
    if turns != [] {
      var n := |turns| - 1;
      var before := turns[..n];
      CostsByTable(before, TurnCosts(before), Base(TurnTokens(before)),
                   BaseUnder(before, OPUS), BaseUnder(before, SONNET), BaseUnder(before, HAIKU));
      TurnCost(turns[n]);
      TablesDiffer();
      BaseAdds(TurnTokens(before), turns[n].tokens);
    }
  }

  lemma BaseIsZero(u: Usage)
    requires Clean(u)
    ensures Base(u) == 0.0 <==> u == NOTHING
  {
  }

  predicate Unused(turns: seq<Turn>, p: Prices) {
    forall i :: 0 <= i < |turns| ==> turns[i].tokens == NOTHING || PricingFor(turns[i].model) != p
  }

  /** A table has no share exactly if no turn that carries tokens is priced from it. */
  lemma {:induction false} NoShare(turns: seq<Turn>, p: Prices)
    requires Priced(turns)
    ensures BaseUnder(turns, p) >= 0.0
    ensures BaseUnder(turns, p) == 0.0 <==> Unused(turns, p)
    decreases |turns|
  {
    if turns != [] {
      var n := |turns| - 1;
      NoShare(turns[..n], p);
      BaseNotNegative(turns[n].tokens);
      BaseIsZero(turns[n].tokens);
      assert forall i :: 0 <= i < n ==> turns[..n][i] == turns[i];
    }
  }

  /** The turns' costs add up to the session's cost exactly if all turns that carry tokens price
      like the session's model, where that is the dearest or the cheapest table; under the middle
      one also if the dearer turns make up for the cheaper ones. */
  lemma CostsAddUp(lines: seq<Line>, s: Summary, b: Breakdown)
    requires IsSummary(s, lines) && IsBreakdown(b, lines) && s.tokens == TurnTokens(b.turns)
    ensures PricedAlike(b.turns, PricingFor(s.model)) ==> TurnCosts(b.turns) == s.totalCost
    ensures PricingFor(s.model) != SONNET ==>
              (TurnCosts(b.turns) == s.totalCost <==> PricedAlike(b.turns, PricingFor(s.model)))
    ensures PricingFor(s.model) == SONNET ==>
              (TurnCosts(b.turns) == s.totalCost <==> 6.0 * BaseUnder(b.turns, OPUS) == BaseUnder(b.turns, HAIKU))
  {
    TurnsPriced(lines);
    TurnsClean(b.turns);
    CostsOfTables(b.turns, PricingFor(s.model), TurnCosts(b.turns), Base(TurnTokens(b.turns)));
    CostIsScaledBase(s.model, s.tokens);
  }

  lemma CostsOfTables(turns: seq<Turn>, p: Prices, costs: real, base: real)
    requires Priced(turns) && costs == TurnCosts(turns) && base == Base(TurnTokens(turns))
    requires p == OPUS || p == SONNET || p == HAIKU
    ensures PricedAlike(turns, p) ==> costs == Scaled(p, base)
    ensures p != SONNET ==> (costs == Scaled(p, base) <==> PricedAlike(turns, p))
    ensures p == SONNET ==> (costs == Scaled(p, base) <==> 6.0 * BaseUnder(turns, OPUS) == BaseUnder(turns, HAIKU))
  {
    CostsByTable(turns, costs, base, BaseUnder(turns, OPUS), BaseUnder(turns, SONNET), BaseUnder(turns, HAIKU));
    NoShare(turns, OPUS);
    NoShare(turns, SONNET);
    NoShare(turns, HAIKU);
    TablesDiffer();
    OnlyTable(turns, p);
  }

  lemma OnlyTable(turns: seq<Turn>, p: Prices)
    requires p == OPUS || p == SONNET || p == HAIKU
    ensures PricedAlike(turns, p) <==>
              && (p != OPUS ==> Unused(turns, OPUS))
              && (p != SONNET ==> Unused(turns, SONNET))
              && (p != HAIKU ==> Unused(turns, HAIKU))
  {
    forall i | 0 <= i < |turns|
      ensures PricingFor(turns[i].model) in {OPUS, SONNET, HAIKU}
    {
    }
  }

  /** Otherwise each is at most 15 times the other; against a session priced as opus the turns
      never cost more, against haiku never less. */
  lemma CostsWithinFifteen(lines: seq<Line>, s: Summary, b: Breakdown)
    requires IsSummary(s, lines) && IsBreakdown(b, lines) && s.tokens == TurnTokens(b.turns)
    ensures TurnCosts(b.turns) <= 15.0 * s.totalCost && s.totalCost <= 15.0 * TurnCosts(b.turns)
    ensures PricingFor(s.model) == OPUS ==> TurnCosts(b.turns) <= s.totalCost
    ensures PricingFor(s.model) == HAIKU ==> s.totalCost <= TurnCosts(b.turns)
    ensures PricingFor(s.model) == SONNET ==>
              TurnCosts(b.turns) <= 5.0 * s.totalCost && s.totalCost <= 3.0 * TurnCosts(b.turns)
  {
    TurnsPriced(lines);
    TurnsClean(b.turns);
    CostsBracketed(b.turns, TurnCosts(b.turns), Base(TurnTokens(b.turns)));
    CostIsScaledBase(s.model, s.tokens);
    TablesDiffer();
  }

  /** A turn with tokens under one model, then a turn without under another. */
  function TwoTurns(spender: string, u: Usage, other: string): seq<Line> {
    var a := Line("assistant", "", None, Whole(Message(spender, Some(u), [])));
    [a] + [Line("assistant", "", None, Whole(Message(other, None, [])))]
  }

  lemma MessagesOfTwo(a: Line, b: Line)
    requires SummaryMessage(a).Some? && SummaryMessage(b).Some?
    ensures Messages([a] + [b], SummaryMessage) == [SummaryMessage(a).value] + [SummaryMessage(b).value]
  {
    MessagesSnoc([], a, SummaryMessage);
    assert [] + [a] == [a];
    MessagesSnoc([a], b, SummaryMessage);
  }

  lemma TokensOfOne(x: Message)
    ensures TotalSpent([x]) == AddUsage(NOTHING, Spent(x))
  {
    assert [x][..0] == [];
  }

  lemma TokensOfTwo(x: Message, y: Message)
    requires Spent(y) == NOTHING
    ensures TotalSpent([x] + [y]) == AddUsage(AddUsage(NOTHING, Spent(x)), NOTHING)
  {
    MessageSnoc([x], y);
    TokensOfOne(x);
  }

  lemma NothingTwice(u: Usage)
    ensures AddUsage(AddUsage(NOTHING, u), NOTHING) == u
  {
  }

  lemma TwoTurnsSummary(spender: string, u: Usage, other: string, s: Summary)
    requires other != "" && IsSummary(s, TwoTurns(spender, u, other))
    ensures s.tokens == Clamped(u) && s.model == other && s.totalCost == ComputeCost(other, s.tokens)
  {
    var x, y := Message(spender, Some(u), []), Message(other, None, []);
    MessagesOfTwo(Line("assistant", "", None, Whole(x)), Line("assistant", "", None, Whole(y)));
    SummaryOfTwo(x, y, s.tokens, s.model);
  }

  lemma SummaryOfTwo(x: Message, y: Message, tokens: Usage, model: string)
    requires Spent(y) == NOTHING && y.model != ""
    requires tokens == TotalSpent([x] + [y]) && model == LastModel([x] + [y])
    ensures tokens == Spent(x) && model == y.model
  {
    TokensOfTwo(x, y);
    NothingTwice(Spent(x));
    MessageSnoc([x], y);
  }

  lemma TwoTurnsCosts(spender: string, u: Usage, other: string)
    ensures TurnCosts(TurnsOf(TwoTurns(spender, u, other))) == ComputeCost(spender, u)
  {
    var x, y := Message(spender, Some(u), []), Message(other, None, []);
    var a, b := Line("assistant", "", None, Whole(x)), Line("assistant", "", None, Whole(y));
    var s, t := TurnFor(0, "", x), TurnFor(1, "", y);
    TurnsSnoc([], a);
    assert [] + [a] == [a] && [] + [s] == [s];
    TurnsSnoc([a], b);
    TurnCostsSnoc([], s);
    TurnCostsSnoc([s], t);
    ClampedCost(spender, u);
    NoCost(other);
  }

  lemma ClampedCost(model: string, u: Usage)
    ensures ComputeCost(model, Clamped(u)) == ComputeCost(model, u)
  {
    CostIsScaledBase(model, u);
    CostIsScaledBase(model, Clamped(u));
  }

  lemma NoCost(model: string)
    ensures ComputeCost(model, NOTHING) == 0.0
  {
    CostIsScaledBase(model, NOTHING);
    ScaledNothing(PricingFor(model));
  }

  lemma TurnCostsSnoc(turns: seq<Turn>, t: Turn)
    ensures TurnCosts(turns + [t]) == TurnCosts(turns) + t.cost
  {
    assert (turns + [t])[..|turns|] == turns;
  }

  lemma NamedTables()
    ensures PricingFor("opus") == OPUS && PricingFor("haiku") == HAIKU
  {
    assert Text.ToLower("opus") == "opus" && Text.ToLower("haiku") == "haiku";
    assert Text.OccursAt("opus", "opus", 0);
    assert Text.OccursAt("haiku", "haiku", 0);
    forall i
      ensures !Text.OccursAt("haiku", "opus", i)
    {
      if 0 <= i && i + 4 <= 5 {
        assert "haiku"[i..i + 4][0] == "haiku"[i] != 'o';
      }
    }
  }

  /** The factor 15 is reached in both directions, for any tokens. */
  lemma FifteenIsReached(u: Usage, s: Summary, b: Breakdown, s': Summary, b': Breakdown)
    requires IsSummary(s, TwoTurns("opus", u, "haiku")) && IsBreakdown(b, TwoTurns("opus", u, "haiku"))
    requires IsSummary(s', TwoTurns("haiku", u, "opus")) && IsBreakdown(b', TwoTurns("haiku", u, "opus"))
    ensures TurnCosts(b.turns) == 15.0 * s.totalCost
    ensures s'.totalCost == 15.0 * TurnCosts(b'.turns)
  {
    NamedTables();
    TablesDiffer();
    TwoTurnsSummary("opus", u, "haiku", s);
    TwoTurnsSummary("haiku", u, "opus", s');
    TwoTurnsCosts("opus", u, "haiku");
    TwoTurnsCosts("haiku", u, "opus");
    CostIsScaledBase("opus", u);
    CostIsScaledBase("haiku", u);
    CostIsScaledBase("opus", Clamped(u));
    CostIsScaledBase("haiku", Clamped(u));
  }

  // --- Models ---

  predicate Uses(turns: seq<Turn>, model: string) {
    exists i :: 0 <= i < |turns| && turns[i].model == model
  }

  /** The turn a model was first seen in. */
  function FirstTurn(turns: seq<Turn>, model: string): (i: nat)
    requires Uses(turns, model)
    ensures i < |turns| && turns[i].model == model && !Uses(turns[..i], model)
  {
    var n := |turns| - 1;
    if Uses(turns[..n], model) then
      assert turns[..n][..FirstTurn(turns[..n], model)] == turns[..FirstTurn(turns[..n], model)];
      FirstTurn(turns[..n], model)
    else
      assert forall i :: 0 <= i < n ==> turns[..n][i] == turns[i];
      n
  }

  lemma UsesSnoc(turns: seq<Turn>, model: string)
    requires turns != []
    ensures Uses(turns, model) <==> Uses(turns[..|turns| - 1], model) || turns[|turns| - 1].model == model
  {
    var n := |turns| - 1;
    assert forall i :: 0 <= i < n ==> turns[..n][i] == turns[i];
    if Uses(turns[..n], model) {
      var i :| 0 <= i < n && turns[..n][i].model == model;
      assert turns[i].model == model;
    }
  }

  lemma {:induction false} FirstSeenExactly(turns: seq<Turn>, model: string)
    ensures model in FirstSeen(turns) <==> model != "" && Uses(turns, model)
    decreases |turns|
  {
    if turns != [] {
      UsesSnoc(turns, model);
      FirstSeenExactly(turns[..|turns| - 1], model);
    }
  }

  /** The models are listed in the order of the turns that introduced them, each once. */
  lemma {:induction false} FirstSeenInOrder(turns: seq<Turn>, i: nat, j: nat)
    requires i < j < |FirstSeen(turns)|
    ensures Uses(turns, FirstSeen(turns)[i]) && Uses(turns, FirstSeen(turns)[j])
    ensures FirstTurn(turns, FirstSeen(turns)[i]) < FirstTurn(turns, FirstSeen(turns)[j])
    decreases |turns|
  {
    var before := turns[..|turns| - 1];
    var mi, mj := FirstSeen(turns)[i], FirstSeen(turns)[j];
    FirstSeenExactly(turns, mi);
    FirstSeenExactly(turns, mj);
    assert mi in FirstSeen(before);
    FirstSeenExactly(before, mi);
    FirstTurnKept(turns, mi);
    if j < |FirstSeen(before)| {
      FirstSeenInOrder(before, i, j);
      FirstTurnKept(turns, mj);
    } else {
      FirstSeenExactly(before, mj);
      assert FirstTurn(turns, mj) == |turns| - 1;
    }
  }

  lemma FirstTurnKept(turns: seq<Turn>, model: string)
    requires turns != [] && Uses(turns[..|turns| - 1], model)
    ensures Uses(turns, model) && FirstTurn(turns, model) == FirstTurn(turns[..|turns| - 1], model)
  {
    UsesSnoc(turns, model);
  }

  /** The last model read, and the list of models, agree so far. */
  predicate Fits(model: string, models: seq<string>) {
    (model == "" <==> models == []) && (model != "" ==> model in models)
  }

  lemma FitsSnoc(ms: seq<Message>, m: Message, turns: seq<Turn>, t: Turn)
    requires Fits(LastModel(ms), FirstSeen(turns)) && t.model == m.model
    ensures Fits(LastModel(ms + [m]), FirstSeen(turns + [t]))
  {
    MessageSnoc(ms, m);
    assert (turns + [t])[..|turns|] == turns;
  }

  lemma {:induction false} ModelIsListed(lines: seq<Line>)
    requires BothAccept(lines)
    ensures Fits(LastModel(Messages(lines, SummaryMessage)), FirstSeen(TurnsOf(lines)))
    decreases |lines|
  {
    if lines != [] {
      var before, l := lines[..|lines| - 1], lines[|lines| - 1];
      assert forall i :: 0 <= i < |before| ==> before[i] == lines[i];
      ModelIsListed(before);
      assert SummaryMessage(l) == TurnMessage(l);
      assert lines == before + [l];
      MessagesSnoc(before, l, SummaryMessage);
      TurnsSnoc(before, l);
      if SummaryMessage(l).Some? {
        FitsSnoc(Messages(before, SummaryMessage), SummaryMessage(l).value,
                 TurnsOf(before), TurnFor(|TurnsOf(before)|, l.timestamp, TurnMessage(l).value));
      }
    }
  }

  /** The summary's model is one of the breakdown's models; there is none exactly if there are none. */
  lemma SummaryModelIsSwitchedTo(lines: seq<Line>, s: Summary, b: Breakdown)
    requires IsSummary(s, lines) && IsBreakdown(b, lines) && BothAccept(lines)
    ensures s.model == "" <==> b.modelSwitch == []
    ensures s.model != "" ==> s.model in b.modelSwitch
  {
    ModelIsListed(lines);
  }
}
