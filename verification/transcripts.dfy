/** The two readers of a session transcript: the summary (internal/transcript/transcript.go) and the
    per-turn breakdown (internal/transcript/breakdown.go). Each decodes lines in its own way. */
module Transcripts {
  import opened Options
  import opened Pricing
  import opened Sums

  datatype Block = Block(kind: string, name: string)

  datatype Message = Message(model: string, usage: Option<Usage>, content: seq<Block>)

  /** The `message` of a line, by what the two decoders make of it. */
  datatype Field =
    | Missing
    | Null                                        // JSON null: none to one reader, empty to the other
    | Whole(message: Message)
    | OddContent(model: string, usage: Option<Usage>)  // content that is not a list of blocks
    | Broken                                      // not an object of the expected shape

  /** `time` is the timestamp in nanoseconds since Go's zero time, if it parses. */
  datatype Line =
    | Skipped   // empty, or not a JSON object with the expected type and timestamp
    | Line(kind: string, timestamp: string, time: Option<int>, message: Field)

  datatype Summary = Summary(tokens: Usage, totalTokens: int, totalCost: real, model: string, turns: nat,
                             startedAt: int, endedAt: int)

  datatype Turn = Turn(index: nat, timestamp: string, model: string, tokens: Usage, cost: real, tools: seq<string>)

  datatype Breakdown = Breakdown(turns: seq<Turn>, toolCounts: map<string, int>, modelSwitch: seq<string>,
                                 turnCount: nat, duration: int)

  // --- What each reader sees in a line ---

  function HeaderTime(l: Line): Option<int> {
    if l.Line? && l.timestamp != "" then l.time else None
  }

  /** Parse decodes the message with the line, so a broken message costs it the timestamp too. */
  function SummaryTime(l: Line): Option<int> {
    if l.Line? && l.message.Broken? then None else HeaderTime(l)
  }

  function SummaryMessage(l: Line): Option<Message> {
    if l.Line? && l.kind == "assistant" then
      match l.message
      case Whole(m) => Some(m)
      case OddContent(model, usage) => Some(Message(model, usage, []))
      case _ => None
    else None
  }

  function TurnMessage(l: Line): Option<Message> {
    if l.Line? && l.kind == "assistant" then
      match l.message
      case Whole(m) => Some(m)
      case Null => Some(Message("", None, []))
      case _ => None
    else None
  }

  function Spent(m: Message): Usage {
    if m.usage.Some? then Clamped(m.usage.value) else NOTHING
  }

  // --- What the results should be ---

  function Times(lines: seq<Line>, see: Line -> Option<int>): seq<int> {
    if lines == [] then [] else
      var n := |lines| - 1;
      Times(lines[..n], see) + (if see(lines[n]).Some? then [see(lines[n]).value] else [])
  }

  function Messages(lines: seq<Line>, see: Line -> Option<Message>): seq<Message> {
    if lines == [] then [] else
      var n := |lines| - 1;
      Messages(lines[..n], see) + (if see(lines[n]).Some? then [see(lines[n]).value] else [])
  }

  /** The loops' running minimum: an unset start is the zero time. */
  function Start(times: seq<int>): int {
    if times == [] then 0 else
      var t, s := times[|times| - 1], Start(times[..|times| - 1]);
      if s == 0 || t < s then t else s
  }

  function End(times: seq<int>): int {
    if times == [] then 0 else
      var t, e := times[|times| - 1], End(times[..|times| - 1]);
      if t > e then t else e
  }

  function TotalSpent(ms: seq<Message>): Usage {
    if ms == [] then NOTHING else AddUsage(TotalSpent(ms[..|ms| - 1]), Spent(ms[|ms| - 1]))
  }

  function LastModel(ms: seq<Message>): string {
    if ms == [] then ""
    else if ms[|ms| - 1].model != "" then ms[|ms| - 1].model
    else LastModel(ms[..|ms| - 1])
  }

  function ToolNames(content: seq<Block>): seq<string> {
    if content == [] then [] else
      var b := content[|content| - 1];
      ToolNames(content[..|content| - 1]) + (if b.kind == "tool_use" && b.name != "" then [b.name] else [])
  }

  function TurnFor(index: nat, timestamp: string, m: Message): Turn {
    Turn(index, timestamp, m.model, Spent(m), ComputeCost(m.model, Spent(m)), ToolNames(m.content))
  }

  function TurnsOf(lines: seq<Line>): seq<Turn> {
    if lines == [] then [] else
      var n := |lines| - 1;
      var before := TurnsOf(lines[..n]);
      before + (if TurnMessage(lines[n]).Some?
                then [TurnFor(|before|, lines[n].timestamp, TurnMessage(lines[n]).value)] else [])
  }

  function Tools(turns: seq<Turn>): seq<string> {
    if turns == [] then [] else Tools(turns[..|turns| - 1]) + turns[|turns| - 1].tools
  }

  /** The distinct models, in the order in which they first appear. */
  function FirstSeen(turns: seq<Turn>): seq<string> {
    if turns == [] then [] else
      var before, m := FirstSeen(turns[..|turns| - 1]), turns[|turns| - 1].model;
      if m != "" && m !in before then before + [m] else before
  }

  /** How often each tool was used. */
  ghost predicate CountsTools(counts: map<string, int>, tools: seq<string>) {
    && (forall t :: t in counts <==> t in tools)
    && forall t :: t in counts ==> counts[t] == multiset(tools)[t]
  }

  ghost predicate IsSummary(s: Summary, lines: seq<Line>) {
    var ms, times := Messages(lines, SummaryMessage), Times(lines, SummaryTime);
    && s.turns == |ms| && s.tokens == TotalSpent(ms) && s.model == LastModel(ms)
    && s.startedAt == Start(times) && s.endedAt == End(times)
    && s.totalTokens == s.tokens.input + s.tokens.output + s.tokens.cacheRead + s.tokens.cacheWrite
    && s.totalCost == ComputeCost(s.model, s.tokens)
  }

  ghost predicate IsBreakdown(b: Breakdown, lines: seq<Line>) {
    var first, last := Start(Times(lines, HeaderTime)), End(Times(lines, HeaderTime));
    && b.turns == TurnsOf(lines) && b.turnCount == |b.turns|
    && CountsTools(b.toolCounts, Tools(b.turns))
    && b.modelSwitch == FirstSeen(b.turns)
    && b.duration == if first != 0 && last != 0 then last - first else 0
  }

  // --- The results, read off the lines ---

  predicate AfterZeroTime(times: seq<int>) {
    forall i :: 0 <= i < |times| ==> times[i] > 0
  }

  /** The loops find the first and the last of the times, if none is before Go's zero time. */
  lemma {:induction false} StartAndEnd(times: seq<int>)
    requires times != [] && AfterZeroTime(times)
    ensures Start(times) in times && End(times) in times
    ensures forall t :: t in times ==> Start(times) <= t <= End(times)
    decreases |times|
  {
    var n := |times| - 1;
    assert times == times[..n] + [times[n]];
    if n > 0 {
      StartAndEnd(times[..n]);
      assert Start(times[..n]) > 0;
    } else {
      assert times[..0] == [];
    }
  }

  /** The times are those that the lines show. */
  lemma {:induction false} TimesOfLines(lines: seq<Line>, see: Line -> Option<int>, t: int)
    ensures t in Times(lines, see) <==> exists i :: 0 <= i < |lines| && see(lines[i]) == Some(t)
    decreases |lines|
  {
    if lines != [] {
      var n := |lines| - 1;
      TimesOfLines(lines[..n], see, t);
      if i :| 0 <= i < n && see(lines[..n][i]) == Some(t) {
        assert see(lines[i]) == Some(t);
      }
      if i :| 0 <= i < n && see(lines[i]) == Some(t) {
        assert see(lines[..n][i]) == Some(t);
      }
    }
  }

  /** From the first to the last of the times that lines with a property carry. */
  ghost predicate Spans(first: int, last: int, lines: seq<Line>, see: Line -> Option<int>) {
    && (forall i :: 0 <= i < |lines| && see(lines[i]).Some? ==> first <= see(lines[i]).value <= last)
    && ((exists i :: 0 <= i < |lines| && see(lines[i]).Some?) ==>
          && (exists i :: 0 <= i < |lines| && see(lines[i]) == Some(first))
          && (exists i :: 0 <= i < |lines| && see(lines[i]) == Some(last)))
    && ((forall i :: 0 <= i < |lines| ==> see(lines[i]).None?) ==> first == 0 && last == 0)
  }

  lemma LinesSpan(lines: seq<Line>, see: Line -> Option<int>)
    requires forall i :: 0 <= i < |lines| && see(lines[i]).Some? ==> see(lines[i]).value > 0
    ensures Spans(Start(Times(lines, see)), End(Times(lines, see)), lines, see)
  {
    var times := Times(lines, see);
    forall t
      ensures t in times <==> exists i :: 0 <= i < |lines| && see(lines[i]) == Some(t)
    {
      TimesOfLines(lines, see, t);
    }
    if times != [] {
      forall k | 0 <= k < |times|
        ensures times[k] > 0
      {
        assert times[k] in times;
      }
      StartAndEnd(times);
      assert times[0] in times;
    }
  }

  /** A line of any kind with a time. */
  predicate Timed(l: Line) {
    l.Line? && l.timestamp != "" && l.time.Some?
  }

  lemma SummarySpan(lines: seq<Line>, first: int, last: int)
    requires first == Start(Times(lines, SummaryTime)) && last == End(Times(lines, SummaryTime))
    requires forall i :: 0 <= i < |lines| && Timed(lines[i]) && !lines[i].message.Broken? ==> lines[i].time.value > 0
    ensures forall i :: 0 <= i < |lines| && Timed(lines[i]) && !lines[i].message.Broken? ==>
                          first <= lines[i].time.value <= last
    ensures (exists i :: 0 <= i < |lines| && Timed(lines[i]) && !lines[i].message.Broken?) ==>
              && (exists i :: 0 <= i < |lines| && Timed(lines[i]) && !lines[i].message.Broken?
                              && lines[i].time.value == first)
              && (exists i :: 0 <= i < |lines| && Timed(lines[i]) && !lines[i].message.Broken?
                              && lines[i].time.value == last)
    ensures (forall i :: 0 <= i < |lines| && Timed(lines[i]) ==> lines[i].message.Broken?) ==> first == 0 && last == 0
  {
    LinesSpan(lines, SummaryTime);
  }

  lemma HeaderSpan(lines: seq<Line>, first: int, last: int)
    requires first == Start(Times(lines, HeaderTime)) && last == End(Times(lines, HeaderTime))
    requires forall i :: 0 <= i < |lines| && Timed(lines[i]) ==> lines[i].time.value > 0
    ensures forall i :: 0 <= i < |lines| && Timed(lines[i]) ==> first <= lines[i].time.value <= last
    ensures (exists i :: 0 <= i < |lines| && Timed(lines[i])) ==>
              && (exists i :: 0 <= i < |lines| && Timed(lines[i]) && lines[i].time.value == first)
              && (exists i :: 0 <= i < |lines| && Timed(lines[i]) && lines[i].time.value == last)
    ensures (forall i :: 0 <= i < |lines| ==> !Timed(lines[i])) ==> first == 0 && last == 0
  {
    LinesSpan(lines, HeaderTime);
  }

  /** The assistant messages a reader takes from the lines with a property. */
  lemma {:induction false} MessagesAt(lines: seq<Line>, see: Line -> Option<Message>, p: Line -> bool)
    requires forall l :: p(l) <==> see(l).Some?
    ensures |Messages(lines, see)| == |Positions(lines, p)|
    ensures forall n :: 0 <= n < |Positions(lines, p)| ==>
                          see(lines[Positions(lines, p)[n]]) == Some(Messages(lines, see)[n])
    decreases |lines|
  {
    if lines != [] {
      MessagesAt(lines[..|lines| - 1], see, p);
    }
  }

  lemma {:induction false} TurnsAt(lines: seq<Line>, p: Line -> bool)
    requires forall l :: p(l) <==> TurnMessage(l).Some?
    ensures |TurnsOf(lines)| == |Positions(lines, p)|
    ensures forall n :: 0 <= n < |Positions(lines, p)| ==>
                          var l := lines[Positions(lines, p)[n]];
                          TurnMessage(l).Some? && TurnsOf(lines)[n] == TurnFor(n, l.timestamp, TurnMessage(l).value)
    decreases |lines|
  {
    if lines != [] {
      TurnsAt(lines[..|lines| - 1], p);
    }
  }

  /** A message that the summary counts. */
  predicate SummaryCounts(l: Line) {
    l.Line? && l.kind == "assistant" && (l.message.Whole? || l.message.OddContent?)
  }

  /** A message that the breakdown counts. */
  predicate TurnCounts(l: Line) {
    l.Line? && l.kind == "assistant" && (l.message.Whole? || l.message.Null?)
  }

  /** The tokens a message that the summary counts says were used. */
  function Says(l: Line): Option<Usage> {
    if !SummaryCounts(l) then None
    else if l.message.Whole? then l.message.message.usage
    else l.message.usage
  }

  function InputOf(l: Line): int {
    if Says(l).Some? && Says(l).value.input > 0 then Says(l).value.input else 0
  }

  function OutputOf(l: Line): int {
    if Says(l).Some? && Says(l).value.output > 0 then Says(l).value.output else 0
  }

  function CacheReadOf(l: Line): int {
    if Says(l).Some? && Says(l).value.cacheRead > 0 then Says(l).value.cacheRead else 0
  }

  function CacheWriteOf(l: Line): int {
    if Says(l).Some? && Says(l).value.cacheWrite > 0 then Says(l).value.cacheWrite else 0
  }

  lemma SpentOfLine(l: Line)
    ensures SummaryMessage(l).Some? ==>
              Spent(SummaryMessage(l).value) == Usage(InputOf(l), OutputOf(l), CacheReadOf(l), CacheWriteOf(l))
    ensures SummaryMessage(l).None? ==>
              InputOf(l) == 0 && OutputOf(l) == 0 && CacheReadOf(l) == 0 && CacheWriteOf(l) == 0
  {
  }

  function TokensIn(lines: seq<Line>): Usage {
    Usage(Sum(lines, InputOf), Sum(lines, OutputOf), Sum(lines, CacheReadOf), Sum(lines, CacheWriteOf))
  }

  lemma TokensInSnoc(lines: seq<Line>, l: Line)
    ensures TokensIn(lines + [l]) ==
            AddUsage(TokensIn(lines), Usage(InputOf(l), OutputOf(l), CacheReadOf(l), CacheWriteOf(l)))
  {
    assert (lines + [l])[..|lines|] == lines;
  }

  /** One line more in the sums. */
  lemma LineSpent(ms: seq<Message>, more: seq<Message>, l: Line, was: Usage, now: Usage)
    requires more == if SummaryMessage(l).Some? then ms + [SummaryMessage(l).value] else ms
    requires was == TotalSpent(ms) && now == TotalSpent(more)
    ensures now == AddUsage(was, Usage(InputOf(l), OutputOf(l), CacheReadOf(l), CacheWriteOf(l)))
  {
    SpentOfLine(l);
    if SummaryMessage(l).Some? {
      MessageSnoc(ms, SummaryMessage(l).value);
    }
  }

  /** The summary's tokens are the sums over the lines, negative numbers counting as none. */
  lemma {:induction false} TokensOfLines(lines: seq<Line>, total: Usage)
    requires total == TotalSpent(Messages(lines, SummaryMessage))
    ensures total == TokensIn(lines)
    decreases |lines|
  {
    if lines != [] {
      var before, l := lines[..|lines| - 1], lines[|lines| - 1];
      assert lines == before + [l];
      var ms := Messages(before, SummaryMessage);
      var was := TotalSpent(ms);
      TokensOfLines(before, was);
      MessagesSnoc(before, l, SummaryMessage);
      LineSpent(ms, Messages(lines, SummaryMessage), l, was, total);
      TokensInSnoc(before, l);
    }
  }

  /** The last model that is named, "" if none is. */
  lemma {:induction false} LastModelNamed(ms: seq<Message>)
    ensures LastModel(ms) == "" <==> forall n :: 0 <= n < |ms| ==> ms[n].model == ""
    ensures LastModel(ms) != "" ==>
              exists n :: 0 <= n < |ms| && ms[n].model == LastModel(ms)
                          && forall k :: n < k < |ms| ==> ms[k].model == ""
    decreases |ms|
  {
    if ms != [] && ms[|ms| - 1].model == "" {
      var before := ms[..|ms| - 1];
      LastModelNamed(before);
      if LastModel(before) != "" {
        var n :| 0 <= n < |before| && before[n].model == LastModel(before)
                 && forall k :: n < k < |before| ==> before[k].model == "";
        assert ms[n].model == LastModel(ms);
        assert forall k :: n < k < |ms| - 1 ==> ms[k] == before[k];
      }
    }
  }

  function ModelOf(l: Line): string {
    if !l.Line? then ""
    else if l.message.Whole? then l.message.message.model
    else if l.message.OddContent? then l.message.model
    else ""
  }

  lemma ModelOfLines(lines: seq<Line>, at: seq<nat>)
    requires at == Positions(lines, SummaryCounts)
    ensures var model := LastModel(Messages(lines, SummaryMessage));
            && (model == "" ==> forall n :: 0 <= n < |at| ==> ModelOf(lines[at[n]]) == "")
            && (model != "" ==>
                  exists n :: 0 <= n < |at| && ModelOf(lines[at[n]]) == model
                              && forall k :: n < k < |at| ==> ModelOf(lines[at[k]]) == "")
  {
    var ms := Messages(lines, SummaryMessage);
    MessagesAt(lines, SummaryMessage, SummaryCounts);
    LastModelNamed(ms);
    assert forall n :: 0 <= n < |at| ==> ModelOf(lines[at[n]]) == ms[n].model;
  }

  /** What a turn says of the line it comes from: negative numbers of tokens count as none. */
  predicate IsTurnOf(t: Turn, n: nat, l: Line) {
    && l.Line? && t.index == n && t.timestamp == l.timestamp && t.cost == ComputeCost(t.model, t.tokens)
    && (l.message.Whole? ==>
          var m := l.message.message;
          && t.model == m.model && t.tools == ToolNames(m.content)
          && (m.usage.None? ==> t.tokens == Usage(0, 0, 0, 0))
          && (m.usage.Some? ==>
                var u := m.usage.value;
                t.tokens == Usage(if u.input > 0 then u.input else 0, if u.output > 0 then u.output else 0,
                                  if u.cacheRead > 0 then u.cacheRead else 0,
                                  if u.cacheWrite > 0 then u.cacheWrite else 0)))
    && (!l.message.Whole? ==> t.model == "" && t.tools == [] && t.tokens == Usage(0, 0, 0, 0))
  }

  lemma TurnIsOfLine(n: nat, l: Line)
    requires TurnMessage(l).Some?
    ensures IsTurnOf(TurnFor(n, l.timestamp, TurnMessage(l).value), n, l)
  {
  }

  /** A turn's tools are the names of its message's tool_use blocks, in order. */
  lemma ToolNamesExactly(content: seq<Block>) returns (at: seq<nat>)
    ensures forall k: nat :: k in at <==> k < |content| && content[k].kind == "tool_use" && content[k].name != ""
    ensures forall m, n :: 0 <= m < n < |at| ==> at[m] < at[n]
    ensures |ToolNames(content)| == |at|
    ensures forall n :: 0 <= n < |at| ==> at[n] < |content| && ToolNames(content)[n] == content[at[n]].name
  {
    at := Positions(content, NamesTool);
    PositionsOf(content, NamesTool);
    ToolNamesAt(content);
  }

  predicate NamesTool(b: Block) {
    b.kind == "tool_use" && b.name != ""
  }

  lemma {:induction false} ToolNamesAt(content: seq<Block>)
    ensures |ToolNames(content)| == |Positions(content, NamesTool)|
    ensures forall n :: 0 <= n < |ToolNames(content)| ==>
                          ToolNames(content)[n] == content[Positions(content, NamesTool)[n]].name
    decreases |content|
  {
    if content != [] {
      ToolNamesAt(content[..|content| - 1]);
    }
  }

  /** A tool is counted once for each time a turn names it. */
  lemma {:induction false} ToolCountsAdd(turns: seq<Turn>, tool: string, f: Turn -> int)
    requires forall t :: f(t) == multiset(t.tools)[tool]
    ensures multiset(Tools(turns))[tool] == Sum(turns, f)
    decreases |turns|
  {
    if turns != [] {
      ToolCountsAdd(turns[..|turns| - 1], tool, f);
    }
  }

  lemma DurationSpans(lines: seq<Line>, duration: int)
    requires var first, last := Start(Times(lines, HeaderTime)), End(Times(lines, HeaderTime));
             duration == if first != 0 && last != 0 then last - first else 0
    requires forall i :: 0 <= i < |lines| && Timed(lines[i]) ==> lines[i].time.value > 0
    ensures forall i, j :: 0 <= i < |lines| && Timed(lines[i]) && 0 <= j < |lines| && Timed(lines[j]) ==>
                             lines[j].time.value - lines[i].time.value <= duration
    ensures duration != 0 ==>
              exists i, j :: 0 <= i < |lines| && Timed(lines[i]) && 0 <= j < |lines| && Timed(lines[j])
                             && duration == lines[j].time.value - lines[i].time.value
  {
    var first, last := Start(Times(lines, HeaderTime)), End(Times(lines, HeaderTime));
    HeaderSpan(lines, first, last);
    if k :| 0 <= k < |lines| && Timed(lines[k]) {
      var i :| 0 <= i < |lines| && Timed(lines[i]) && lines[i].time.value == first;
      var j :| 0 <= j < |lines| && Timed(lines[j]) && lines[j].time.value == last;
      assert duration == lines[j].time.value - lines[i].time.value;
    }
  }

  lemma PositionsOf<T(!new)>(s: seq<T>, p: T -> bool)
    ensures forall i: nat :: i in Positions(s, p) <==> i < |s| && p(s[i])
    ensures forall m, n :: 0 <= m < n < |Positions(s, p)| ==> Positions(s, p)[m] < Positions(s, p)[n]
  {
    forall i: nat
      ensures i in Positions(s, p) <==> i < |s| && p(s[i])
    {
      PositionsExactly(s, p, i);
    }
    forall m, n | 0 <= m < n < |Positions(s, p)|
      ensures Positions(s, p)[m] < Positions(s, p)[n]
    {
      PositionsIncrease(s, p, m, n);
    }
  }

  // --- The code ---

  lemma TimesSnoc(lines: seq<Line>, l: Line, see: Line -> Option<int>)
    ensures see(l).Some? ==> Times(lines + [l], see) == Times(lines, see) + [see(l).value]
    ensures see(l).None? ==> Times(lines + [l], see) == Times(lines, see)
  {
    assert (lines + [l])[..|lines|] == lines;
  }

  lemma MessagesSnoc(lines: seq<Line>, l: Line, see: Line -> Option<Message>)
    ensures see(l).Some? ==> Messages(lines + [l], see) == Messages(lines, see) + [see(l).value]
    ensures see(l).None? ==> Messages(lines + [l], see) == Messages(lines, see)
  {
    assert (lines + [l])[..|lines|] == lines;
  }

  lemma StartEndSnoc(times: seq<int>, t: int)
    ensures Start(times + [t]) == (if Start(times) == 0 || t < Start(times) then t else Start(times))
    ensures End(times + [t]) == (if t > End(times) then t else End(times))
  {
    assert (times + [t])[..|times|] == times;
  }

  lemma MessageSnoc(ms: seq<Message>, m: Message)
    ensures TotalSpent(ms + [m]) == AddUsage(TotalSpent(ms), Spent(m))
    ensures LastModel(ms + [m]) == if m.model != "" then m.model else LastModel(ms)
  {
    assert (ms + [m])[..|ms|] == ms;
  }

  /** The time of one line taken into account. */
  method TrackTime(startedAt: int, endedAt: int, time: Option<int>, ghost times: seq<int>) returns (s: int, e: int)
    requires startedAt == Start(times) && endedAt == End(times)
    ensures time.Some? ==> s == Start(times + [time.value]) && e == End(times + [time.value])
    ensures time.None? ==> s == startedAt && e == endedAt
  {
    s, e := startedAt, endedAt;
    if time.Some? {
      StartEndSnoc(times, time.value);
      var t := time.value;
      if s == 0 || t < s {
        s := t;
      }
      if t > e {
        e := t;
      }
    }
  }

  /** Start and end are the first and the last time of any line that has one, unless there are
      times before Go's zero time; `at` are the lines of the messages counted. */
  method Parse(lines: seq<Line>) returns (s: Summary, ghost at: seq<nat>)
    ensures IsSummary(s, lines)
    ensures (forall i :: 0 <= i < |lines| && lines[i].Line? && lines[i].timestamp != ""
                         && lines[i].time.Some? && !lines[i].message.Broken? ==>
                           lines[i].time.value > 0) ==>
              && (forall i :: 0 <= i < |lines| && lines[i].Line? && lines[i].timestamp != ""
                              && lines[i].time.Some? && !lines[i].message.Broken? ==>
                                s.startedAt <= lines[i].time.value <= s.endedAt)
              && (s.startedAt != 0 || s.endedAt != 0 ==>
                    && (exists i :: 0 <= i < |lines| && lines[i].Line? && lines[i].timestamp != ""
                                    && lines[i].time == Some(s.startedAt) && !lines[i].message.Broken?)
                    && (exists i :: 0 <= i < |lines| && lines[i].Line? && lines[i].timestamp != ""
                                    && lines[i].time == Some(s.endedAt) && !lines[i].message.Broken?))
    ensures forall i: nat :: i in at <==>
              && i < |lines| && lines[i].Line? && lines[i].kind == "assistant"
              && (lines[i].message.Whole? || lines[i].message.OddContent?)
    ensures forall m, n :: 0 <= m < n < |at| ==> at[m] < at[n]
    ensures s.turns == |at| && forall n :: 0 <= n < |at| ==> at[n] < |lines|
    ensures s.tokens.input == Sum(lines, InputOf) && s.tokens.output == Sum(lines, OutputOf)
    ensures s.tokens.cacheRead == Sum(lines, CacheReadOf) && s.tokens.cacheWrite == Sum(lines, CacheWriteOf)
    ensures s.totalTokens == s.tokens.input + s.tokens.output + s.tokens.cacheRead + s.tokens.cacheWrite
    ensures s.totalCost == ComputeCost(s.model, s.tokens)
    ensures forall n :: 0 <= n < |at| && s.model == "" ==> ModelOf(lines[at[n]]) == ""
    ensures s.model != "" ==>
              exists n :: 0 <= n < |at| && ModelOf(lines[at[n]]) == s.model
                          && forall k :: n < k < |at| ==> ModelOf(lines[at[k]]) == ""
  {
    s := SummaryLoop(lines);
    at := Positions(lines, SummaryCounts);
    PositionsOf(lines, SummaryCounts);
    MessagesAt(lines, SummaryMessage, SummaryCounts);
    TokensOfLines(lines, s.tokens);
    ModelOfLines(lines, at);
    if forall i :: 0 <= i < |lines| && Timed(lines[i]) && !lines[i].message.Broken? ==> lines[i].time.value > 0 {
      SummarySpan(lines, s.startedAt, s.endedAt);
    }
  }

  method SummaryLoop(lines: seq<Line>) returns (s: Summary)
    ensures IsSummary(s, lines)
  {
    var tokens, model, turns := NOTHING, "", 0;
    var startedAt, endedAt := 0, 0;
    for i := 0 to |lines|
      invariant turns == |Messages(lines[..i], SummaryMessage)|
      invariant tokens == TotalSpent(Messages(lines[..i], SummaryMessage))
      invariant model == LastModel(Messages(lines[..i], SummaryMessage))
      invariant startedAt == Start(Times(lines[..i], SummaryTime)) && endedAt == End(Times(lines[..i], SummaryTime))
    {
      var l := lines[i];
      assert lines[..i + 1] == lines[..i] + [l];
      TimesSnoc(lines[..i], l, SummaryTime);
      MessagesSnoc(lines[..i], l, SummaryMessage);
      startedAt, endedAt := TrackTime(startedAt, endedAt, SummaryTime(l), Times(lines[..i], SummaryTime));
      if SummaryMessage(l).None? {
        continue;
      }
      var m := SummaryMessage(l).value;
      MessageSnoc(Messages(lines[..i], SummaryMessage), m);
      assert Messages(lines[..i + 1], SummaryMessage) == Messages(lines[..i], SummaryMessage) + [m];
      turns := turns + 1;
      if m.model != "" {
        model := m.model;
      }
      tokens := AddUsage(tokens, Spent(m));
    }
    assert lines[..|lines|] == lines;
    s := Summary(tokens, tokens.input + tokens.output + tokens.cacheRead + tokens.cacheWrite,
                 ComputeCost(model, tokens), model, turns, startedAt, endedAt);
  }

  /** The inner loop of ParseBreakdown: the tools of one turn, counted. */
  method CollectTools(content: seq<Block>, counts: map<string, int>, ghost before: seq<string>)
    returns (tools: seq<string>, counts': map<string, int>)
    requires CountsTools(counts, before)
    ensures tools == ToolNames(content) && CountsTools(counts', before + tools)
  {
    tools, counts' := [], counts;
    assert before + [] == before;
    for i := 0 to |content|
      invariant tools == ToolNames(content[..i])
      invariant CountsTools(counts', before + tools)
    {
      var c := content[i];
      ToolNamesNext(content, i);
      if c.kind == "tool_use" && c.name != "" {
        CountNext(counts', before, tools, c.name);
        tools := tools + [c.name];
        counts' := Increment(counts', c.name);
      }
    }
    assert content[..|content|] == content;
  }

  lemma ToolNamesNext(content: seq<Block>, i: nat)
    requires i < |content|
    ensures var c := content[i];
            ToolNames(content[..i + 1])
            == if c.kind == "tool_use" && c.name != ""
               then ToolNames(content[..i]) + [c.name] else ToolNames(content[..i])
  {
    assert content[..i + 1][..i] == content[..i];
  }

  lemma CountNext(counts: map<string, int>, before: seq<string>, tools: seq<string>, name: string)
    requires CountsTools(counts, before + tools)
    ensures CountsTools(Increment(counts, name), before + (tools + [name]))
  {
    CountOne(counts, before + tools, name);
    assert before + tools + [name] == before + (tools + [name]);
  }

  /** `m[name]++`. */
  function Increment(counts: map<string, int>, name: string): map<string, int> {
    counts[name := (if name in counts then counts[name] else 0) + 1]
  }

  lemma CountOne(counts: map<string, int>, tools: seq<string>, name: string)
    requires CountsTools(counts, tools)
    ensures CountsTools(Increment(counts, name), tools + [name])
  {
    assert multiset(tools + [name]) == multiset(tools) + multiset{name};
    if name !in counts {
      assert multiset(tools)[name] == 0;
    }
  }

  /** The models so far with the turn each was first seen in: later ones in later turns. */
  ghost predicate Ranked(models: seq<string>, seen: map<string, nat>, turns: nat) {
    && (forall m :: m in seen <==> m in models)
    && (forall i, j :: 0 <= i < j < |models| ==>
                         models[i] in seen && models[j] in seen && seen[models[i]] < seen[models[j]])
    && forall m :: m in seen ==> seen[m] < turns
  }

  /** What the loop of ParseBreakdown has made of the lines it has read, apart from their times. */
  ghost predicate HasRead(lines: seq<Line>, turns: seq<Turn>, counts: map<string, int>, models: seq<string>,
                          seen: map<string, nat>) {
    && turns == TurnsOf(lines) && CountsTools(counts, Tools(turns))
    && models == FirstSeen(turns) && Ranked(models, seen, |turns|)
  }

  /** `at` are the lines that make turns. The duration goes from the first to the last time of any
      line that has one, unless there are times before Go's zero time. */
  method ParseBreakdown(lines: seq<Line>) returns (b: Breakdown, ghost at: seq<nat>)
    ensures IsBreakdown(b, lines)
    ensures (forall i :: 0 <= i < |lines| && lines[i].Line? && lines[i].timestamp != "" && lines[i].time.Some? ==>
                           lines[i].time.value > 0) ==>
              && (forall i, j :: 0 <= i < |lines| && lines[i].Line? && lines[i].timestamp != "" && lines[i].time.Some?
                                 && 0 <= j < |lines| && lines[j].Line? && lines[j].timestamp != ""
                                 && lines[j].time.Some? ==>
                                   lines[j].time.value - lines[i].time.value <= b.duration)
              && (b.duration != 0 ==>
                    exists i, j :: 0 <= i < |lines| && lines[i].Line? && lines[i].timestamp != ""
                                   && lines[i].time.Some? && 0 <= j < |lines| && lines[j].Line?
                                   && lines[j].timestamp != "" && lines[j].time.Some?
                                   && b.duration == lines[j].time.value - lines[i].time.value)
    ensures forall i: nat :: i in at <==>
              && i < |lines| && lines[i].Line? && lines[i].kind == "assistant"
              && (lines[i].message.Whole? || lines[i].message.Null?)
    ensures forall m, n :: 0 <= m < n < |at| ==> at[m] < at[n]
    ensures b.turnCount == |b.turns| == |at| && forall n :: 0 <= n < |at| ==> at[n] < |lines|
    ensures forall n :: 0 <= n < |at| ==> IsTurnOf(b.turns[n], n, lines[at[n]])
    ensures CountsTools(b.toolCounts, Tools(b.turns))
  {
    b := BreakdownLoop(lines);
    at := Positions(lines, TurnCounts);
    PositionsOf(lines, TurnCounts);
    TurnsAt(lines, TurnCounts);
    forall n | 0 <= n < |at|
      ensures IsTurnOf(b.turns[n], n, lines[at[n]])
    {
      TurnIsOfLine(n, lines[at[n]]);
    }
    if forall i :: 0 <= i < |lines| && Timed(lines[i]) ==> lines[i].time.value > 0 {
      DurationSpans(lines, b.duration);
    }
  }

  method BreakdownLoop(lines: seq<Line>) returns (b: Breakdown)
    ensures IsBreakdown(b, lines)
  {
    var turns: seq<Turn> := [];
    var counts: map<string, int> := map[];
    var modelSwitch: seq<string> := [];
    var seen: map<string, nat> := map[];
    var first, last := 0, 0;
    for i := 0 to |lines|
      invariant HasRead(lines[..i], turns, counts, modelSwitch, seen)
      invariant first == Start(Times(lines[..i], HeaderTime)) && last == End(Times(lines[..i], HeaderTime))
    {
      var l := lines[i];
      assert lines[..i + 1] == lines[..i] + [l];
      TimesSnoc(lines[..i], l, HeaderTime);
      first, last := TrackTime(first, last, HeaderTime(l), Times(lines[..i], HeaderTime));
      if TurnMessage(l).None? {
        TurnsSnoc(lines[..i], l);
        continue;
      }
      turns, counts, modelSwitch, seen := ReadTurn(l, lines[..i], turns, counts, modelSwitch, seen);
    }
    assert lines[..|lines|] == lines;
    var duration := 0;
    if first != 0 && last != 0 {
      duration := last - first;
    }
    RankedAscends(modelSwitch, seen, |turns|);
    SortMovesNothing(modelSwitch, seen);
    modelSwitch := SortBySeen(modelSwitch, seen);
    b := Breakdown(turns, counts, modelSwitch, |turns|, duration);
  }

  /** The part of the loop body that an accepted assistant message reaches. */
  method ReadTurn(l: Line, ghost before: seq<Line>, turns: seq<Turn>, counts: map<string, int>,
                  models: seq<string>, seen: map<string, nat>)
    returns (turns': seq<Turn>, counts': map<string, int>, models': seq<string>, seen': map<string, nat>)
    requires HasRead(before, turns, counts, models, seen) && TurnMessage(l).Some?
    ensures HasRead(before + [l], turns', counts', models', seen')
  {
    var m := TurnMessage(l).value;
    var tools: seq<string>;
    tools, counts' := CollectTools(m.content, counts, Tools(turns));
    var t := Turn(|turns|, l.timestamp, m.model, Spent(m), ComputeCost(m.model, Spent(m)), tools);
    models', seen' := NoteModel(models, seen, t, turns);
    turns' := turns + [t];
    ToolsSnoc(turns, t);
    TurnsSnoc(before, l);
  }

  lemma RankedAscends(models: seq<string>, seen: map<string, nat>, turns: nat)
    requires Ranked(models, seen, turns)
    ensures AscendingBy(models, seen)
  {
  }

  lemma TurnsSnoc(lines: seq<Line>, l: Line)
    ensures TurnMessage(l).Some? ==>
              TurnsOf(lines + [l]) == TurnsOf(lines) + [TurnFor(|TurnsOf(lines)|, l.timestamp, TurnMessage(l).value)]
    ensures TurnMessage(l).None? ==> TurnsOf(lines + [l]) == TurnsOf(lines)
  {
    assert (lines + [l])[..|lines|] == lines;
  }

  lemma ToolsSnoc(turns: seq<Turn>, t: Turn)
    ensures Tools(turns + [t]) == Tools(turns) + t.tools
  {
    assert (turns + [t])[..|turns|] == turns;
  }

  method NoteModel(models: seq<string>, seen: map<string, nat>, t: Turn, ghost turns: seq<Turn>)
    returns (models': seq<string>, seen': map<string, nat>)
    requires models == FirstSeen(turns) && Ranked(models, seen, |turns|) && t.index == |turns|
    ensures models' == FirstSeen(turns + [t]) && Ranked(models', seen', |turns| + 1)
  {
    assert (turns + [t])[..|turns|] == turns;
    models', seen' := models, seen;
    if t.model != "" {
      if t.model !in seen {
        seen' := seen[t.model := t.index];
        models' := models + [t.model];
      }
    }
  }

  /** Reading a model that a map does not have gives 0. */
  function Rank(m: string, seen: map<string, nat>): nat {
    if m in seen then seen[m] else 0
  }

  predicate AscendingBy(models: seq<string>, seen: map<string, nat>) {
    forall i, j :: 0 <= i < j < |models| ==> Rank(models[i], seen) <= Rank(models[j], seen)
  }

  /** After everything of the same rank. */
  function PlaceBySeen(m: string, models: seq<string>, seen: map<string, nat>): seq<string> {
    if models == [] || Rank(models[|models| - 1], seen) <= Rank(m, seen) then models + [m]
    else PlaceBySeen(m, models[..|models| - 1], seen) + [models[|models| - 1]]
  }

  function SortedBySeen(models: seq<string>, seen: map<string, nat>): seq<string> {
    if models == [] then []
    else PlaceBySeen(models[|models| - 1], SortedBySeen(models[..|models| - 1], seen), seen)
  }

  /** `sort.SliceStable` at the end of ParseBreakdown. */
  method SortBySeen(models: seq<string>, seen: map<string, nat>) returns (out: seq<string>)
    ensures out == SortedBySeen(models, seen) && multiset(out) == multiset(models)
    ensures forall i, j :: 0 <= i < j < |out| && out[i] in seen && out[j] in seen ==> seen[out[i]] <= seen[out[j]]
  {
    SortedBySeenSorts(models, seen);
    out := [];
    for i := 0 to |models|
      invariant out == SortedBySeen(models[..i], seen)
    {
      assert models[..i + 1][..i] == models[..i];
      out := PlaceBySeen(models[i], out, seen);
    }
    assert models[..|models|] == models;
  }

  lemma {:induction false} PlacePermutes(m: string, models: seq<string>, seen: map<string, nat>)
    ensures multiset(PlaceBySeen(m, models, seen)) == multiset(models) + multiset{m}
    decreases |models|
  {
    if models != [] && Rank(models[|models| - 1], seen) > Rank(m, seen) {
      var n := |models| - 1;
      PlacePermutes(m, models[..n], seen);
      assert models == models[..n] + [models[n]];
    }
  }

  lemma {:induction false} PlaceAscends(m: string, models: seq<string>, seen: map<string, nat>)
    requires AscendingBy(models, seen)
    ensures AscendingBy(PlaceBySeen(m, models, seen), seen)
    ensures forall i :: 0 <= i < |PlaceBySeen(m, models, seen)| ==>
              PlaceBySeen(m, models, seen)[i] == m || PlaceBySeen(m, models, seen)[i] in models
    decreases |models|
  {
    if models != [] && Rank(models[|models| - 1], seen) > Rank(m, seen) {
      var n := |models| - 1;
      PlaceAscends(m, models[..n], seen);
      assert forall x :: x in models[..n] ==> Rank(x, seen) <= Rank(models[n], seen);
    }
  }

  /** It sorts: the same models, in the order of the turns they were first seen in. */
  lemma {:induction false} SortedBySeenSorts(models: seq<string>, seen: map<string, nat>)
    ensures multiset(SortedBySeen(models, seen)) == multiset(models) && AscendingBy(SortedBySeen(models, seen), seen)
    decreases |models|
  {
    if models != [] {
      var n := |models| - 1;
      SortedBySeenSorts(models[..n], seen);
      PlacePermutes(models[n], SortedBySeen(models[..n], seen), seen);
      PlaceAscends(models[n], SortedBySeen(models[..n], seen), seen);
      assert models == models[..n] + [models[n]];
    }
  }

  /** The models of one rank, in order. */
  function OfRank(models: seq<string>, seen: map<string, nat>, rank: nat): seq<string> {
    if models == [] then [] else
      var n := |models| - 1;
      OfRank(models[..n], seen, rank) + (if Rank(models[n], seen) == rank then [models[n]] else [])
  }

  lemma OfRankSnoc(models: seq<string>, m: string, seen: map<string, nat>, rank: nat)
    ensures OfRank(models + [m], seen, rank)
            == if Rank(m, seen) == rank then OfRank(models, seen, rank) + [m] else OfRank(models, seen, rank)
  {
    assert (models + [m])[..|models|] == models;
  }

  lemma {:induction false} PlaceIsStable(m: string, models: seq<string>, seen: map<string, nat>, rank: nat)
    ensures OfRank(PlaceBySeen(m, models, seen), seen, rank) == OfRank(models + [m], seen, rank)
    decreases |models|
  {
    if models != [] && Rank(models[|models| - 1], seen) > Rank(m, seen) {
      var n := |models| - 1;
      var before, last := models[..n], models[n];
      PlaceIsStable(m, before, seen, rank);
      OfRankSnoc(PlaceBySeen(m, before, seen), last, seen, rank);
      OfRankSnoc(before, m, seen, rank);
      OfRankSnoc(before, last, seen, rank);
      assert models == before + [last];
      OfRankSnoc(models, m, seen, rank);
    }
  }

  lemma SameRankSnoc(xs: seq<string>, ys: seq<string>, m: string, seen: map<string, nat>, rank: nat)
    requires OfRank(xs, seen, rank) == OfRank(ys, seen, rank)
    ensures OfRank(xs + [m], seen, rank) == OfRank(ys + [m], seen, rank)
  {
    OfRankSnoc(xs, m, seen, rank);
    OfRankSnoc(ys, m, seen, rank);
  }

  /** It is stable: models of one rank keep their order. */
  lemma {:induction false} SortedBySeenIsStable(models: seq<string>, seen: map<string, nat>, rank: nat)
    ensures OfRank(SortedBySeen(models, seen), seen, rank) == OfRank(models, seen, rank)
    decreases |models|
  {
    if models != [] {
      var n := |models| - 1;
      var sorted := SortedBySeen(models[..n], seen);
      SortedBySeenIsStable(models[..n], seen, rank);
      PlaceIsStable(models[n], sorted, seen, rank);
      SameRankSnoc(sorted, models[..n], models[n], seen, rank);
      assert models == models[..n] + [models[n]];
    }
  }

  /** What is in order already does not move. */
  lemma {:induction false} SortMovesNothing(models: seq<string>, seen: map<string, nat>)
    requires AscendingBy(models, seen)
    ensures SortedBySeen(models, seen) == models
    decreases |models|
  {
    if models != [] {
      var n := |models| - 1;
      SortMovesNothing(models[..n], seen);
      assert models == models[..n] + [models[n]];
    }
  }
}
