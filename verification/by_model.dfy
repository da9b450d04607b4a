/** The per-model breakdown (AggregateByModel in internal/stats/stats.go, Dataset.ByModel in
    internal/mock/mock.go): two aggregations of the same rows, one by family, one by day and family,
    and their agreement with each other and with the daily rollup. */
module ByModel {
  import opened Text
  import opened Timestamps
  import opened Calendar
  import opened Rollups
  import opened Sums

  const FAMILIES := ["opus", "haiku", "sonnet", "other"]

  function ModelFamily(model: string): string {
    var m := ToLower(model);
    if Occurs(m, "opus") then "opus"
    else if Occurs(m, "haiku") then "haiku"
    else if Occurs(m, "sonnet") then "sonnet"
    else "other"
  }

  datatype ModelRow = ModelRow(endedAt: string, model: string, input: int, output: int, cacheRead: int,
                               cacheWrite: int, cost: real)

  datatype ModelTotal = ModelTotal(family: string, totals: Totals, totalTokens: int)

  datatype DailyByModel = DailyByModel(bucket: string, totals: map<string, int>)

  datatype Response = Response(totals: seq<ModelTotal>, daily: seq<DailyByModel>)

  function RowTotals(r: ModelRow): Totals {
    Totals(r.input, r.output, r.cacheRead, r.cacheWrite, r.cost, 1)
  }

  function RowTokens(r: ModelRow): int {
    TokensOf(RowTotals(r))
  }

  function DayOf(r: ModelRow): string {
    if |r.endedAt| >= 10 then r.endedAt[..10] else r.endedAt
  }

  // --- What the response should hold ---

  function ByFamily(rows: seq<ModelRow>): (r: seq<Row<string>>)
    ensures |r| == |rows|
    ensures forall i :: 0 <= i < |r| ==> r[i] == Row(ModelFamily(rows[i].model), RowTotals(rows[i]))
  {
    seq(|rows|, i requires 0 <= i < |rows| => Row(ModelFamily(rows[i].model), RowTotals(rows[i])))
  }

  predicate InCell(r: ModelRow, day: string, family: string) {
    DayOf(r) == day && ModelFamily(r.model) == family
  }

  predicate HasDay(rows: seq<ModelRow>, day: string) {
    exists i :: 0 <= i < |rows| && DayOf(rows[i]) == day
  }

  predicate HasCell(rows: seq<ModelRow>, day: string, family: string) {
    exists i :: 0 <= i < |rows| && InCell(rows[i], day, family)
  }

  /** The tokens of one family on one day. */
  function CellTokens(rows: seq<ModelRow>, day: string, family: string): int {
    if rows == [] then 0 else
      var n := |rows| - 1;
      CellTokens(rows[..n], day, family) + (if InCell(rows[n], day, family) then RowTokens(rows[n]) else 0)
  }

  predicate CostliestFirst(totals: seq<ModelTotal>) {
    forall i, j :: 0 <= i < j < |totals| ==> totals[i].totals.cost >= totals[j].totals.cost
  }

  predicate OneEach(totals: seq<ModelTotal>) {
    forall i, j :: 0 <= i < j < |totals| ==> totals[i].family != totals[j].family
  }

  predicate HasTotal(totals: seq<ModelTotal>, family: string) {
    exists i :: 0 <= i < |totals| && totals[i].family == family
  }

  predicate DaysAscend(daily: seq<DailyByModel>) {
    forall i, j :: 0 <= i < j < |daily| ==> Less(daily[i].bucket, daily[j].bucket)
  }

  predicate HasBucketFor(daily: seq<DailyByModel>, day: string) {
    exists i :: 0 <= i < |daily| && daily[i].bucket == day
  }

  /** One total for each family that occurs, the costliest first, holding the sum of its rows. */
  ghost predicate TotalsRight(totals: seq<ModelTotal>, rows: seq<ModelRow>) {
    && CostliestFirst(totals) && OneEach(totals)
    && (forall f :: HasTotal(totals, f) <==> HasRow(ByFamily(rows), f))
    && forall i :: 0 <= i < |totals| ==>
                     && totals[i].totals == SumFor(ByFamily(rows), totals[i].family)
                     && totals[i].totalTokens == TokensOf(totals[i].totals)
  }

  /** The families of one day, with their tokens on that day. */
  ghost predicate CellsRight(cells: map<string, int>, rows: seq<ModelRow>, day: string) {
    && (forall f :: f in cells <==> HasCell(rows, day, f))
    && forall f :: f in cells ==> cells[f] == CellTokens(rows, day, f)
  }

  ghost predicate DailyRight(daily: seq<DailyByModel>, rows: seq<ModelRow>) {
    && DaysAscend(daily)
    && (forall d :: HasBucketFor(daily, d) <==> HasDay(rows, d))
    && forall i :: 0 <= i < |daily| ==> CellsRight(daily[i].totals, rows, daily[i].bucket)
  }

  ghost predicate IsByModel(r: Response, rows: seq<ModelRow>) {
    TotalsRight(r.totals, rows) && DailyRight(r.daily, rows)
  }

  // --- The code ---

  ghost predicate TalliesDays(m: map<string, map<string, int>>, rows: seq<ModelRow>) {
    && (forall d :: d in m <==> HasDay(rows, d))
    && forall d :: d in m ==> CellsRight(m[d], rows, d)
  }

  lemma HasDaySnoc(rows: seq<ModelRow>, r: ModelRow, day: string)
    ensures HasDay(rows + [r], day) <==> HasDay(rows, day) || DayOf(r) == day
  {
    var more := rows + [r];
    assert more[|rows|] == r;
    if HasDay(rows, day) {
      var i :| 0 <= i < |rows| && DayOf(rows[i]) == day;
      assert more[i] == rows[i];
    }
  }

  lemma HasCellSnoc(rows: seq<ModelRow>, r: ModelRow, day: string, family: string)
    ensures HasCell(rows + [r], day, family) <==> HasCell(rows, day, family) || InCell(r, day, family)
  {
    var more := rows + [r];
    assert more[|rows|] == r;
    if HasCell(rows, day, family) {
      var i :| 0 <= i < |rows| && InCell(rows[i], day, family);
      assert more[i] == rows[i];
    }
  }

  lemma CellTokensSnoc(rows: seq<ModelRow>, r: ModelRow, day: string, family: string)
    ensures CellTokens(rows + [r], day, family)
            == CellTokens(rows, day, family) + (if InCell(r, day, family) then RowTokens(r) else 0)
  {
    assert (rows + [r])[..|rows|] == rows;
  }

  lemma {:induction false} NoCellNoTokens(rows: seq<ModelRow>, day: string, family: string)
    requires !HasCell(rows, day, family)
    ensures CellTokens(rows, day, family) == 0
    decreases |rows|
  {
    if rows != [] {
      var n := |rows| - 1;
      assert forall i :: 0 <= i < n ==> rows[..n][i] == rows[i];
      NoCellNoTokens(rows[..n], day, family);
      assert !InCell(rows[n], day, family);
    }
  }

  /** The loop body's update of the two-level map. */
  function CountDay(m: map<string, map<string, int>>, r: ModelRow): map<string, map<string, int>> {
    var cells := if DayOf(r) in m then m[DayOf(r)] else map[];
    m[DayOf(r) := CountCell(cells, r)]
  }

  function CountCell(cells: map<string, int>, r: ModelRow): map<string, int> {
    var f := ModelFamily(r.model);
    cells[f := (if f in cells then cells[f] else 0) + RowTokens(r)]
  }

  lemma CountCellRight(cells: map<string, int>, rows: seq<ModelRow>, r: ModelRow)
    requires CellsRight(cells, rows, DayOf(r))
    ensures CellsRight(CountCell(cells, r), rows + [r], DayOf(r))
  {
    forall f
      ensures f in CountCell(cells, r) <==> HasCell(rows + [r], DayOf(r), f)
      ensures f in CountCell(cells, r) ==> CountCell(cells, r)[f] == CellTokens(rows + [r], DayOf(r), f)
    {
      HasCellSnoc(rows, r, DayOf(r), f);
      CellTokensSnoc(rows, r, DayOf(r), f);
      if f !in cells {
        NoCellNoTokens(rows, DayOf(r), f);
      }
    }
  }

  lemma OtherDayRight(cells: map<string, int>, rows: seq<ModelRow>, r: ModelRow, day: string)
    requires CellsRight(cells, rows, day) && day != DayOf(r)
    ensures CellsRight(cells, rows + [r], day)
  {
    forall f
      ensures f in cells <==> HasCell(rows + [r], day, f)
      ensures f in cells ==> cells[f] == CellTokens(rows + [r], day, f)
    {
      HasCellSnoc(rows, r, day, f);
      CellTokensSnoc(rows, r, day, f);
    }
  }

  lemma NewDay(rows: seq<ModelRow>, day: string)
    requires !HasDay(rows, day)
    ensures CellsRight(map[], rows, day)
  {
  }

  lemma CountDayRight(m: map<string, map<string, int>>, rows: seq<ModelRow>, r: ModelRow)
    requires TalliesDays(m, rows)
    ensures TalliesDays(CountDay(m, r), rows + [r])
  {
    var m' := CountDay(m, r);
    if DayOf(r) !in m {
      NewDay(rows, DayOf(r));
    }
    CountCellRight(if DayOf(r) in m then m[DayOf(r)] else map[], rows, r);
    forall d
      ensures d in m' <==> HasDay(rows + [r], d)
      ensures d in m' ==> CellsRight(m'[d], rows + [r], d)
    {
      HasDaySnoc(rows, r, d);
      if d in m && d != DayOf(r) {
        OtherDayRight(m[d], rows, r, d);
      }
    }
  }

  method AggregateByModel(rows: seq<ModelRow>) returns (response: Response)
    ensures IsByModel(response, rows)
  {
    var totals: map<string, Totals> := map[];
    var dailyMap: map<string, map<string, int>> := map[];
    for i := 0 to |rows|
      invariant Tallies(totals, ByFamily(rows[..i]))
      invariant TalliesDays(dailyMap, rows[..i])
    {
      assert rows[..i + 1] == rows[..i] + [rows[i]];
      totals := AddToFamily(totals, rows[i], rows[..i]);
      CountDayRight(dailyMap, rows[..i], rows[i]);
      dailyMap := AddToDay(dailyMap, rows[i]);
    }
    assert rows[..|rows|] == rows;
    var totalsOut := CollectTotals(totals);
    var dailyOut := CollectDays(dailyMap);
    response := Response(totalsOut, dailyOut);
  }

  /** The first half of the loop body. */
  method AddToFamily(totals: map<string, Totals>, r: ModelRow, ghost before: seq<ModelRow>)
    returns (m: map<string, Totals>)
    requires Tallies(totals, ByFamily(before))
    ensures Tallies(m, ByFamily(before + [r]))
  {
    var fam := ModelFamily(r.model);
    var t := if fam in totals then totals[fam] else ZERO;
    m := totals[fam := Add(t, RowTotals(r))];
    TallyRow(totals, ByFamily(before), Row(fam, RowTotals(r)));
    assert ByFamily(before + [r]) == ByFamily(before) + [Row(fam, RowTotals(r))];
  }

  /** The second half of the loop body. */
  method AddToDay(dailyMap: map<string, map<string, int>>, r: ModelRow) returns (m: map<string, map<string, int>>)
    ensures m == CountDay(dailyMap, r)
  {
    var day := r.endedAt;
    if |day| >= 10 {
      day := day[..10];
    }
    m := dailyMap;
    if day !in m {
      m := m[day := map[]];
    }
    CountDayInSteps(dailyMap, m, r);
    var fam, cells := ModelFamily(r.model), m[day];
    cells := cells[fam := (if fam in cells then cells[fam] else 0) + RowTokens(r)];
    m := m[day := cells];
  }

  lemma CountDayInSteps(dailyMap: map<string, map<string, int>>, m: map<string, map<string, int>>, r: ModelRow)
    requires m == if DayOf(r) in dailyMap then dailyMap else dailyMap[DayOf(r) := map[]]
    ensures m[DayOf(r) := CountCell(m[DayOf(r)], r)] == CountDay(dailyMap, r)
  {
  }

  function PlaceTotal(t: ModelTotal, totals: seq<ModelTotal>): seq<ModelTotal> {
    if totals == [] || t.totals.cost > totals[0].totals.cost then [t] + totals
    else [totals[0]] + PlaceTotal(t, totals[1..])
  }

  lemma {:induction false} PlaceTotalIn(t: ModelTotal, totals: seq<ModelTotal>)
    requires CostliestFirst(totals) && OneEach(totals)
    requires forall i :: 0 <= i < |totals| ==> totals[i].family != t.family
    ensures CostliestFirst(PlaceTotal(t, totals)) && OneEach(PlaceTotal(t, totals))
    ensures forall x :: x in PlaceTotal(t, totals) <==> x == t || x in totals
    decreases |totals|
  {
    if totals != [] && t.totals.cost <= totals[0].totals.cost {
      PlaceTotalIn(t, totals[1..]);
      var rest := PlaceTotal(t, totals[1..]);
      forall i | 0 <= i < |rest|
        ensures totals[0].totals.cost >= rest[i].totals.cost && totals[0].family != rest[i].family
      {
        assert rest[i] in rest;
      }
      assert totals == [totals[0]] + totals[1..];
    }
  }

  /** The totals out of the map, sorted by cost. */
  method CollectTotals(m: map<string, Totals>) returns (out: seq<ModelTotal>)
    ensures CostliestFirst(out) && OneEach(out)
    ensures forall f :: HasTotal(out, f) <==> f in m
    ensures forall i :: 0 <= i < |out| ==>
                          out[i].family in m && out[i]
                            == ModelTotal(out[i].family, m[out[i].family], TokensOf(m[out[i].family]))
  {
    out := [];
    var left := m.Keys;
    while left != {}
      invariant left <= m.Keys && CostliestFirst(out) && OneEach(out)
      invariant forall t :: t in out ==>
                  t.family in m && t.family !in left && t == ModelTotal(t.family, m[t.family], TokensOf(m[t.family]))
      invariant forall f :: f in m && f !in left ==> ModelTotal(f, m[f], TokensOf(m[f])) in out
      decreases left
    {
      var f :| f in left;
      var t := ModelTotal(f, m[f], TokensOf(m[f]));
      assert forall i :: 0 <= i < |out| ==> out[i] in out && out[i].family != f;
      PlaceTotalIn(t, out);
      out := PlaceTotal(t, out);
      left := left - {f};
    }
    forall f
      ensures HasTotal(out, f) <==> f in m
    {
      if f in m {
        assert ModelTotal(f, m[f], TokensOf(m[f])) in out;
      }
    }
  }

  function PlaceDay(d: DailyByModel, daily: seq<DailyByModel>): seq<DailyByModel> {
    if daily == [] || Less(d.bucket, daily[0].bucket) then [d] + daily
    else [daily[0]] + PlaceDay(d, daily[1..])
  }

  lemma {:induction false} PlaceDayIn(d: DailyByModel, daily: seq<DailyByModel>)
    requires DaysAscend(daily) && forall i :: 0 <= i < |daily| ==> daily[i].bucket != d.bucket
    ensures DaysAscend(PlaceDay(d, daily))
    ensures forall x :: x in PlaceDay(d, daily) <==> x == d || x in daily
    decreases |daily|
  {
    if daily == [] {
    } else if Less(d.bucket, daily[0].bucket) {
      forall i | 0 < i < |daily|
        ensures Less(d.bucket, daily[i].bucket)
      {
        LessTransitive(d.bucket, daily[0].bucket, daily[i].bucket);
      }
    } else {
      LessTotal(d.bucket, daily[0].bucket);
      PlaceDayIn(d, daily[1..]);
      var rest := PlaceDay(d, daily[1..]);
      forall i | 0 <= i < |rest|
        ensures Less(daily[0].bucket, rest[i].bucket)
      {
        assert rest[i] in rest;
        if rest[i] != d {
          var j :| 0 <= j < |daily| - 1 && daily[1..][j] == rest[i];
          assert daily[j + 1] == rest[i];
        }
      }
      assert daily == [daily[0]] + daily[1..];
    }
  }

  /** The days out of the map, sorted. */
  method CollectDays(m: map<string, map<string, int>>) returns (out: seq<DailyByModel>)
    ensures DaysAscend(out)
    ensures forall d :: HasBucketFor(out, d) <==> d in m
    ensures forall i :: 0 <= i < |out| ==> out[i].bucket in m && out[i].totals == m[out[i].bucket]
  {
    out := [];
    var left := m.Keys;
    while left != {}
      invariant left <= m.Keys && DaysAscend(out)
      invariant forall x :: x in out ==> x.bucket in m && x.bucket !in left && x.totals == m[x.bucket]
      invariant forall d :: d in m && d !in left ==> DailyByModel(d, m[d]) in out
      decreases left
    {
      var d :| d in left;
      var x := DailyByModel(d, m[d]);
      assert forall i :: 0 <= i < |out| ==> out[i] in out && out[i].bucket != d;
      PlaceDayIn(x, out);
      out := PlaceDay(x, out);
      left := left - {d};
    }
    forall d
      ensures HasBucketFor(out, d) <==> d in m
    {
      if d in m {
        assert DailyByModel(d, m[d]) in out;
      }
    }
  }

  /** The sessions of the window as rows. */
  function ModelRows(sessions: seq<MockSession>, cutoff: int): seq<ModelRow>
    requires ValidSessions(sessions)
  {
    if sessions == [] then [] else
      var n := |sessions| - 1;
      var s := sessions[n];
      ModelRows(sessions[..n], cutoff) + (if DayNumber(s.endedAt.date) < cutoff then [] else [RowOf(s)])
  }

  function RowOf(s: MockSession): ModelRow {
    ModelRow(Stamp(s.endedAt), s.model, s.input, s.output, s.cacheRead, s.cacheWrite, s.cost)
  }

  /** The loop of `ByModel`. */
  method WindowRows(sessions: seq<MockSession>, cutoff: int) returns (rows: seq<ModelRow>)
    requires ValidSessions(sessions)
    ensures rows == ModelRows(sessions, cutoff)
  {
    rows := [];
    for i := 0 to |sessions|
      invariant rows == ModelRows(sessions[..i], cutoff)
    {
      var s := sessions[i];
      assert sessions[..i + 1][..i] == sessions[..i];
      if DayNumber(s.endedAt.date) < cutoff {
        continue;
      }
      rows := rows + [RowOf(s)];
    }
    assert sessions[..|sessions|] == sessions;
  }

  method DatasetByModel(sessions: seq<MockSession>, days: int) returns (response: Response)
    requires ValidSessions(sessions)
    ensures var first := DayNumber(Date(2026, 5, 27)) - (if days <= 0 then 14 else days) + 1;
            IsByModel(response, ModelRows(sessions, first))
  {
    var rows := WindowRows(sessions, Cutoff(if days <= 0 then 14 else days));
    response := AggregateByModel(rows);
  }

  // --- The response, read off the rows ---

  /** A model's family is the first of these names that it mentions, in either case. */
  lemma FamilyExactly(model: string)
    ensures ModelFamily(model) ==
            if Mentions(model, "opus") then "opus"
            else if Mentions(model, "haiku") then "haiku"
            else if Mentions(model, "sonnet") then "sonnet"
            else "other"
  {
    assert forall k :: 0 <= k < |"opus"| ==> 'a' <= "opus"[k] <= 'z';
    assert forall k :: 0 <= k < |"haiku"| ==> 'a' <= "haiku"[k] <= 'z';
    assert forall k :: 0 <= k < |"sonnet"| ==> 'a' <= "sonnet"[k] <= 'z';
    MentionsLower(model, "opus");
    MentionsLower(model, "haiku");
    MentionsLower(model, "sonnet");
  }

  predicate InWindow(s: MockSession, first: int) {
    ValidInstant(s.endedAt) && DayNumber(s.endedAt.date) >= first
  }

  /** The rows are the sessions of the window, in order, each with its own figures. */
  lemma {:induction false} ModelRowsAt(sessions: seq<MockSession>, first: int, p: MockSession -> bool, at: seq<nat>)
    requires ValidSessions(sessions) && at == Positions(sessions, p)
    requires forall s :: p(s) <==> InWindow(s, first)
    ensures |ModelRows(sessions, first)| == |at|
    ensures forall n :: 0 <= n < |at| ==>
              var s := sessions[at[n]];
              ModelRows(sessions, first)[n]
              == ModelRow(Stamp(s.endedAt), s.model, s.input, s.output, s.cacheRead, s.cacheWrite, s.cost)
    decreases |sessions|
  {
    if sessions != [] {
      var n := |sessions| - 1;
      ModelRowsAt(sessions[..n], first, p, Positions(sessions[..n], p));
    }
  }

  /** The same, said of the days of the window. */
  lemma ModelRowsExactly(sessions: seq<MockSession>, first: int) returns (at: seq<nat>)
    requires ValidSessions(sessions)
    ensures forall i: nat :: i in at <==> i < |sessions| && DayNumber(sessions[i].endedAt.date) >= first
    ensures forall m, n :: 0 <= m < n < |at| ==> at[m] < at[n]
    ensures |ModelRows(sessions, first)| == |at|
    ensures forall n :: 0 <= n < |at| ==>
              && at[n] < |sessions|
              && var s := sessions[at[n]];
                 ModelRows(sessions, first)[n]
                 == ModelRow(Stamp(s.endedAt), s.model, s.input, s.output, s.cacheRead, s.cacheWrite, s.cost)
  {
    var p := (s: MockSession) => InWindow(s, first);
    at := Positions(sessions, p);
    ModelRowsAt(sessions, first, p, at);
    forall i: nat
      ensures i in at <==> i < |sessions| && DayNumber(sessions[i].endedAt.date) >= first
    {
      PositionsExactly(sessions, p, i);
    }
    forall m, n | 0 <= m < n < |at|
      ensures at[m] < at[n]
    {
      PositionsIncrease(sessions, p, m, n);
    }
  }

  function RowInputIf(mine: ModelRow -> bool): ModelRow -> int {
    (r: ModelRow) => if mine(r) then r.input else 0
  }

  function RowOutputIf(mine: ModelRow -> bool): ModelRow -> int {
    (r: ModelRow) => if mine(r) then r.output else 0
  }

  function RowCacheReadIf(mine: ModelRow -> bool): ModelRow -> int {
    (r: ModelRow) => if mine(r) then r.cacheRead else 0
  }

  function RowCacheWriteIf(mine: ModelRow -> bool): ModelRow -> int {
    (r: ModelRow) => if mine(r) then r.cacheWrite else 0
  }

  function RowCostIf(mine: ModelRow -> bool): ModelRow -> real {
    (r: ModelRow) => if mine(r) then r.cost else 0.0
  }

  function RowOneIf(mine: ModelRow -> bool): ModelRow -> int {
    (r: ModelRow) => if mine(r) then 1 else 0
  }

  function RowSumsIf(rows: seq<ModelRow>, mine: ModelRow -> bool): Totals {
    Totals(Sum(rows, RowInputIf(mine)), Sum(rows, RowOutputIf(mine)), Sum(rows, RowCacheReadIf(mine)),
           Sum(rows, RowCacheWriteIf(mine)), SumReal(rows, RowCostIf(mine)), Sum(rows, RowOneIf(mine)))
  }

  lemma RowSumsIfSnoc(rows: seq<ModelRow>, r: ModelRow, mine: ModelRow -> bool)
    ensures RowSumsIf(rows + [r], mine) == Add(RowSumsIf(rows, mine), When(mine(r), RowTotals(r)))
  {
    SumSnoc(rows, r, RowInputIf(mine));
    SumSnoc(rows, r, RowOutputIf(mine));
    SumSnoc(rows, r, RowCacheReadIf(mine));
    SumSnoc(rows, r, RowCacheWriteIf(mine));
    SumSnoc(rows, r, RowOneIf(mine));
    SumRealSnoc(rows, r, RowCostIf(mine));
  }

  lemma {:induction false} FamilySums(rows: seq<ModelRow>, family: string, mine: ModelRow -> bool, sum: Totals)
    requires sum == SumFor(ByFamily(rows), family)
    requires forall r :: mine(r) <==> ModelFamily(r.model) == family
    ensures sum == RowSumsIf(rows, mine)
    decreases |rows|
  {
    if rows != [] {
      var before, r := rows[..|rows| - 1], rows[|rows| - 1];
      assert rows == before + [r];
      var was := SumFor(ByFamily(before), family);
      FamilySums(before, family, mine, was);
      RowSumsIfSnoc(before, r, mine);
      ByFamilySnoc(before, r);
      SumForSnoc(ByFamily(before), Row(ModelFamily(r.model), RowTotals(r)), family);
    }
  }

  /** A family's total holds the sums over the rows of the models of that family. */
  lemma TotalsExactly(rows: seq<ModelRow>, response: Response, i: nat, mine: ModelRow -> bool)
    requires IsByModel(response, rows) && i < |response.totals|
    requires forall r :: mine(r) <==> ModelFamily(r.model) == response.totals[i].family
    ensures var t := response.totals[i].totals;
            && t.input == Sum(rows, RowInputIf(mine)) && t.output == Sum(rows, RowOutputIf(mine))
            && t.cacheRead == Sum(rows, RowCacheReadIf(mine)) && t.cacheWrite == Sum(rows, RowCacheWriteIf(mine))
            && t.cost == SumReal(rows, RowCostIf(mine)) && t.sessions == Sum(rows, RowOneIf(mine))
            && response.totals[i].totalTokens == t.input + t.output + t.cacheRead + t.cacheWrite
  {
    FamilySums(rows, response.totals[i].family, mine, response.totals[i].totals);
  }

  function RowTokensIf(mine: ModelRow -> bool): ModelRow -> int {
    (r: ModelRow) => if mine(r) then r.input + r.output + r.cacheRead + r.cacheWrite else 0
  }

  lemma {:induction false} CellSums(rows: seq<ModelRow>, day: string, family: string, mine: ModelRow -> bool)
    requires forall r :: mine(r) <==> InCell(r, day, family)
    ensures CellTokens(rows, day, family) == Sum(rows, RowTokensIf(mine))
    decreases |rows|
  {
    if rows != [] {
      CellSums(rows[..|rows| - 1], day, family, mine);
    }
  }

  /** A day's entry for a family holds the tokens of the rows that begin with that day and are of
      that family; a family without such rows has no entry. */
  lemma CellsExactly(rows: seq<ModelRow>, response: Response, i: nat, family: string, mine: ModelRow -> bool)
    requires IsByModel(response, rows) && i < |response.daily|
    requires forall r :: mine(r) <==>
               && ModelFamily(r.model) == family
               && response.daily[i].bucket == (if |r.endedAt| >= 10 then r.endedAt[..10] else r.endedAt)
    ensures family in response.daily[i].totals <==> exists k :: 0 <= k < |rows| && mine(rows[k])
    ensures family in response.daily[i].totals ==> response.daily[i].totals[family] == Sum(rows, RowTokensIf(mine))
  {
    var day := response.daily[i].bucket;
    CellSums(rows, day, family, mine);
    assert CellsRight(response.daily[i].totals, rows, day);
    assert HasCell(rows, day, family) <==> exists k :: 0 <= k < |rows| && mine(rows[k]);
  }

  // --- Families within a day ---

  /** Reading a family a map does not have gives 0. */
  function Get(cells: map<string, int>, family: string): int {
    if family in cells then cells[family] else 0
  }

  function OverFamilies(cells: map<string, int>): int {
    Get(cells, "opus") + Get(cells, "haiku") + Get(cells, "sonnet") + Get(cells, "other")
  }

  lemma FamilyIsKnown(model: string)
    ensures ModelFamily(model) in FAMILIES
  {
    assert FAMILIES[0] == "opus" && FAMILIES[1] == "haiku" && FAMILIES[2] == "sonnet" && FAMILIES[3] == "other";
  }

  function DayTokens(rows: seq<ModelRow>, day: string): int {
    if rows == [] then 0 else
      var n := |rows| - 1;
      DayTokens(rows[..n], day) + (if DayOf(rows[n]) == day then RowTokens(rows[n]) else 0)
  }

  /** Each row is in exactly one family, so the families of a day share out its tokens. */
  lemma {:induction false} FamiliesShareDay(rows: seq<ModelRow>, day: string)
    ensures CellTokens(rows, day, "opus") + CellTokens(rows, day, "haiku") + CellTokens(rows, day, "sonnet")
            + CellTokens(rows, day, "other") == DayTokens(rows, day)
    decreases |rows|
  {
    if rows != [] {
      var n := |rows| - 1;
      FamiliesShareDay(rows[..n], day);
      FamiliesDiffer();
      var f := ModelFamily(rows[n].model);
      assert f == "opus" || f == "haiku" || f == "sonnet" || f == "other";
    }
  }

  lemma FamiliesDiffer()
    ensures "opus" != "haiku" && "opus" != "sonnet" && "opus" != "other"
    ensures "haiku" != "sonnet" && "haiku" != "other" && "sonnet" != "other"
  {
    assert "opus"[1] == 'p' && "haiku"[1] == 'a' && "sonnet"[1] == 'o' && "other"[1] == 't';
  }

  lemma GetIsCell(cells: map<string, int>, rows: seq<ModelRow>, day: string, family: string)
    requires CellsRight(cells, rows, day)
    ensures Get(cells, family) == CellTokens(rows, day, family)
  {
    if family !in cells {
      NoCellNoTokens(rows, day, family);
    }
  }

  lemma DayIsShared(cells: map<string, int>, rows: seq<ModelRow>, day: string)
    requires CellsRight(cells, rows, day)
    ensures OverFamilies(cells) == DayTokens(rows, day)
    ensures forall f :: f in cells ==> f in FAMILIES
  {
    GetIsCell(cells, rows, day, "opus");
    GetIsCell(cells, rows, day, "haiku");
    GetIsCell(cells, rows, day, "sonnet");
    GetIsCell(cells, rows, day, "other");
    FamiliesShareDay(rows, day);
    forall f | f in cells
      ensures f in FAMILIES
    {
      var i :| 0 <= i < |rows| && InCell(rows[i], day, f);
      FamilyIsKnown(rows[i].model);
    }
  }

  // --- Against the daily rollup ---

  lemma RowIsDay(s: MockSession)
    requires ValidInstant(s.endedAt)
    ensures DayOf(RowOf(s)) == KeyOf(Day, s.endedAt) && RowTotals(RowOf(s)) == TotalsOf(s)
  {
    assert Stamp(s.endedAt)[..10] == DateText(s.endedAt.date);
  }

  lemma DayTokensSnoc(rows: seq<ModelRow>, r: ModelRow, day: string)
    ensures DayTokens(rows + [r], day) == DayTokens(rows, day) + (if DayOf(r) == day then RowTokens(r) else 0)
  {
    assert (rows + [r])[..|rows|] == rows;
  }

  lemma TokensAdd(t: Totals, b: bool, u: Totals)
    ensures TokensOf(Add(t, When(b, u))) == TokensOf(t) + (if b then TokensOf(u) else 0)
  {
  }

  lemma SumTokensSnoc(rows: seq<Row<string>>, r: Row<string>, key: string, was: Totals, now: Totals)
    requires was == SumFor(rows, key) && now == SumFor(rows + [r], key)
    ensures TokensOf(now) == TokensOf(was) + (if r.key == key then TokensOf(r.totals) else 0)
  {
    SumForSnoc(rows, r, key);
    TokensAdd(was, r.key == key, r.totals);
  }

  lemma WindowStep(sessions: seq<MockSession>, cutoff: int)
    requires ValidSessions(sessions) && sessions != []
    ensures var n := |sessions| - 1;
            var s := sessions[n];
            var rows, models := Rows(sessions[..n], cutoff, Day), ModelRows(sessions[..n], cutoff);
            if DayNumber(s.endedAt.date) < cutoff
            then Rows(sessions, cutoff, Day) == rows && ModelRows(sessions, cutoff) == models
            else
              && Rows(sessions, cutoff, Day) == rows + [Row(KeyOf(Day, s.endedAt), TotalsOf(s))]
              && ModelRows(sessions, cutoff) == models + [RowOf(s)]
  {
  }

  lemma {:induction false} SameDays(sessions: seq<MockSession>, cutoff: int, day: string)
    requires ValidSessions(sessions)
    ensures HasRow(Rows(sessions, cutoff, Day), day) <==> HasDay(ModelRows(sessions, cutoff), day)
    decreases |sessions|
  {
    if sessions != [] {
      var n := |sessions| - 1;
      var s := sessions[n];
      SameDays(sessions[..n], cutoff, day);
      WindowStep(sessions, cutoff);
      if DayNumber(s.endedAt.date) >= cutoff {
        HasRowSnoc(Rows(sessions[..n], cutoff, Day), Row(KeyOf(Day, s.endedAt), TotalsOf(s)), day);
        HasDaySnoc(ModelRows(sessions[..n], cutoff), RowOf(s), day);
        RowIsDay(s);
      }
    }
  }

  /** One session more, on both sides. */
  lemma OneMoreRow(rows: seq<Row<string>>, models: seq<ModelRow>, r: Row<string>, m: ModelRow, day: string,
                   was: Totals, sum: Totals, tokens: int)
    requires r.key == DayOf(m) && TokensOf(r.totals) == RowTokens(m)
    requires was == SumFor(rows, day) && TokensOf(was) == DayTokens(models, day)
    requires sum == SumFor(rows + [r], day) && tokens == DayTokens(models + [m], day)
    ensures TokensOf(sum) == tokens
  {
    SumTokensSnoc(rows, r, day, was, sum);
    DayTokensSnoc(models, m, day);
  }

  lemma {:induction false} SameDayTokens(sessions: seq<MockSession>, cutoff: int, day: string, sum: Totals, tokens: int)
    requires ValidSessions(sessions)
    requires sum == SumFor(Rows(sessions, cutoff, Day), day) && tokens == DayTokens(ModelRows(sessions, cutoff), day)
    ensures TokensOf(sum) == tokens
    decreases |sessions|
  {
    if sessions != [] {
      var n := |sessions| - 1;
      var s := sessions[n];
      var rows, models := Rows(sessions[..n], cutoff, Day), ModelRows(sessions[..n], cutoff);
      var was := SumFor(rows, day);
      SameDayTokens(sessions[..n], cutoff, day, was, DayTokens(models, day));
      WindowStep(sessions, cutoff);
      if DayNumber(s.endedAt.date) >= cutoff {
        RowIsDay(s);
        OneMoreRow(rows, models, Row(KeyOf(Day, s.endedAt), TotalsOf(s)), RowOf(s), day, was, sum, tokens);
      }
    }
  }

  function DayBuckets(daily: seq<DailyByModel>): (r: seq<Bucket>)
    ensures |r| == |daily| && forall i :: 0 <= i < |r| ==> r[i] == Bucket(daily[i].bucket, ZERO, 0)
  {
    seq(|daily|, i requires 0 <= i < |daily| => Bucket(daily[i].bucket, ZERO, 0))
  }

  /** ByModel(d) has the days of Daily(d), and on each of them the families' tokens add up to the
      day's total. */
  lemma DaysMatchDaily(sessions: seq<MockSession>, days: int, daily: seq<Bucket>, response: Response)
    requires ValidSessions(sessions) && days > 0
    requires IsGrouping(daily, Rows(sessions, Cutoff(days), Day))
    requires IsByModel(response, ModelRows(sessions, Cutoff(days)))
    ensures |response.daily| == |daily|
    ensures forall i :: 0 <= i < |daily| ==>
                          && response.daily[i].bucket == daily[i].key
                          && OverFamilies(response.daily[i].totals) == daily[i].totalTokens
                          && forall f :: f in response.daily[i].totals ==> f in FAMILIES
  {
    var rows, models := Rows(sessions, Cutoff(days), Day), ModelRows(sessions, Cutoff(days));
    var named := DayBuckets(response.daily);
    forall key
      ensures HasBucket(named, key) <==> HasBucket(daily, key)
    {
      SameDays(sessions, Cutoff(days), key);
      NamedDays(response.daily, key);
    }
    SameKeys(named, daily);
    forall i | 0 <= i < |daily|
      ensures OverFamilies(response.daily[i].totals) == daily[i].totalTokens
      ensures forall f :: f in response.daily[i].totals ==> f in FAMILIES
    {
      DayIsShared(response.daily[i].totals, models, response.daily[i].bucket);
      SameDayTokens(sessions, Cutoff(days), daily[i].key, daily[i].totals, DayTokens(models, daily[i].key));
    }
  }

  lemma NamedDays(daily: seq<DailyByModel>, key: string)
    ensures HasBucket(DayBuckets(daily), key) <==> HasBucketFor(daily, key)
  {
    if HasBucketFor(daily, key) {
      var i :| 0 <= i < |daily| && daily[i].bucket == key;
      assert DayBuckets(daily)[i].key == key;
    }
  }

  // --- Days within a family ---

  function OverDays(daily: seq<DailyByModel>, family: string): int {
    if daily == [] then 0 else
      var n := |daily| - 1;
      OverDays(daily[..n], family) + Get(daily[n].totals, family)
  }

  /** The tokens of a family on the days listed. */
  function OverKeys(days: seq<string>, rows: seq<ModelRow>, family: string): int {
    if days == [] then 0 else
      var n := |days| - 1;
      OverKeys(days[..n], rows, family) + CellTokens(rows, days[n], family)
  }

  function DayKeys(daily: seq<DailyByModel>): (r: seq<string>)
    ensures |r| == |daily| && forall i :: 0 <= i < |r| ==> r[i] == daily[i].bucket
  {
    seq(|daily|, i requires 0 <= i < |daily| => daily[i].bucket)
  }

  lemma {:induction false} OverDaysIsOverKeys(daily: seq<DailyByModel>, rows: seq<ModelRow>, family: string)
    requires forall i :: 0 <= i < |daily| ==> CellsRight(daily[i].totals, rows, daily[i].bucket)
    ensures OverDays(daily, family) == OverKeys(DayKeys(daily), rows, family)
    decreases |daily|
  {
    if daily != [] {
      var n := |daily| - 1;
      OverDaysIsOverKeys(daily[..n], rows, family);
      assert DayKeys(daily)[..n] == DayKeys(daily[..n]);
      GetIsCell(daily[n].totals, rows, daily[n].bucket, family);
    }
  }

  /** A row counts on the one listed day that is its own. */
  lemma {:induction false} OverKeysSnoc(days: seq<string>, rows: seq<ModelRow>, r: ModelRow, family: string)
    requires Distinct(days)
    ensures OverKeys(days, rows + [r], family)
            == OverKeys(days, rows, family)
               + (if DayOf(r) in days && ModelFamily(r.model) == family then RowTokens(r) else 0)
    decreases |days|
  {
    if days != [] {
      var n := |days| - 1;
      OverKeysSnoc(days[..n], rows, r, family);
      CellTokensSnoc(rows, r, days[n], family);
      assert days == days[..n] + [days[n]];
      assert days[n] !in days[..n];
    }
  }

  lemma {:induction false} OverKeysNothing(days: seq<string>, family: string)
    ensures OverKeys(days, [], family) == 0
    decreases |days|
  {
    if days != [] {
      OverKeysNothing(days[..|days| - 1], family);
    }
  }

  lemma ByFamilySnoc(rows: seq<ModelRow>, r: ModelRow)
    ensures ByFamily(rows + [r]) == ByFamily(rows) + [Row(ModelFamily(r.model), RowTotals(r))]
  {
  }

  lemma FamilyTokensSnoc(rows: seq<ModelRow>, r: ModelRow, family: string, was: Totals, now: Totals)
    requires was == SumFor(ByFamily(rows), family) && now == SumFor(ByFamily(rows + [r]), family)
    ensures TokensOf(now) == TokensOf(was) + (if ModelFamily(r.model) == family then RowTokens(r) else 0)
  {
    ByFamilySnoc(rows, r);
    SumTokensSnoc(ByFamily(rows), Row(ModelFamily(r.model), RowTotals(r)), family, was, now);
  }

  lemma {:induction false} DaysShareFamily(days: seq<string>, rows: seq<ModelRow>, family: string, sum: Totals)
    requires Distinct(days) && forall i :: 0 <= i < |rows| ==> DayOf(rows[i]) in days
    requires sum == SumFor(ByFamily(rows), family)
    ensures OverKeys(days, rows, family) == TokensOf(sum)
    decreases |rows|
  {
    if rows == [] {
      OverKeysNothing(days, family);
    } else {
      var before, r := rows[..|rows| - 1], rows[|rows| - 1];
      var was := SumFor(ByFamily(before), family);
      assert rows == before + [r];
      assert forall i :: 0 <= i < |before| ==> before[i] == rows[i];
      DaysShareFamily(days, before, family, was);
      OneMoreShared(days, before, r, family, was, sum);
    }
  }

  lemma OneMoreShared(days: seq<string>, rows: seq<ModelRow>, r: ModelRow, family: string, was: Totals, sum: Totals)
    requires Distinct(days) && DayOf(r) in days && OverKeys(days, rows, family) == TokensOf(was)
    requires was == SumFor(ByFamily(rows), family) && sum == SumFor(ByFamily(rows + [r]), family)
    ensures OverKeys(days, rows + [r], family) == TokensOf(sum)
  {
    OverKeysSnoc(days, rows, r, family);
    FamilyTokensSnoc(rows, r, family, was, sum);
  }

  /** Within one response: a family's tokens over all days add up to the family's total, and a
      family that has no total has no tokens on any day. */
  lemma FamiliesMatchTotals(rows: seq<ModelRow>, response: Response, family: string)
    requires IsByModel(response, rows)
    ensures forall i :: 0 <= i < |response.totals| && response.totals[i].family == family ==>
                          OverDays(response.daily, family) == response.totals[i].totalTokens
    ensures !HasTotal(response.totals, family) ==> OverDays(response.daily, family) == 0
  {
    var days := DayKeys(response.daily);
    forall i, j | 0 <= i < j < |days|
      ensures days[i] != days[j]
    {
      LessTotal(days[i], days[j]);
    }
    forall i | 0 <= i < |rows|
      ensures DayOf(rows[i]) in days
    {
      assert HasBucketFor(response.daily, DayOf(rows[i]));
      var j :| 0 <= j < |response.daily| && response.daily[j].bucket == DayOf(rows[i]);
      assert days[j] == DayOf(rows[i]);
    }
    OverDaysIsOverKeys(response.daily, rows, family);
    DaysShareFamily(days, rows, family, SumFor(ByFamily(rows), family));
    if !HasTotal(response.totals, family) {
      NoRowNoSum(ByFamily(rows), family);
    }
  }
}
