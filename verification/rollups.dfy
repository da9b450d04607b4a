/** The rollups of the dashboard: sessions grouped by hour, day and week (internal/mock/mock.go), and
    what it means for one grouping to be a coarsening of another. */
module Rollups {
  import opened Text
  import opened Calendar
  import opened Timestamps
  import opened Sums

  datatype Totals = Totals(input: int, output: int, cacheRead: int, cacheWrite: int, cost: real, sessions: int)

  const ZERO := Totals(0, 0, 0, 0, 0.0, 0)

  function Add(a: Totals, b: Totals): Totals {
    Totals(a.input + b.input, a.output + b.output, a.cacheRead + b.cacheRead, a.cacheWrite + b.cacheWrite,
           a.cost + b.cost, a.sessions + b.sessions)
  }

  function When(b: bool, t: Totals): Totals {
    if b then t else ZERO
  }

  function TokensOf(t: Totals): int {
    t.input + t.output + t.cacheRead + t.cacheWrite
  }

  datatype MockSession = MockSession(endedAt: Instant, input: int, output: int, cacheRead: int, cacheWrite: int,
                                     cost: real, model: string)

  function TotalsOf(s: MockSession): Totals {
    Totals(s.input, s.output, s.cacheRead, s.cacheWrite, s.cost, 1)
  }

  datatype Bucket = Bucket(key: string, totals: Totals, totalTokens: int)

  /** Something to be added into the bucket of its key. */
  datatype Row<K> = Row(key: K, totals: Totals)

  // --- Grouping rows by key ---

  function SumFor<K(==)>(rows: seq<Row<K>>, key: K): Totals {
    if rows == [] then ZERO else
      var n := |rows| - 1;
      Add(SumFor(rows[..n], key), When(rows[n].key == key, rows[n].totals))
  }

  predicate HasRow<K(==)>(rows: seq<Row<K>>, key: K) {
    rows != [] && (rows[|rows| - 1].key == key || HasRow(rows[..|rows| - 1], key))
  }

  predicate HasBucket(buckets: seq<Bucket>, key: string) {
    exists i :: 0 <= i < |buckets| && buckets[i].key == key
  }

  predicate SortedByKey(buckets: seq<Bucket>) {
    forall i, j :: 0 <= i < j < |buckets| ==> Less(buckets[i].key, buckets[j].key)
  }

  /** One bucket for each key that occurs, in key order, holding the sum of its rows. */
  ghost predicate IsGrouping(buckets: seq<Bucket>, rows: seq<Row<string>>) {
    && SortedByKey(buckets)
    && (forall key :: HasBucket(buckets, key) <==> HasRow(rows, key))
    && forall i :: 0 <= i < |buckets| ==>
                     && buckets[i].totals == SumFor(rows, buckets[i].key)
                     && buckets[i].totalTokens == TokensOf(buckets[i].totals)
  }

  // --- The code ---

  /** The instant the dataset is anchored to: 2026-05-27. */
  const REF_DAY := Date(2026, 5, 27)

  /** Sessions that ended before this day number are left out. */
  function Cutoff(days: int): int {
    DayNumber(REF_DAY) - days + 1
  }

  datatype Grain = Hour | Day | Week

  function HourText(i: Instant): string {
    DateText(i.date) + " " + Pad(i.hour, 2)
  }

  function KeyOf(grain: Grain, i: Instant): string
    requires ValidInstant(i)
  {
    match grain
    case Hour => HourText(i)
    case Day => DateText(i.date)
    case Week => DateWeekKey(i.date)
  }

  predicate ValidSessions(sessions: seq<MockSession>) {
    forall i :: 0 <= i < |sessions| ==> ValidInstant(sessions[i].endedAt)
  }

  /** The sessions in the window as rows of one grain. */
  function Rows(sessions: seq<MockSession>, cutoff: int, grain: Grain): seq<Row<string>>
    requires ValidSessions(sessions)
  {
    if sessions == [] then [] else
      var n := |sessions| - 1;
      var s := sessions[n];
      Rows(sessions[..n], cutoff, grain)
      + (if DayNumber(s.endedAt.date) < cutoff then [] else [Row(KeyOf(grain, s.endedAt), TotalsOf(s))])
  }

  lemma HasRowSnoc<K>(rows: seq<Row<K>>, r: Row<K>, key: K)
    ensures HasRow(rows + [r], key) <==> HasRow(rows, key) || r.key == key
  {
    assert (rows + [r])[..|rows|] == rows;
  }

  lemma {:induction false} RowAt<K>(rows: seq<Row<K>>, key: K) returns (i: nat)
    requires HasRow(rows, key)
    ensures i < |rows| && rows[i].key == key
    decreases |rows|
  {
    if rows[|rows| - 1].key == key {
      i := |rows| - 1;
    } else {
      i := RowAt(rows[..|rows| - 1], key);
    }
  }

  lemma {:induction false} RowIsThere<K>(rows: seq<Row<K>>, i: nat)
    requires i < |rows|
    ensures HasRow(rows, rows[i].key)
    decreases |rows|
  {
    if i < |rows| - 1 {
      RowIsThere(rows[..|rows| - 1], i);
    }
  }

  /** The map of buckets the loops maintain. */
  ghost predicate Tallies<K(!new)>(m: map<K, Totals>, rows: seq<Row<K>>) {
    && (forall key :: key in m <==> HasRow(rows, key))
    && forall key :: key in m ==> m[key] == SumFor(rows, key)
  }

  lemma SumForSnoc<K>(rows: seq<Row<K>>, r: Row<K>, key: K)
    ensures SumFor(rows + [r], key) == Add(SumFor(rows, key), When(r.key == key, r.totals))
  {
    assert (rows + [r])[..|rows|] == rows;
  }

  lemma {:induction false} NoRowNoSum<K>(rows: seq<Row<K>>, key: K)
    requires !HasRow(rows, key)
    ensures SumFor(rows, key) == ZERO
    decreases |rows|
  {
    if rows != [] {
      NoRowNoSum(rows[..|rows| - 1], key);
    }
  }

  /** What the loop body makes of the map when it sees a row. */
  function Tally<K(==)>(m: map<K, Totals>, r: Row<K>): map<K, Totals> {
    m[r.key := Add(if r.key in m then m[r.key] else ZERO, r.totals)]
  }

  lemma TallyNew<K>(m: map<K, Totals>, rows: seq<Row<K>>, r: Row<K>)
    requires r.key !in m && !HasRow(rows, r.key)
    ensures Tally(m, r)[r.key] == SumFor(rows + [r], r.key)
  {
    SumForSnoc(rows, r, r.key);
    NoRowNoSum(rows, r.key);
  }

  lemma TallyKnown<K>(m: map<K, Totals>, rows: seq<Row<K>>, r: Row<K>)
    requires r.key in m && m[r.key] == SumFor(rows, r.key)
    ensures Tally(m, r)[r.key] == SumFor(rows + [r], r.key)
  {
    SumForSnoc(rows, r, r.key);
  }

  lemma TallyOther<K>(m: map<K, Totals>, rows: seq<Row<K>>, r: Row<K>, key: K)
    requires key != r.key && key in m && m[key] == SumFor(rows, key)
    ensures Tally(m, r)[key] == SumFor(rows + [r], key)
  {
    SumForSnoc(rows, r, key);
    AddNothing(m[key]);
  }

  lemma AddNothing(t: Totals)
    ensures Add(t, ZERO) == t && Add(ZERO, t) == t
  {
  }

  lemma TallyRow<K(!new)>(m: map<K, Totals>, rows: seq<Row<K>>, r: Row<K>)
    requires Tallies(m, rows)
    ensures Tallies(Tally(m, r), rows + [r])
  {
    forall key
      ensures key in Tally(m, r) <==> HasRow(rows + [r], key)
    {
      HasRowSnoc(rows, r, key);
    }
    forall key | key in Tally(m, r)
      ensures Tally(m, r)[key] == SumFor(rows + [r], key)
    {
      if key != r.key {
        TallyOther(m, rows, r, key);
      } else if key in m {
        TallyKnown(m, rows, r);
      } else {
        TallyNew(m, rows, r);
      }
    }
  }

  function PlaceBucket(b: Bucket, buckets: seq<Bucket>): seq<Bucket> {
    if buckets == [] || Less(b.key, buckets[0].key) then [b] + buckets
    else [buckets[0]] + PlaceBucket(b, buckets[1..])
  }

  lemma {:induction false} PlaceBucketIn(b: Bucket, buckets: seq<Bucket>)
    requires SortedByKey(buckets) && forall i :: 0 <= i < |buckets| ==> buckets[i].key != b.key
    ensures SortedByKey(PlaceBucket(b, buckets))
    ensures forall x :: x in PlaceBucket(b, buckets) <==> x == b || x in buckets
    decreases |buckets|
  {
    if buckets == [] {
    } else if Less(b.key, buckets[0].key) {
      forall i | 0 <= i < |buckets|
        ensures Less(b.key, buckets[i].key)
      {
        if i > 0 {
          LessTransitive(b.key, buckets[0].key, buckets[i].key);
        }
      }
    } else {
      LessTotal(b.key, buckets[0].key);
      PlaceBucketIn(b, buckets[1..]);
      var rest := PlaceBucket(b, buckets[1..]);
      forall i | 0 <= i < |rest|
        ensures Less(buckets[0].key, rest[i].key)
      {
        assert rest[i] in rest;
        if rest[i] != b {
          var j :| 0 <= j < |buckets| - 1 && buckets[1..][j] == rest[i];
          assert buckets[j + 1] == rest[i];
        }
      }
      assert buckets == [buckets[0]] + buckets[1..];
    }
  }

  /** The second half of each rollup: the buckets taken out of the map and sorted by key. */
  method Collect(m: map<string, Totals>) returns (out: seq<Bucket>)
    ensures SortedByKey(out)
    ensures forall key :: HasBucket(out, key) <==> key in m
    ensures forall i :: 0 <= i < |out| ==>
                          out[i].key in m && out[i] == Bucket(out[i].key, m[out[i].key], TokensOf(m[out[i].key]))
  {
    out := [];
    var left := m.Keys;
    while left != {}
      invariant left <= m.Keys && SortedByKey(out)
      invariant forall b :: b in out ==>
                b.key in m && b.key !in left && b == Bucket(b.key, m[b.key], TokensOf(m[b.key]))
      invariant forall key :: key in m && key !in left ==> Bucket(key, m[key], TokensOf(m[key])) in out
      decreases left
    {
      var key :| key in left;
      var b := Bucket(key, m[key], TokensOf(m[key]));
      assert forall i :: 0 <= i < |out| ==> out[i] in out && out[i].key != key;
      PlaceBucketIn(b, out);
      out := PlaceBucket(b, out);
      left := left - {key};
    }
    forall key
      ensures HasBucket(out, key) <==> key in m
    {
      if key in m {
        assert Bucket(key, m[key], TokensOf(m[key])) in out;
      }
    }
  }

  /** The part of the loop body that a session in the window reaches. */
  method AddSession(buckets: map<string, Totals>, s: MockSession, grain: Grain, ghost rows: seq<Row<string>>)
    returns (m: map<string, Totals>)
    requires ValidInstant(s.endedAt) && Tallies(buckets, rows)
    ensures Tallies(m, rows + [Row(KeyOf(grain, s.endedAt), TotalsOf(s))])
  {
    var key := KeyOf(grain, s.endedAt);
    var b := if key in buckets then buckets[key] else ZERO;
    m := buckets[key := Add(b, TotalsOf(s))];
    TallyRow(buckets, rows, Row(key, TotalsOf(s)));
  }

  lemma RowsNext(sessions: seq<MockSession>, cutoff: int, grain: Grain, i: nat)
    requires ValidSessions(sessions) && i < |sessions|
    ensures var s := sessions[i];
            Rows(sessions[..i + 1], cutoff, grain)
            == if DayNumber(s.endedAt.date) < cutoff then Rows(sessions[..i], cutoff, grain)
               else Rows(sessions[..i], cutoff, grain) + [Row(KeyOf(grain, s.endedAt), TotalsOf(s))]
  {
    assert sessions[..i + 1][..i] == sessions[..i];
  }

  method Rollup(sessions: seq<MockSession>, cutoff: int, grain: Grain) returns (out: seq<Bucket>)
    requires ValidSessions(sessions)
    ensures IsGrouping(out, Rows(sessions, cutoff, grain))
  {
    var buckets: map<string, Totals> := map[];
    ghost var rows := [];
    for i := 0 to |sessions|
      invariant rows == Rows(sessions[..i], cutoff, grain) && Tallies(buckets, rows)
    {
      var s := sessions[i];
      RowsNext(sessions, cutoff, grain, i);
      if DayNumber(s.endedAt.date) < cutoff {
        continue;
      }
      buckets := AddSession(buckets, s, grain, rows);
      rows := rows + [Row(KeyOf(grain, s.endedAt), TotalsOf(s))];
    }
    assert sessions[..|sessions|] == sessions;
    out := Collect(buckets);
  }

  method Hourly(sessions: seq<MockSession>, days: int) returns (out: seq<Bucket>)
    requires ValidSessions(sessions)
    ensures var first := DayNumber(Date(2026, 5, 27)) - (if days <= 0 then 7 else days) + 1;
            IsGrouping(out, Rows(sessions, first, Hour))
  {
    out := Rollup(sessions, Cutoff(if days <= 0 then 7 else days), Hour);
  }

  method Daily(sessions: seq<MockSession>, days: int) returns (out: seq<Bucket>)
    requires ValidSessions(sessions)
    ensures var first := DayNumber(Date(2026, 5, 27)) - (if days <= 0 then 30 else days) + 1;
            IsGrouping(out, Rows(sessions, first, Day))
  {
    out := Rollup(sessions, Cutoff(if days <= 0 then 30 else days), Day);
  }

  method Weekly(sessions: seq<MockSession>, weeks: int) returns (out: seq<Bucket>)
    requires ValidSessions(sessions)
    ensures var first := DayNumber(Date(2026, 5, 27)) - 7 * (if weeks <= 0 then 12 else weeks) + 1;
            IsGrouping(out, Rows(sessions, first, Week))
  {
    out := Rollup(sessions, Cutoff(7 * (if weeks <= 0 then 12 else weeks)), Week);
  }

  // --- The buckets, read off the sessions ---

  /** What a session's instant says of its bucket in each rollup: "2006-01-02", "2006-01-02 15", or
      the week of its date. */
  lemma KeysAsText(i: Instant)
    requires ValidInstant(i)
    ensures |Stamp(i)| == 20
    ensures KeyOf(Day, i) == Stamp(i)[..10]
    ensures KeyOf(Hour, i) == Stamp(i)[..10] + " " + Stamp(i)[11..13]
    ensures KeyOf(Week, i) == DateWeekKey(i.date)
  {
    assert Stamp(i)[..10] == DateText(i.date);
    assert Stamp(i)[11..13] == Pad(i.hour, 2);
  }

  function InputIf(mine: MockSession -> bool): MockSession -> int {
    (s: MockSession) => if mine(s) then s.input else 0
  }

  function OutputIf(mine: MockSession -> bool): MockSession -> int {
    (s: MockSession) => if mine(s) then s.output else 0
  }

  function CacheReadIf(mine: MockSession -> bool): MockSession -> int {
    (s: MockSession) => if mine(s) then s.cacheRead else 0
  }

  function CacheWriteIf(mine: MockSession -> bool): MockSession -> int {
    (s: MockSession) => if mine(s) then s.cacheWrite else 0
  }

  function CostIf(mine: MockSession -> bool): MockSession -> real {
    (s: MockSession) => if mine(s) then s.cost else 0.0
  }

  function OneIf(mine: MockSession -> bool): MockSession -> int {
    (s: MockSession) => if mine(s) then 1 else 0
  }

  /** The sums over the sessions with a property. */
  function SumsIf(sessions: seq<MockSession>, mine: MockSession -> bool): Totals {
    Totals(Sum(sessions, InputIf(mine)), Sum(sessions, OutputIf(mine)), Sum(sessions, CacheReadIf(mine)),
           Sum(sessions, CacheWriteIf(mine)), SumReal(sessions, CostIf(mine)), Sum(sessions, OneIf(mine)))
  }

  lemma SumsIfSnoc(sessions: seq<MockSession>, s: MockSession, mine: MockSession -> bool)
    ensures SumsIf(sessions + [s], mine) ==
            Add(SumsIf(sessions, mine), When(mine(s), TotalsOf(s)))
  {
    SumSnoc(sessions, s, InputIf(mine));
    SumSnoc(sessions, s, OutputIf(mine));
    SumSnoc(sessions, s, CacheReadIf(mine));
    SumSnoc(sessions, s, CacheWriteIf(mine));
    SumSnoc(sessions, s, OneIf(mine));
    SumRealSnoc(sessions, s, CostIf(mine));
  }

  lemma {:induction false} SumsOfSessions(sessions: seq<MockSession>, first: int, grain: Grain, key: string,
                                          mine: MockSession -> bool, sum: Totals)
    requires ValidSessions(sessions) && sum == SumFor(Rows(sessions, first, grain), key)
    requires forall i :: 0 <= i < |sessions| ==>
               var s := sessions[i];
               mine(s) <==> DayNumber(s.endedAt.date) >= first && KeyOf(grain, s.endedAt) == key
    ensures sum == SumsIf(sessions, mine)
    ensures HasRow(Rows(sessions, first, grain), key) <==> exists i :: 0 <= i < |sessions| && mine(sessions[i])
    decreases |sessions|
  {
    if sessions != [] {
      var before, s := sessions[..|sessions| - 1], sessions[|sessions| - 1];
      assert sessions == before + [s];
      var rows := Rows(before, first, grain);
      var was := SumFor(rows, key);
      SumsOfSessions(before, first, grain, key, mine, was);
      SumsIfSnoc(before, s, mine);
      OneMoreMine(before, s, mine);
      OneMoreSession(before, s, first, grain, key, rows, Rows(sessions, first, grain));
    }
  }

  lemma OneMoreSession(before: seq<MockSession>, s: MockSession, first: int, grain: Grain, key: string,
                       rows: seq<Row<string>>, more: seq<Row<string>>)
    requires ValidSessions(before) && ValidInstant(s.endedAt) && ValidSessions(before + [s])
    requires rows == Rows(before, first, grain) && more == Rows(before + [s], first, grain)
    ensures var mine := DayNumber(s.endedAt.date) >= first && KeyOf(grain, s.endedAt) == key;
            && SumFor(more, key) == Add(SumFor(rows, key), When(mine, TotalsOf(s)))
            && (HasRow(more, key) <==> HasRow(rows, key) || mine)
  {
    assert (before + [s])[..|before|] == before;
    if DayNumber(s.endedAt.date) >= first {
      var r := Row(KeyOf(grain, s.endedAt), TotalsOf(s));
      assert more == rows + [r];
      SumForSnoc(rows, r, key);
      HasRowSnoc(rows, r, key);
    } else {
      assert more == rows;
      AddNothing(SumFor(rows, key));
    }
  }

  lemma OneMoreMine(before: seq<MockSession>, s: MockSession, mine: MockSession -> bool)
    ensures (exists i :: 0 <= i < |before + [s]| && mine((before + [s])[i])) <==>
              (exists i :: 0 <= i < |before| && mine(before[i])) || mine(s)
  {
    var more := before + [s];
    assert more[|before|] == s;
    if i :| 0 <= i < |before| && mine(before[i]) {
      assert mine(more[i]);
    }
  }

  /** A grouping of the sessions since a day: buckets in key order, one for each key that a session
      in the window has, with the sums over those sessions. */
  lemma BucketsExactly(sessions: seq<MockSession>, first: int, grain: Grain, out: seq<Bucket>, key: string,
                       mine: MockSession -> bool)
    requires ValidSessions(sessions) && IsGrouping(out, Rows(sessions, first, grain))
    requires forall i :: 0 <= i < |sessions| ==>
               var s := sessions[i];
               mine(s) <==>
                 && DayNumber(s.endedAt.date) >= first
                 && key == match grain
                           case Day => Stamp(s.endedAt)[..10]
                           case Hour => Stamp(s.endedAt)[..10] + " " + Stamp(s.endedAt)[11..13]
                           case Week => DateWeekKey(s.endedAt.date)
    ensures forall j, k :: 0 <= j < k < |out| ==> Less(out[j].key, out[k].key)
    ensures (exists j :: 0 <= j < |out| && out[j].key == key) <==> exists i :: 0 <= i < |sessions| && mine(sessions[i])
    ensures forall j :: 0 <= j < |out| && out[j].key == key ==>
              && out[j].totals.input == Sum(sessions, InputIf(mine))
              && out[j].totals.output == Sum(sessions, OutputIf(mine))
              && out[j].totals.cacheRead == Sum(sessions, CacheReadIf(mine))
              && out[j].totals.cacheWrite == Sum(sessions, CacheWriteIf(mine))
              && out[j].totals.cost == SumReal(sessions, CostIf(mine))
              && out[j].totals.sessions == Sum(sessions, OneIf(mine))
              && out[j].totalTokens == out[j].totals.input + out[j].totals.output + out[j].totals.cacheRead
                                       + out[j].totals.cacheWrite
  {
    forall i | 0 <= i < |sessions|
      ensures var s := sessions[i];
              mine(s) <==> DayNumber(s.endedAt.date) >= first && KeyOf(grain, s.endedAt) == key
    {
      KeysAsText(sessions[i].endedAt);
    }
    SumsOfSessions(sessions, first, grain, key, mine, SumFor(Rows(sessions, first, grain), key));
    assert HasBucket(out, key) <==> HasRow(Rows(sessions, first, grain), key);
  }

  // --- A grouping is determined by its rows ---

  lemma {:induction false} SameKeys(a: seq<Bucket>, b: seq<Bucket>)
    requires SortedByKey(a) && SortedByKey(b) && forall key :: HasBucket(a, key) <==> HasBucket(b, key)
    ensures |a| == |b| && forall i :: 0 <= i < |a| ==> a[i].key == b[i].key
    decreases |a|
  {
    assert a != [] ==> HasBucket(a, a[0].key);
    assert b != [] ==> HasBucket(b, b[0].key);
    if a != [] {
      var i :| 0 <= i < |b| && b[i].key == a[0].key;
      var j :| 0 <= j < |a| && a[j].key == b[0].key;
      LessTotal(a[0].key, b[0].key);
      assert a[0].key == b[0].key;
      forall key
        ensures HasBucket(a[1..], key) <==> HasBucket(b[1..], key)
      {
        TailKeys(a, key);
        TailKeys(b, key);
      }
      SameKeys(a[1..], b[1..]);
    }
  }

  lemma TailKeys(a: seq<Bucket>, key: string)
    requires a != [] && SortedByKey(a)
    ensures HasBucket(a[1..], key) <==> HasBucket(a, key) && key != a[0].key
  {
    if HasBucket(a, key) && key != a[0].key {
      var i :| 0 <= i < |a| && a[i].key == key;
      assert a[1..][i - 1].key == key;
    }
    if HasBucket(a[1..], key) {
      var i :| 0 <= i < |a| - 1 && a[1..][i].key == key;
      LessTotal(a[0].key, a[i + 1].key);
      assert a[i + 1].key == key;
    }
  }

  /** Groupings of rows with the same keys and sums are the same list of buckets. */
  lemma GroupingUnique(a: seq<Bucket>, rows: seq<Row<string>>, b: seq<Bucket>, rows': seq<Row<string>>)
    requires IsGrouping(a, rows) && IsGrouping(b, rows')
    requires forall key :: HasRow(rows, key) <==> HasRow(rows', key)
    requires forall key :: SumFor(rows, key) == SumFor(rows', key)
    ensures a == b
  {
    SameKeys(a, b);
    forall i | 0 <= i < |a|
      ensures a[i] == b[i]
    {
    }
  }

  // --- Collapsing ---

  /** The rows with their keys made coarser. */
  function Coarser<K, L>(rows: seq<Row<K>>, f: K -> L): (r: seq<Row<L>>)
    ensures |r| == |rows|
    ensures forall i :: 0 <= i < |r| ==> r[i] == Row(f(rows[i].key), rows[i].totals)
  {
    seq(|rows|, i requires 0 <= i < |rows| => Row(f(rows[i].key), rows[i].totals))
  }

  /** A grouping as rows again. */
  function AsRows(buckets: seq<Bucket>): (r: seq<Row<string>>)
    ensures |r| == |buckets|
    ensures forall i :: 0 <= i < |r| ==> r[i] == Row(buckets[i].key, buckets[i].totals)
  {
    seq(|buckets|, i requires 0 <= i < |buckets| => Row(buckets[i].key, buckets[i].totals))
  }

  /** A grouping as rows of a coarser grouping. */
  function Collapse(buckets: seq<Bucket>, f: string -> string): seq<Row<string>> {
    Coarser(AsRows(buckets), f)
  }

  /** The sum, over the keys that become `coarse`, of the rows of each key. */
  function SumOver<K(==), L(==)>(keys: seq<K>, rows: seq<Row<K>>, f: K -> L, coarse: L): Totals {
    if keys == [] then ZERO else
      var n := |keys| - 1;
      Add(SumOver(keys[..n], rows, f, coarse), When(f(keys[n]) == coarse, SumFor(rows, keys[n])))
  }

  predicate Distinct<K(==)>(keys: seq<K>) {
    forall i, j :: 0 <= i < j < |keys| ==> keys[i] != keys[j]
  }

  /** What one row adds to the sum over some keys. */
  function Share<K(==), L(==)>(keys: seq<K>, r: Row<K>, f: K -> L, coarse: L): Totals {
    if keys == [] then ZERO else
      var n := |keys| - 1;
      Add(Share(keys[..n], r, f, coarse), When(f(keys[n]) == coarse, When(r.key == keys[n], r.totals)))
  }

  lemma AddShuffle(a: Totals, b: Totals, c: Totals, p: bool, x: Totals, y: Totals, z: Totals)
    requires a == Add(b, c) && x == Add(y, z)
    ensures Add(a, When(p, x)) == Add(Add(b, When(p, y)), Add(c, When(p, z)))
  {
  }

  lemma {:induction false} SumOverSnoc<K, L>(keys: seq<K>, rows: seq<Row<K>>, r: Row<K>, f: K -> L, coarse: L)
    ensures SumOver(keys, rows + [r], f, coarse) == Add(SumOver(keys, rows, f, coarse), Share(keys, r, f, coarse))
    decreases |keys|
  {
    if keys != [] {
      var n := |keys| - 1;
      var k := keys[n];
      SumOverSnoc(keys[..n], rows, r, f, coarse);
      SumForSnoc(rows, r, k);
      AddShuffle(SumOver(keys[..n], rows + [r], f, coarse), SumOver(keys[..n], rows, f, coarse),
                 Share(keys[..n], r, f, coarse),
                 f(k) == coarse, SumFor(rows + [r], k), SumFor(rows, k), When(r.key == k, r.totals));
    }
  }

  lemma {:induction false} NoShare<K, L>(keys: seq<K>, r: Row<K>, f: K -> L, coarse: L)
    requires forall i :: 0 <= i < |keys| ==> keys[i] != r.key
    ensures Share(keys, r, f, coarse) == ZERO
    decreases |keys|
  {
    if keys != [] {
      NoShare(keys[..|keys| - 1], r, f, coarse);
    }
  }

  lemma LastShare<K, L>(keys: seq<K>, r: Row<K>, f: K -> L, coarse: L)
    requires keys != [] && keys[|keys| - 1] == r.key && Share(keys[..|keys| - 1], r, f, coarse) == ZERO
    ensures Share(keys, r, f, coarse) == When(f(r.key) == coarse, r.totals)
  {
    var own := When(f(r.key) == coarse, r.totals);
    assert Share(keys, r, f, coarse) == Add(ZERO, own);
    AddNothing(own);
  }

  lemma EarlierShare<K, L>(keys: seq<K>, r: Row<K>, f: K -> L, coarse: L)
    requires keys != [] && keys[|keys| - 1] != r.key
    ensures Share(keys, r, f, coarse) == Share(keys[..|keys| - 1], r, f, coarse)
  {
    var n := |keys| - 1;
    var rest := Share(keys[..n], r, f, coarse);
    assert Share(keys, r, f, coarse) == Add(rest, When(f(keys[n]) == coarse, ZERO));
    assert Share(keys, r, f, coarse) == Add(rest, ZERO);
    AddNothing(rest);
  }

  /** A row adds to exactly one of the keys: its own. */
  lemma {:induction false} OneShare<K, L>(keys: seq<K>, p: nat, r: Row<K>, f: K -> L, coarse: L, share: Totals)
    requires Distinct(keys) && p < |keys| && keys[p] == r.key
    requires share == Share(keys, r, f, coarse)
    ensures share == When(f(r.key) == coarse, r.totals)
    decreases |keys|
  {
    var n := |keys| - 1;
    if p == n {
      NoShare(keys[..n], r, f, coarse);
      LastShare(keys, r, f, coarse);
    } else {
      EarlierShare(keys, r, f, coarse);
      OneShare(keys[..n], p, r, f, coarse, share);
    }
  }

  lemma {:induction false} SumOverNothing<K, L>(keys: seq<K>, f: K -> L, coarse: L)
    ensures SumOver(keys, [], f, coarse) == ZERO
    decreases |keys|
  {
    if keys != [] {
      SumOverNothing(keys[..|keys| - 1], f, coarse);
    }
  }

  lemma CoarserSnoc<K, L>(rows: seq<Row<K>>, r: Row<K>, f: K -> L, coarse: L)
    ensures SumFor(Coarser(rows + [r], f), coarse)
            == Add(SumFor(Coarser(rows, f), coarse), When(f(r.key) == coarse, r.totals))
  {
    assert Coarser(rows + [r], f) == Coarser(rows, f) + [Row(f(r.key), r.totals)];
    SumForSnoc(Coarser(rows, f), Row(f(r.key), r.totals), coarse);
  }

  /** Summing key by key is summing row by row. */
  lemma {:induction false} SumsExchange<K, L>(keys: seq<K>, rows: seq<Row<K>>, f: K -> L, coarse: L)
    requires Distinct(keys) && forall i :: 0 <= i < |rows| ==> rows[i].key in keys
    ensures SumOver(keys, rows, f, coarse) == SumFor(Coarser(rows, f), coarse)
    decreases |rows|
  {
    if rows == [] {
      SumOverNothing(keys, f, coarse);
    } else {
      var n := |rows| - 1;
      var r := rows[n];
      SumsExchange(keys, rows[..n], f, coarse);
      assert rows == rows[..n] + [r];
      SumOverSnoc(keys, rows[..n], r, f, coarse);
      var p :| 0 <= p < |keys| && keys[p] == r.key;
      OneShare(keys, p, r, f, coarse, Share(keys, r, f, coarse));
      CoarserSnoc(rows[..n], r, f, coarse);
    }
  }

  function KeysOf(buckets: seq<Bucket>): (r: seq<string>)
    ensures |r| == |buckets| && forall i :: 0 <= i < |r| ==> r[i] == buckets[i].key
  {
    seq(|buckets|, i requires 0 <= i < |buckets| => buckets[i].key)
  }

  lemma {:induction false} CollapseSums(buckets: seq<Bucket>, rows: seq<Row<string>>, f: string -> string,
                                        coarse: string)
    requires forall i :: 0 <= i < |buckets| ==> buckets[i].totals == SumFor(rows, buckets[i].key)
    ensures SumFor(Collapse(buckets, f), coarse) == SumOver(KeysOf(buckets), rows, f, coarse)
    decreases |buckets|
  {
    if buckets != [] {
      var n := |buckets| - 1;
      CollapseSums(buckets[..n], rows, f, coarse);
      assert Collapse(buckets, f)[..n] == Collapse(buckets[..n], f);
      assert KeysOf(buckets)[..n] == KeysOf(buckets[..n]);
    }
  }

  lemma GroupingKeys(buckets: seq<Bucket>, rows: seq<Row<string>>)
    requires IsGrouping(buckets, rows)
    ensures Distinct(KeysOf(buckets)) && forall i :: 0 <= i < |rows| ==> rows[i].key in KeysOf(buckets)
  {
    forall i, j | 0 <= i < j < |buckets|
      ensures buckets[i].key != buckets[j].key
    {
      LessTotal(buckets[i].key, buckets[j].key);
    }
    forall i | 0 <= i < |rows|
      ensures rows[i].key in KeysOf(buckets)
    {
      RowIsThere(rows, i);
      assert HasBucket(buckets, rows[i].key);
      var j :| 0 <= j < |buckets| && buckets[j].key == rows[i].key;
      assert KeysOf(buckets)[j] == rows[i].key;
    }
  }

  lemma CollapseKeys(buckets: seq<Bucket>, rows: seq<Row<string>>, f: string -> string, key: string)
    requires IsGrouping(buckets, rows)
    ensures HasRow(Collapse(buckets, f), key) <==> HasRow(Coarser(rows, f), key)
  {
    if HasRow(Collapse(buckets, f), key) {
      var i := RowAt(Collapse(buckets, f), key);
      assert HasBucket(buckets, buckets[i].key);
      var j := RowAt(rows, buckets[i].key);
      RowIsThere(Coarser(rows, f), j);
    }
    if HasRow(Coarser(rows, f), key) {
      var j := RowAt(Coarser(rows, f), key);
      RowIsThere(rows, j);
      assert HasBucket(buckets, rows[j].key);
      var i :| 0 <= i < |buckets| && buckets[i].key == rows[j].key;
      RowIsThere(Collapse(buckets, f), i);
    }
  }

  /** Grouping finely and then collapsing is grouping coarsely. */
  lemma Regroup(fine: seq<Bucket>, rows: seq<Row<string>>, f: string -> string, collapsed: seq<Bucket>,
                coarse: seq<Bucket>)
    requires IsGrouping(fine, rows)
    requires IsGrouping(collapsed, Collapse(fine, f)) && IsGrouping(coarse, Coarser(rows, f))
    ensures collapsed == coarse
  {
    GroupingKeys(fine, rows);
    forall key
      ensures HasRow(Collapse(fine, f), key) <==> HasRow(Coarser(rows, f), key)
      ensures SumFor(Collapse(fine, f), key) == SumFor(Coarser(rows, f), key)
    {
      CollapseKeys(fine, rows, f, key);
      CollapseSums(fine, rows, f, key);
      SumsExchange(KeysOf(fine), rows, f, key);
    }
    GroupingUnique(collapsed, Collapse(fine, f), coarse, Coarser(rows, f));
  }

  // --- Hours into days, days into weeks ---

  /** The date part of an hour's key. */
  function DatePart(key: string): string {
    if |key| >= 10 then key[..10] else key
  }

  function FieldValue(s: string): nat {
    if IsDigits(s) then Value(s) else 0
  }

  /** The date that a "2006-01-02" text says. */
  function ParseDate(key: string): Date {
    if |key| != 10 then Date(0, 0, 0)
    else Date(FieldValue(key[..4]), FieldValue(key[5..7]), FieldValue(key[8..]))
  }

  /** The week a date's key belongs to. */
  function WeekOfDate(key: string): string {
    var d := ParseDate(key);
    if ValidDate(d) then DateWeekKey(d) else ""
  }

  lemma HourHasDate(i: Instant)
    ensures DatePart(HourText(i)) == DateText(i.date)
  {
    assert HourText(i)[..10] == DateText(i.date);
  }

  lemma DateSlices(y: string, m: string, d: string)
    requires |y| == 4 && |m| == 2 && |d| == 2
    ensures var s := y + ("-" + (m + ("-" + d)));
            |s| == 10 && s[..4] == y && s[5..7] == m && s[8..] == d
  {
  }

  lemma FieldOfPad(n: nat, w: nat)
    requires n < Pow10(w)
    ensures FieldValue(Pad(n, w)) == n
  {
    ValueOfPad(n, w);
  }

  lemma ParseDateText(d: Date)
    requires ValidDate(d)
    ensures ParseDate(DateText(d)) == d
  {
    assert Pow10(2) == 100 && Pow10(4) == 10000;
    DateSlices(Pad(d.year, 4), Pad(d.month, 2), Pad(d.day, 2));
    FieldOfPad(d.year, 4);
    FieldOfPad(d.month, 2);
    FieldOfPad(d.day, 2);
  }

  lemma {:induction false} HoursAreDays(sessions: seq<MockSession>, cutoff: int)
    requires ValidSessions(sessions)
    ensures Coarser(Rows(sessions, cutoff, Hour), DatePart) == Rows(sessions, cutoff, Day)
    decreases |sessions|
  {
    if sessions != [] {
      var n := |sessions| - 1;
      HoursAreDays(sessions[..n], cutoff);
      HourHasDate(sessions[n].endedAt);
    }
  }

  lemma {:induction false} DaysAreWeeks(sessions: seq<MockSession>, cutoff: int)
    requires ValidSessions(sessions)
    ensures Coarser(Rows(sessions, cutoff, Day), WeekOfDate) == Rows(sessions, cutoff, Week)
    decreases |sessions|
  {
    if sessions != [] {
      var n := |sessions| - 1;
      DaysAreWeeks(sessions[..n], cutoff);
      ParseDateText(sessions[n].endedAt.date);
    }
  }

  /** Collapsing Hourly(d) by date gives Daily(d). */
  lemma HourlyCollapsesToDaily(sessions: seq<MockSession>, days: int, hourly: seq<Bucket>, collapsed: seq<Bucket>,
                               daily: seq<Bucket>)
    requires ValidSessions(sessions) && days > 0
    requires IsGrouping(hourly, Rows(sessions, Cutoff(days), Hour))
    requires IsGrouping(collapsed, Collapse(hourly, DatePart))
    requires IsGrouping(daily, Rows(sessions, Cutoff(days), Day))
    ensures collapsed == daily
  {
    HoursAreDays(sessions, Cutoff(days));
    Regroup(hourly, Rows(sessions, Cutoff(days), Hour), DatePart, collapsed, daily);
  }

  /** Collapsing Daily(7 * w) by week key gives Weekly(w). */
  lemma DailyCollapsesToWeekly(sessions: seq<MockSession>, weeks: int, daily: seq<Bucket>, collapsed: seq<Bucket>,
                               weekly: seq<Bucket>)
    requires ValidSessions(sessions) && weeks > 0
    requires IsGrouping(daily, Rows(sessions, Cutoff(7 * weeks), Day))
    requires IsGrouping(collapsed, Collapse(daily, WeekOfDate))
    requires IsGrouping(weekly, Rows(sessions, Cutoff(7 * weeks), Week))
    ensures collapsed == weekly
  {
    DaysAreWeeks(sessions, Cutoff(7 * weeks));
    Regroup(daily, Rows(sessions, Cutoff(7 * weeks), Day), WeekOfDate, collapsed, weekly);
  }
}
