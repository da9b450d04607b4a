/** Timestamps kept and compared as text (internal/db/db.go, internal/server/server.go): RFC 3339
    with whole seconds in UTC, where string comparison stands in for comparing instants. */
module Timestamps {
  import opened Text
  import opened Calendar
  import opened Options

  datatype Instant = Instant(date: Date, hour: nat, minute: nat, second: nat)

  predicate ValidInstant(i: Instant) {
    ValidDate(i.date) && i.hour < 24 && i.minute < 60 && i.second < 60
  }

  /** Seconds since the beginning of year 1. */
  function Seconds(i: Instant): int
    requires ValidInstant(i)
  {
    DayNumber(i.date) * 86400 + i.hour * 3600 + i.minute * 60 + i.second
  }

  /** The layout "2006-01-02". */
  function DateText(d: Date): (s: string)
    ensures |s| == 10
  {
    Pad(d.year, 4) + ("-" + (Pad(d.month, 2) + ("-" + Pad(d.day, 2))))
  }

  /** The time of day as "15:04:05". */
  function ClockText(i: Instant): (s: string)
    ensures |s| == 8
  {
    Pad(i.hour, 2) + (":" + (Pad(i.minute, 2) + (":" + Pad(i.second, 2))))
  }

  /** RFC 3339 in UTC, without a fraction. */
  function Stamp(i: Instant): string {
    Moment(i) + "Z"
  }

  function Moment(i: Instant): (s: string)
    ensures |s| == 19
  {
    DateText(i.date) + ("T" + ClockText(i))
  }

  /** What a stored timestamp looks like, and that it can be read back. */
  lemma StampReadsBack(i: Instant)
    requires ValidInstant(i)
    ensures var s := Stamp(i);
            && |s| == 20 && s[4] == '-' && s[7] == '-' && s[10] == 'T' && s[13] == ':' && s[16] == ':' && s[19] == 'Z'
            && IsDigits(s[..4]) && IsDigits(s[5..7]) && IsDigits(s[8..10])
            && IsDigits(s[11..13]) && IsDigits(s[14..16]) && IsDigits(s[17..19])
            && i == Instant(Date(Value(s[..4]), Value(s[5..7]), Value(s[8..10])),
                            Value(s[11..13]), Value(s[14..16]), Value(s[17..19]))
  {
    var d := i.date;
    var s := Stamp(i);
    assert Pow10(2) == 100 && Pow10(4) == 10000;
    ValueOfPad(d.year, 4);
    ValueOfPad(d.month, 2);
    ValueOfPad(d.day, 2);
    ValueOfPad(i.hour, 2);
    ValueOfPad(i.minute, 2);
    ValueOfPad(i.second, 2);
    DateFields(Pad(d.year, 4), Pad(d.month, 2), Pad(d.day, 2), "T" + ClockText(i) + "Z", s);
    ClockFields(DateText(d) + "T", Pad(i.hour, 2), Pad(i.minute, 2), Pad(i.second, 2), s);
  }

  lemma DateFields(y: string, m: string, d: string, rest: string, s: string)
    requires |y| == 4 && |m| == 2 && |d| == 2 && s == y + ("-" + (m + ("-" + d))) + rest
    ensures |s| >= 10 && s[..4] == y && s[4] == '-' && s[5..7] == m && s[7] == '-' && s[8..10] == d
  {
  }

  lemma ClockFields(before: string, h: string, m: string, c: string, s: string)
    requires |before| == 11 && |h| == 2 && |m| == 2 && |c| == 2
    requires s == before + (h + (":" + (m + (":" + c)))) + "Z"
    ensures |s| == 20 && s[10] == before[10]
    ensures s[11..13] == h && s[13] == ':' && s[14..16] == m && s[16] == ':' && s[17..19] == c && s[19] == 'Z'
  {
  }

  /** Seconds are counted without leap seconds, as Unix time is: 0 is the first of January 1970. */
  lemma UnixTime(i: Instant)
    requires ValidInstant(i)
    ensures Seconds(i) - 62_135_596_800
            == (DayNumber(i.date) - DayNumber(Date(1970, 1, 1))) * 86_400 + i.hour * 3600 + i.minute * 60 + i.second
  {
    assert DaysBeforeMonth(1970, 1) == 0;
    assert DayNumber(Date(1970, 1, 1)) == 719_162;
  }

  // --- Text order is time order ---

  /** A padded field, then a separator, then the rest. */
  lemma FieldOrder(m: nat, n: nat, w: nat, sep: string, c: string, d: string)
    requires m < Pow10(w) && n < Pow10(w)
    ensures Less(Pad(m, w) + (sep + c), Pad(n, w) + (sep + d)) <==> m < n || (m == n && Less(c, d))
    ensures Pad(m, w) + (sep + c) == Pad(n, w) + (sep + d) <==> m == n && c == d
  {
    PadOrder(m, n, w);
    LessByFields(Pad(m, w), Pad(n, w), sep + c, sep + d);
    LessByFields(sep, sep, c, d);
    LessIrreflexive(sep);
    Cancel(Pad(m, w), Pad(n, w), sep + c, sep + d);
    Cancel(sep, sep, c, d);
  }

  lemma Cancel(a: string, b: string, c: string, d: string)
    requires |a| == |b|
    ensures a + c == b + d <==> a == b && c == d
  {
    assert (a + c)[..|a|] == a && (b + d)[..|b|] == b;
    assert (a + c)[|a|..] == c && (b + d)[|b|..] == d;
  }

  lemma DateTextOrder(a: Date, b: Date)
    requires ValidDate(a) && ValidDate(b)
    ensures Less(DateText(a), DateText(b)) <==> DateBefore(a, b)
    ensures DateText(a) == DateText(b) <==> a == b
  {
    assert Pow10(2) == 100 && Pow10(4) == 10000;
    PadOrder(a.day, b.day, 2);
    FieldOrder(a.month, b.month, 2, "-", Pad(a.day, 2), Pad(b.day, 2));
    FieldOrder(a.year, b.year, 4, "-",
               Pad(a.month, 2) + ("-" + Pad(a.day, 2)), Pad(b.month, 2) + ("-" + Pad(b.day, 2)));
  }

  lemma ClockTextOrder(a: Instant, b: Instant)
    requires ValidInstant(a) && ValidInstant(b)
    ensures Less(ClockText(a), ClockText(b))
            <==> a.hour * 3600 + a.minute * 60 + a.second < b.hour * 3600 + b.minute * 60 + b.second
    ensures ClockText(a) == ClockText(b) <==> a.hour == b.hour && a.minute == b.minute && a.second == b.second
  {
    assert Pow10(2) == 100;
    PadOrder(a.second, b.second, 2);
    FieldOrder(a.minute, b.minute, 2, ":", Pad(a.second, 2), Pad(b.second, 2));
    FieldOrder(a.hour, b.hour, 2, ":",
               Pad(a.minute, 2) + (":" + Pad(a.second, 2)), Pad(b.minute, 2) + (":" + Pad(b.second, 2)));
  }

  lemma SecondsByFields(a: Instant, b: Instant)
    requires ValidInstant(a) && ValidInstant(b)
    ensures Seconds(a) < Seconds(b) <==>
              || DateBefore(a.date, b.date)
              || (a.date == b.date
                  && a.hour * 3600 + a.minute * 60 + a.second < b.hour * 3600 + b.minute * 60 + b.second)
  {
    DateOrder(a.date, b.date);
    DateOrder(b.date, a.date);
  }

  lemma MomentOrder(a: Instant, b: Instant)
    requires ValidInstant(a) && ValidInstant(b)
    ensures Less(Moment(a), Moment(b)) <==> Seconds(a) < Seconds(b)
    ensures Moment(a) == Moment(b) <==> a == b
  {
    DateTextOrder(a.date, b.date);
    ClockTextOrder(a, b);
    LessByFields(DateText(a.date), DateText(b.date), "T" + ClockText(a), "T" + ClockText(b));
    LessByFields("T", "T", ClockText(a), ClockText(b));
    LessIrreflexive("T");
    Cancel(DateText(a.date), DateText(b.date), "T" + ClockText(a), "T" + ClockText(b));
    Cancel("T", "T", ClockText(a), ClockText(b));
    SecondsByFields(a, b);
  }

  /** Stored timestamps sort as strings exactly as they sort in time. */
  lemma StampOrder(a: Instant, b: Instant)
    requires ValidInstant(a) && ValidInstant(b)
    ensures Less(Stamp(a), Stamp(b)) <==> Seconds(a) < Seconds(b)
    ensures Stamp(a) == Stamp(b) <==> a == b
  {
    MomentOrder(a, b);
    LessByFields(Moment(a), Moment(b), "Z", "Z");
    LessIrreflexive("Z");
    Cancel(Moment(a), Moment(b), "Z", "Z");
  }

  // --- The two range filters ---

  /** A listed session; only the timestamp matters to the filters. */
  datatype Session = Session(id: string, endedAt: string)

  /** The test of `filterByEndedAt`. */
  predicate MockKeeps(endedAt: string, from: string, to: string) {
    !(from != "" && Less(endedAt, from)) && !(to != "" && Less(to, endedAt))
  }

  /** The condition ListSessionsFiltered puts into its WHERE clause. */
  predicate SqlKeeps(endedAt: string, from: string, to: string) {
    && (from != "" ==> Less(from, endedAt) || from == endedAt)
    && (to != "" ==> Less(endedAt, to) || endedAt == to)
  }

  function Kept(sessions: seq<Session>, from: string, to: string): seq<Session> {
    if sessions == [] then [] else
      var n := |sessions| - 1;
      Kept(sessions[..n], from, to) + (if MockKeeps(sessions[n].endedAt, from, to) then [sessions[n]] else [])
  }

  lemma {:induction false} NoBoundsKeepAll(sessions: seq<Session>)
    ensures Kept(sessions, "", "") == sessions
    decreases |sessions|
  {
    if sessions != [] {
      NoBoundsKeepAll(sessions[..|sessions| - 1]);
    }
  }

  method FilterByEndedAt(sessions: seq<Session>, from: string, to: string) returns (out: seq<Session>)
    ensures out == Kept(sessions, from, to)
  {
    if from == "" && to == "" {
      NoBoundsKeepAll(sessions);
      return sessions;
    }
    out := [];
    for i := 0 to |sessions|
      invariant out == Kept(sessions[..i], from, to)
    {
      var s := sessions[i];
      assert sessions[..i + 1][..i] == sessions[..i];
      if from != "" && Less(s.endedAt, from) {
        continue;
      }
      if to != "" && Less(to, s.endedAt) {
        continue;
      }
      out := out + [s];
    }
    assert sessions[..|sessions|] == sessions;
  }

  /** The mock filter and the SQL condition are the same test, on any strings. */
  lemma FiltersAgree(endedAt: string, from: string, to: string)
    ensures MockKeeps(endedAt, from, to) <==> SqlKeeps(endedAt, from, to)
  {
    LessTotal(endedAt, from);
    LessTotal(to, endedAt);
  }

  /** A bound as the caller writes it; no bound is the empty string. */
  function BoundText(bound: Option<Instant>): string {
    match bound
    case None => ""
    case Some(i) => Stamp(i)
  }

  predicate InInterval(i: Instant, from: Option<Instant>, to: Option<Instant>)
    requires ValidInstant(i) && (from.Some? ==> ValidInstant(from.value)) && (to.Some? ==> ValidInstant(to.value))
  {
    (from.Some? ==> Seconds(from.value) <= Seconds(i)) && (to.Some? ==> Seconds(i) <= Seconds(to.value))
  }

  lemma KeepsInterval(i: Instant, from: Option<Instant>, to: Option<Instant>)
    requires ValidInstant(i) && (from.Some? ==> ValidInstant(from.value)) && (to.Some? ==> ValidInstant(to.value))
    ensures MockKeeps(Stamp(i), BoundText(from), BoundText(to)) <==> InInterval(i, from, to)
    ensures SqlKeeps(Stamp(i), BoundText(from), BoundText(to)) <==> InInterval(i, from, to)
  {
    if from.Some? {
      StampOrder(i, from.value);
    }
    if to.Some? {
      StampOrder(to.value, i);
    }
    FiltersAgree(Stamp(i), BoundText(from), BoundText(to));
  }

  /** The sessions of a list that lie in the closed interval, in order. */
  ghost function Within(sessions: seq<Session>, times: seq<Instant>, from: Option<Instant>,
                        to: Option<Instant>): seq<Session>
    requires |times| == |sessions| && forall k :: 0 <= k < |times| ==> ValidInstant(times[k])
    requires (from.Some? ==> ValidInstant(from.value)) && (to.Some? ==> ValidInstant(to.value))
  {
    if sessions == [] then [] else
      var n := |sessions| - 1;
      Within(sessions[..n], times[..n], from, to) + (if InInterval(times[n], from, to) then [sessions[n]] else [])
  }

  /** Filtering text keeps exactly the sessions that ended in the closed time interval. */
  lemma {:induction false} FilterIsTimeInterval(sessions: seq<Session>, times: seq<Instant>, from: Option<Instant>,
                                        to: Option<Instant>)
    requires |times| == |sessions|
    requires forall k :: 0 <= k < |times| ==> ValidInstant(times[k]) && sessions[k].endedAt == Stamp(times[k])
    requires (from.Some? ==> ValidInstant(from.value)) && (to.Some? ==> ValidInstant(to.value))
    ensures Kept(sessions, BoundText(from), BoundText(to)) == Within(sessions, times, from, to)
    decreases |sessions|
  {
    if sessions != [] {
      var n := |sessions| - 1;
      FilterIsTimeInterval(sessions[..n], times[..n], from, to);
      KeepsInterval(times[n], from, to);
    }
  }

  // --- Where text order fails ---

  /** RFC 3339 with a fraction of a second. */
  function Fractional(i: Instant, fraction: string): string {
    Moment(i) + ("." + fraction + "Z")
  }

  /** A bound with a fraction is read as if it came just before its whole second. As a lower bound
      it lets in a session that ended on that very second; as an upper bound it shuts it out. For
      every other second both filters still answer as time does. */
  lemma FractionIsReadAsJustBefore(i: Instant, bound: Instant, fraction: string)
    requires ValidInstant(i) && ValidInstant(bound)
    ensures MockKeeps(Stamp(i), Fractional(bound, fraction), "") <==> Seconds(bound) <= Seconds(i)
    ensures MockKeeps(Stamp(i), "", Fractional(bound, fraction)) <==> Seconds(i) < Seconds(bound)
  {
    MomentOrder(i, bound);
    MomentOrder(bound, i);
    LessByFields(Moment(i), Moment(bound), "Z", "." + fraction + "Z");
    LessByFields(Moment(bound), Moment(i), "." + fraction + "Z", "Z");
    assert Less("." + fraction + "Z", "Z") && !Less("Z", "." + fraction + "Z");
    assert Seconds(i) == Seconds(bound) <==> i == bound by {
      SecondsByFields(i, bound);
      SecondsByFields(bound, i);
    }
  }
}
