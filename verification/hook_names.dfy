/** File names of the hook's on-disk buffer, and the suffix a draining process puts on a file it
    has claimed (cmd/sessionlens-hook/main.go). */
module HookNames {
  import opened Text

  const MARKER := ".processing-"
  const JSON := ".json"
  const TEMP := ".tmp"

  // --- Scanning for the claim suffix ---

  method LastIndex(s: string, sub: string) returns (i: int)
    ensures i == -1 || OccursAt(s, sub, i)
    ensures forall j :: i < j ==> !OccursAt(s, sub, j)
  {
    i := |s| - |sub|;
    while i >= 0
      invariant -1 <= i || |s| - |sub| == i
      invariant forall j :: i < j ==> !OccursAt(s, sub, j)
    {
      if s[i..i + |sub|] == sub {
        return;
      }
      i := i - 1;
    }
    i := -1;
  }

  /** `path` is `orig` with a claim suffix: the marker and at least one digit. */
  predicate IsClaimOf(path: string, orig: string) {
    && |path| > |orig| + |MARKER|
    && path[..|orig| + |MARKER|] == orig + MARKER
    && IsDigits(path[|orig| + |MARKER|..])
  }

  lemma ClaimSuffixHasOneDot(path: string, orig: string, j: int)
    requires IsClaimOf(path, orig) && |orig| < j < |path|
    ensures path[j] != '.'
  {
    var head := orig + MARKER;
    if j < |head| {
      assert path[j] == path[..|head|][j] == MARKER[j - |orig|];
    } else {
      assert path[j] == path[|head|..][j - |head|];
    }
  }

  /** No second marker can start inside a claim suffix, so the marker of the suffix is the last. */
  lemma ClaimMarkerIsLast(path: string, orig: string, j: int)
    requires IsClaimOf(path, orig) && OccursAt(path, MARKER, j)
    ensures j <= |orig|
  {
    assert path[j] == path[j..j + |MARKER|][0] == '.';
    if j > |orig| {
      ClaimSuffixHasOneDot(path, orig, j);
    }
  }

  lemma ClaimMarkerOccurs(path: string, orig: string)
    requires IsClaimOf(path, orig)
    ensures OccursAt(path, MARKER, |orig|)
  {
    var k := |orig| + |MARKER|;
    assert path[|orig|..k] == path[..k][|orig|..] == MARKER;
  }

  /** A path carries at most one claim suffix: what it was claimed from is determined. */
  lemma ClaimOriginUnique(path: string, p: string, q: string)
    requires IsClaimOf(path, p) && IsClaimOf(path, q)
    ensures p == q
  {
    ClaimMarkerOccurs(path, p);
    ClaimMarkerOccurs(path, q);
    ClaimMarkerIsLast(path, p, |q|);
    ClaimMarkerIsLast(path, q, |p|);
    var k := |p| + |MARKER|;
    assert p == path[..k][..|p|] && q == path[..k][..|q|];
  }

  /** The last marker decides: only what precedes it can be the origin of the claim. */
  lemma ClaimAtLastMarker(path: string, i: int, p: string)
    requires OccursAt(path, MARKER, i) && forall j :: i < j ==> !OccursAt(path, MARKER, j)
    ensures IsClaimOf(path, p) <==>
              p == path[..i] && path[i + |MARKER|..] != "" && IsDigits(path[i + |MARKER|..])
  {
    if IsClaimOf(path, p) {
      ClaimMarkerOccurs(path, p);
      ClaimMarkerIsLast(path, p, i);
      assert p == path[..i + |MARKER|][..i];
    }
    assert path[..i + |MARKER|] == path[..i] + path[i..i + |MARKER|];
  }

  /** The result is the path before its claim suffix; it is "" exactly when the path is not the
      claim of any non-empty path. */
  method StripProcessingSuffix(path: string) returns (orig: string)
    ensures orig != "" ==> IsClaimOf(path, orig)
    ensures orig == "" ==> forall p :: p != "" ==> !IsClaimOf(path, p)
  {
    var i := LastIndex(path, MARKER);
    if i < 0 {
      forall p
        ensures !IsClaimOf(path, p)
      {
        if IsClaimOf(path, p) {
          ClaimMarkerOccurs(path, p);
        }
      }
      return "";
    }
    forall p
      ensures IsClaimOf(path, p) <==>
                p == path[..i] && path[i + |MARKER|..] != "" && IsDigits(path[i + |MARKER|..])
    {
      ClaimAtLastMarker(path, i, p);
    }
    var tail := path[i + |MARKER|..];
    if tail == "" {
      return "";
    }
    var k := 0;
    while k < |tail|
      invariant 0 <= k <= |tail|
      invariant forall j :: 0 <= j < k ==> IsDigit(tail[j])
    {
      if tail[k] < '0' || tail[k] > '9' {
        assert !IsDigit(tail[k]);
        return "";
      }
      k := k + 1;
    }
    orig := path[..i];
  }

  // --- The names the hook creates ---

  /** `<UnixNano>-<6 random digits>`, the part of a buffer file's name before ".json". */
  datatype Base = Base(stamp: nat, serial: nat)

  /** The three kinds of file a buffer directory holds. */
  datatype Name =
    | Plain(base: Base)
    | Claimed(base: Base, pid: nat)
    | Temp(base: Base)

  function FileName(b: Base): string {
    Decimal(b.stamp) + "-" + Pad(b.serial, 6) + JSON
  }

  /** In words: the path is the other one, ".processing-", and at least one digit. */
  lemma ClaimMeans(path: string, orig: string)
    ensures IsClaimOf(path, orig) <==>
              exists digits :: digits != "" && IsDigits(digits) && path == orig + ".processing-" + digits
  {
    if IsClaimOf(path, orig) {
      var digits := path[|orig| + |MARKER|..];
      assert path == orig + ".processing-" + digits;
    }
    if digits :| digits != "" && IsDigits(digits) && path == orig + ".processing-" + digits {
      assert path[..|orig| + |MARKER|] == orig + MARKER && path[|orig| + |MARKER|..] == digits;
    }
  }

  function Ending(n: Name): string {
    match n
    case Plain(_) => ""
    case Claimed(_, pid) => MARKER + Decimal(pid)
    case Temp(_) => TEMP
  }

  function Render(n: Name): string {
    FileName(n.base) + Ending(n)
  }

  predicate HasSuffix(s: string, suffix: string) {
    |suffix| <= |s| && s[|s| - |suffix|..] == suffix
  }

  /** The glob `*.json`. */
  predicate MatchesPlain(name: string) {
    HasSuffix(name, JSON)
  }

  /** The glob `*.json.processing-*`. */
  ghost predicate MatchesStale(name: string) {
    Occurs(name, JSON + MARKER)
  }

  /** Claiming then stripping gives back the claimed path, whatever the path is: it may itself
      contain the marker, or end in a claim suffix. */
  lemma ClaimThenStrip(path: string, pid: nat)
    ensures IsClaimOf(path + MARKER + Decimal(pid), path)
  {
    var c := path + MARKER + Decimal(pid);
    assert c[..|path| + |MARKER|] == path + MARKER;
    assert c[|path| + |MARKER|..] == Decimal(pid);
  }

  /** The one path the two conventions cannot tell apart: the claim of "" strips to "", the same
      answer as for a path that is no claim. */
  lemma EmptyPathIsNotRecovered(pid: nat)
    ensures IsClaimOf(MARKER + Decimal(pid), "")
    ensures forall p :: p != "" ==> !IsClaimOf(MARKER + Decimal(pid), p)
  {
    var c := MARKER + Decimal(pid);
    assert "" + MARKER + Decimal(pid) == c;
    ClaimThenStrip("", pid);
    forall p | IsClaimOf(c, p)
      ensures p == ""
    {
      ClaimOriginUnique(c, p, "");
    }
  }

  /** The names of the three kinds of file, and what the two globs take. */
  lemma NamesAsText(b: Base, pid: nat, name: string)
    ensures Render(Plain(b)) == Decimal(b.stamp) + "-" + Pad(b.serial, 6) + ".json"
    ensures Render(Claimed(b, pid)) == Render(Plain(b)) + ".processing-" + Decimal(pid)
    ensures Render(Temp(b)) == Render(Plain(b)) + ".tmp"
    ensures MatchesPlain(name) <==> exists stem :: name == stem + ".json"
    ensures MatchesStale(name) <==> exists stem, rest :: name == stem + ".json.processing-" + rest
  {
    assert Render(Plain(b)) == FileName(b);
    assert FileName(b) + (MARKER + Decimal(pid)) == FileName(b) + ".processing-" + Decimal(pid);
    if MatchesPlain(name) {
      assert name == name[..|name| - |JSON|] + ".json";
    }
    if stem :| name == stem + ".json" {
      assert name[|name| - |JSON|..] == JSON;
    }
    StaleGlobAsText(name);
  }

  lemma StaleGlobAsText(name: string)
    ensures MatchesStale(name) <==> exists stem, rest :: name == stem + ".json.processing-" + rest
  {
    var middle := JSON + MARKER;
    assert middle == ".json.processing-";
    if i :| 0 <= i <= |name| && OccursAt(name, middle, i) {
      var stem, rest := name[..i], name[i + |middle|..];
      assert name == stem + ".json.processing-" + rest;
    }
    if stem, rest :| name == stem + ".json.processing-" + rest {
      assert name[|stem|..|stem| + |middle|] == middle;
      assert OccursAt(name, middle, |stem|);
    }
  }

  function FullPath(dir: string, n: Name): string {
    dir + "/" + Render(n)
  }

  lemma ClaimedPath(dir: string, b: Base, pid: nat)
    ensures FullPath(dir, Claimed(b, pid)) == FullPath(dir, Plain(b)) + MARKER + Decimal(pid)
  {
    var f, e := FileName(b), MARKER + Decimal(pid);
    assert f + "" == f;
    assert dir + "/" + (f + e) == dir + "/" + f + e;
    assert dir + "/" + f + e == dir + "/" + f + MARKER + Decimal(pid);
  }

  /** In a buffer directory, stripping a claimed name gives the plain name of the same event, and
      only that. */
  lemma StripOnBufferNames(dir: string, b: Base, pid: nat, orig: string)
    ensures IsClaimOf(FullPath(dir, Claimed(b, pid)), orig) <==> orig == FullPath(dir, Plain(b))
  {
    var plain := FullPath(dir, Plain(b));
    ClaimedPath(dir, b, pid);
    ClaimThenStrip(plain, pid);
    var claimed := FullPath(dir, Claimed(b, pid));
    if IsClaimOf(claimed, orig) {
      ClaimOriginUnique(claimed, orig, plain);
    }
  }

  // --- The globs separate the kinds ---

  lemma StemHasNoDot(b: Base, i: nat)
    requires i < |FileName(b)| - |JSON|
    ensures FileName(b)[i] != '.'
  {
    var d, p := Decimal(b.stamp), Pad(b.serial, 6);
    if i < |d| {
      assert FileName(b)[i] == d[i];
    } else if i > |d| {
      assert FileName(b)[i] == p[i - |d| - 1];
    }
  }

  /** `*.json` picks exactly the plain files of the hook's names. */
  lemma PlainGlobExact(n: Name)
    ensures MatchesPlain(Render(n)) <==> n.Plain?
  {
    var s := Render(n);
    assert MatchesPlain(s) ==> s[|s| - 1] == s[|s| - |JSON|..][|JSON| - 1] == 'n';
    match n
    case Plain(b) =>
      assert s == FileName(b);
      assert s[|s| - |JSON|..] == JSON;
    case Claimed(b, pid) =>
      assert s[|s| - 1] == Decimal(pid)[|Decimal(pid)| - 1];
    case Temp(b) =>
      assert s[|s| - 1] == 'p';
  }

  /** `*.json.processing-*` picks exactly the claimed files: never a file still being written. */
  lemma StaleGlobExact(n: Name)
    ensures MatchesStale(Render(n)) <==> n.Claimed?
  {
    var s := Render(n);
    var f := FileName(n.base);
    var stem := |f| - |JSON|;
    if n.Claimed? {
      assert s[stem..stem + |JSON + MARKER|] == JSON + MARKER;
      assert OccursAt(s, JSON + MARKER, stem);
    } else {
      var pattern := JSON + MARKER;
      forall i
        ensures !OccursAt(s, pattern, i)
      {
        if 0 <= i && i + |pattern| <= |s| {
          assert i < stem && s[i] == f[i];
          StemHasNoDot(n.base, i);
          assert s[i..i + |pattern|][0] == s[i];
        }
      }
    }
  }

  /** The base of a name can be read back from its first dot. */
  lemma FileNamePrefix(a: Base, b: Base, x: string, y: string)
    requires FileName(a) + x == FileName(b) + y
    ensures FileName(a) == FileName(b) && x == y
  {
    var fa, fb := FileName(a), FileName(b);
    var s := fa + x;
    var i, j := |fa| - |JSON|, |fb| - |JSON|;
    assert s[i] == fa[i] == '.' && s[j] == fb[j] == '.';
    if i < j {
      StemHasNoDot(b, i);
    } else if j < i {
      StemHasNoDot(a, j);
    }
    assert fa == s[..|fa|] && fb == s[..|fb|];
    assert x == s[|fa|..] && y == s[|fb|..];
  }

  lemma FileNameInjective(a: Base, b: Base)
    requires FileName(a) == FileName(b)
    requires a.serial < 1_000_000 && b.serial < 1_000_000
    ensures a == b
  {
    var s := FileName(a);
    var da, db := Decimal(a.stamp), Decimal(b.stamp);
    assert |da| == |db|;
    assert da == s[..|da|] == db;
    DecimalInjective(a.stamp, b.stamp);
    assert Pad(a.serial, 6) == s[|da| + 1..|da| + 7] == Pad(b.serial, 6);
    assert Pow10(6) == 1_000_000;
    PadOrder(a.serial, b.serial, 6);
  }

  lemma EndingInjective(m: Name, n: Name)
    requires m.base == n.base && Ending(m) == Ending(n)
    ensures m == n
  {
    assert m.Claimed? ==> |Ending(m)| > |TEMP|;
    assert n.Claimed? ==> |Ending(n)| > |TEMP|;
    if m.Claimed? && n.Claimed? {
      assert Decimal(m.pid) == Ending(m)[|MARKER|..] == Ending(n)[|MARKER|..] == Decimal(n.pid);
      DecimalInjective(m.pid, n.pid);
    }
  }

  /** Distinct names are distinct files, so a directory is faithfully a map from `Name`. */
  lemma RenderInjective(m: Name, n: Name)
    requires Render(m) == Render(n)
    requires m.base.serial < 1_000_000 && n.base.serial < 1_000_000
    ensures m == n
  {
    FileNamePrefix(m.base, n.base, Ending(m), Ending(n));
    FileNameInjective(m.base, n.base);
    EndingInjective(m, n);
  }

  // --- Name order is age order ---

  /** Older first. */
  predicate Before(a: Base, b: Base) {
    a.stamp < b.stamp || (a.stamp == b.stamp && a.serial < b.serial)
  }

  /** While the clock prints with a fixed number `w` of digits (19 from September 2001 on), sorting
      the file names as strings sorts the events by age. */
  lemma NameOrderIsAgeOrder(a: Base, b: Base, w: nat)
    requires w > 1 && Pow10(w - 1) <= a.stamp < Pow10(w) && Pow10(w - 1) <= b.stamp < Pow10(w)
    requires a.serial < 1_000_000 && b.serial < 1_000_000
    ensures Less(FileName(a), FileName(b)) <==> Before(a, b)
  {
    DecimalIsPad(a.stamp, w);
    DecimalIsPad(b.stamp, w);
    assert Pow10(6) == 1_000_000;
    PadOrder(a.stamp, b.stamp, w);
    PadOrder(a.serial, b.serial, 6);
    FieldsOfName(Decimal(a.stamp), Decimal(b.stamp), Pad(a.serial, 6), Pad(b.serial, 6));
  }

  /** For any clocks: the names of two events sort in the order of age exactly if the older stamp
      is at most what the leading digits of the newer one, as many as the older one has, stand
      for. */
  lemma NameOrderExactly(a: Base, b: Base)
    requires Before(a, b) && a.serial < 1_000_000 && b.serial < 1_000_000
    ensures |Decimal(a.stamp)| <= |Decimal(b.stamp)|
    ensures Less(FileName(a), FileName(b)) <==>
              a.stamp <= b.stamp / Pow10(|Decimal(b.stamp)| - |Decimal(a.stamp)|)
  {
    var da, db := Decimal(a.stamp), Decimal(b.stamp);
    var pa, pb := Pad(a.serial, 6), Pad(b.serial, 6);
    if a.stamp == b.stamp {
      assert Pow10(6) == 1_000_000 && Pow10(0) == 1;
      PadOrder(a.serial, b.serial, 6);
      FieldsOfName(da, db, pa, pb);
    } else {
      StampPrefix(a);
      StampPrefix(b);
      DecimalsAreNoPrefixes(a.stamp, b.stamp);
      DecimalsAreNoPrefixes(b.stamp, a.stamp);
      PrefixesDecide(da + "-", db + "-", pa + JSON, pb + JSON);
      DashedOrder(a.stamp, b.stamp);
    }
  }

  lemma StampPrefix(b: Base)
    ensures FileName(b) == (Decimal(b.stamp) + "-") + (Pad(b.serial, 6) + JSON)
  {
    Reassociate(Decimal(b.stamp), Pad(b.serial, 6));
  }

  /** The first nanosecond of 2000 and of 2026 in UTC, as `time.Now().UnixNano()` counts them. */
  const YEAR_2000 := 946_684_800_000_000_000
  const YEAR_2026 := 1_767_225_600_000_000_000

  /** A machine whose clock still stood in 2000 when it buffered an event, and was set to 2026
      before the next: the newer event sorts first. */
  lemma ShorterStampsMisorder(serial: nat, later: nat)
    requires serial < 1_000_000 && later < 1_000_000
    ensures Before(Base(YEAR_2000, serial), Base(YEAR_2026, later))
    ensures Less(FileName(Base(YEAR_2026, later)), FileName(Base(YEAR_2000, serial)))
  {
    var a, b := Base(YEAR_2000, serial), Base(YEAR_2026, later);
    PowersOfTen();
    DecimalIsPad(YEAR_2000, 18);
    DecimalIsPad(YEAR_2026, 19);
    assert Pow10(1) == 10;
    NameOrderExactly(a, b);
    LessTotal(FileName(a), FileName(b));
    if FileName(a) == FileName(b) {
      FileNameInjective(a, b);
    }
  }

  lemma PowersOfTen()
    ensures Pow10(17) == 100_000_000_000_000_000
    ensures Pow10(18) == 1_000_000_000_000_000_000
    ensures Pow10(19) == 10_000_000_000_000_000_000
  {
    assert Pow10(6) == 1_000_000;
    assert Pow10(12) == 1_000_000_000_000;
    assert Pow10(17) == 10 * Pow10(16);
  }

  lemma FieldsOfName(da: string, db: string, pa: string, pb: string)
    requires |da| == |db| && |pa| == |pb|
    ensures Less(da + "-" + pa + JSON, db + "-" + pb + JSON) <==> Less(da, db) || (da == db && Less(pa, pb))
  {
    Reassociate(da, pa);
    Reassociate(db, pb);
    LessByFields(da, db, "-" + (pa + JSON), "-" + (pb + JSON));
    LessByFields("-", "-", pa + JSON, pb + JSON);
    LessIrreflexive("-");
    LessByFields(pa, pb, JSON, JSON);
    LessIrreflexive(JSON);
  }

  lemma Reassociate(d: string, p: string)
    ensures d + "-" + p + JSON == d + ("-" + (p + JSON))
  {
  }
}
