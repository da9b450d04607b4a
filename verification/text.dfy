/** Byte strings as the Go sources use them: lexicographic order, substring tests and decimal
    rendering. Nothing here is specific to one component. */
module Text {

  // --- Lexicographic order (Go's `<` on strings, SQLite's BINARY collation) ---

  predicate Less(a: string, b: string) {
    if b == "" then false
    else if a == "" then true
    else a[0] < b[0] || (a[0] == b[0] && Less(a[1..], b[1..]))
  }

  predicate AtMost(a: string, b: string) {
    !Less(b, a)
  }

  /** The strings agree up to a place where the first ends and the second goes on, or where the
      first has the smaller character. */
  predicate LessAt(a: string, b: string, k: nat) {
    && k <= |a| && k < |b| && a[..k] == b[..k]
    && (k == |a| || a[k] < b[k])
  }

  lemma {:induction false} LessExactly(a: string, b: string)
    ensures Less(a, b) <==> exists k: nat :: LessAt(a, b, k)
    decreases |a|
  {
    if b == "" {
    } else if a == "" {
      assert LessAt(a, b, 0);
    } else if a[0] != b[0] {
      LessAtStart(a, b);
    } else {
      LessExactly(a[1..], b[1..]);
      if k: nat :| LessAt(a[1..], b[1..], k) {
        LessAtNext(a, b, k);
      }
      if k: nat :| LessAt(a, b, k) {
        assert k > 0;
        LessAtNext(a, b, k - 1);
      }
    }
  }

  lemma LessAtStart(a: string, b: string)
    requires a != "" && b != "" && a[0] != b[0]
    ensures (exists k: nat :: LessAt(a, b, k)) <==> a[0] < b[0]
  {
    if a[0] < b[0] {
      assert LessAt(a, b, 0);
    }
    forall k: nat | k > 0
      ensures !LessAt(a, b, k)
    {
      assert k <= |a| && k < |b| ==> a[..k][0] == a[0] && b[..k][0] == b[0];
    }
  }

  lemma LessAtNext(a: string, b: string, k: nat)
    requires a != "" && b != "" && a[0] == b[0]
    ensures LessAt(a, b, k + 1) <==> LessAt(a[1..], b[1..], k)
  {
    if k + 1 <= |a| && k + 1 < |b| {
      assert a[..k + 1] == [a[0]] + a[1..][..k] && b[..k + 1] == [b[0]] + b[1..][..k];
      assert a[1..][..k] == a[..k + 1][1..] && b[1..][..k] == b[..k + 1][1..];
    }
  }

  lemma LessIrreflexive(a: string)
    ensures !Less(a, a)
  {
  }

  lemma LessTransitive(a: string, b: string, c: string)
    requires Less(a, b) && Less(b, c)
    ensures Less(a, c)
  {
  }

  lemma LessTotal(a: string, b: string)
    ensures a == b || Less(a, b) || Less(b, a)
    ensures !(Less(a, b) && Less(b, a))
    ensures Less(a, b) ==> a != b
  {
    if a != "" && b != "" && a[0] == b[0] {
      LessTotal(a[1..], b[1..]);
      assert a == [a[0]] + a[1..] && b == [b[0]] + b[1..];
    }
  }

  /** `AtMost` is transitive too. */
  lemma AtMostTransitive(a: string, b: string, c: string)
    requires AtMost(a, b) && AtMost(b, c)
    ensures AtMost(a, c)
  {
    LessTotal(a, b);
    LessTotal(b, c);
    if Less(c, a) {
      if a == b || b == c {
      } else {
        LessTransitive(a, b, c);
        LessTotal(a, c);
      }
    }
  }

  /** Strings that start with fields of one width compare field by field. */
  lemma {:induction false} LessByFields(a: string, b: string, c: string, d: string)
    requires |a| == |b|
    ensures Less(a + c, b + d) <==> Less(a, b) || (a == b && Less(c, d))
    decreases |a|
  {
    if a == "" {
      assert a + c == c && b + d == d;
    } else {
      assert (a + c)[1..] == a[1..] + c && (b + d)[1..] == b[1..] + d;
      LessByFields(a[1..], b[1..], c, d);
      assert a == [a[0]] + a[1..] && b == [b[0]] + b[1..];
    }
  }

  // --- Substrings ---

  predicate OccursAt(s: string, sub: string, i: int) {
    0 <= i && i + |sub| <= |s| && s[i..i + |sub|] == sub
  }

  /** `strings.Contains`. */
  predicate Occurs(s: string, sub: string) {
    exists i :: 0 <= i <= |s| && OccursAt(s, sub, i)
  }

  /** `strings.ToLower` on ASCII text. */
  function ToLower(s: string): (r: string)
    ensures |r| == |s|
  {
    seq(|s|, i requires 0 <= i < |s| => if 'A' <= s[i] <= 'Z' then (s[i] as int + 32) as char else s[i])
  }

  /** Letters of a lower-case word, in either case. */
  predicate MentionsAt(s: string, word: string, i: nat) {
    && i + |word| <= |s|
    && forall k :: 0 <= k < |word| ==>
         s[i + k] == word[k] || ('A' <= s[i + k] <= 'Z' && s[i + k] as int + 32 == word[k] as int)
  }

  predicate Mentions(s: string, word: string) {
    exists i :: 0 <= i <= |s| && MentionsAt(s, word, i)
  }

  /** Looking for a lower-case word in the lower-cased text is looking for it in either case. */
  lemma MentionsLower(s: string, word: string)
    requires forall k :: 0 <= k < |word| ==> 'a' <= word[k] <= 'z'
    ensures Occurs(ToLower(s), word) <==> Mentions(s, word)
  {
    forall i | 0 <= i <= |s|
      ensures OccursAt(ToLower(s), word, i) <==> MentionsAt(s, word, i)
    {
      if i + |word| <= |s| {
        MentionsThere(s, word, i);
      }
    }
  }

  lemma MentionsThere(s: string, word: string, i: nat)
    requires i + |word| <= |s| && forall k :: 0 <= k < |word| ==> 'a' <= word[k] <= 'z'
    ensures OccursAt(ToLower(s), word, i) <==> MentionsAt(s, word, i)
  {
    var part := ToLower(s)[i..i + |word|];
    forall k | 0 <= k < |word|
      ensures part[k] == word[k] <==>
                s[i + k] == word[k] || ('A' <= s[i + k] <= 'Z' && s[i + k] as int + 32 == word[k] as int)
    {
      assert part[k] == ToLower(s)[i + k];
    }
    if MentionsAt(s, word, i) {
      assert part == word;
    }
  }

  // --- Decimals ---

  predicate IsDigit(c: char) {
    '0' <= c <= '9'
  }

  predicate IsDigits(s: string) {
    forall i :: 0 <= i < |s| ==> IsDigit(s[i])
  }

  function Digit(n: nat): (c: char)
    requires n < 10
    ensures IsDigit(c) && (c as int) == n + '0' as int
  {
    (n + '0' as int) as char
  }

  /** What `%d` prints for a number that is not negative. */
  function Decimal(n: nat): (s: string)
    ensures s != "" && IsDigits(s)
  {
    if n < 10 then [Digit(n)] else Decimal(n / 10) + [Digit(n % 10)]
  }

  /** What `%0wd` prints for a number of at most `w` digits. */
  function Pad(n: nat, w: nat): (s: string)
    ensures |s| == w && IsDigits(s)
  {
    if w == 0 then "" else Pad(n / 10, w - 1) + [Digit(n % 10)]
  }

  function Value(s: string): nat
    requires IsDigits(s)
  {
    if s == "" then 0 else 10 * Value(s[..|s| - 1]) + (s[|s| - 1] as int - '0' as int)
  }

  function Pow10(w: nat): (p: nat)
    ensures p > 0
  {
    if w == 0 then 1 else 10 * Pow10(w - 1)
  }

  lemma {:induction false} ValueOfDecimal(n: nat)
    ensures Value(Decimal(n)) == n
  {
    if n < 10 {
      assert [Digit(n)][..0] == "";
      assert Value([Digit(n)]) == 10 * Value("") + n;
    } else {
      ValueOfDecimal(n / 10);
      var s := Decimal(n);
      assert s[..|s| - 1] == Decimal(n / 10);
    }
  }

  lemma DecimalInjective(m: nat, n: nat)
    requires Decimal(m) == Decimal(n)
    ensures m == n
  {
    ValueOfDecimal(m);
    ValueOfDecimal(n);
  }

  lemma {:induction false} ValueOfPad(n: nat, w: nat)
    requires n < Pow10(w)
    ensures Value(Pad(n, w)) == n
  {
    if w > 0 {
      ValueOfPad(n / 10, w - 1);
      var s := Pad(n, w);
      assert s[..|s| - 1] == Pad(n / 10, w - 1);
    }
  }

  /** A number with exactly `w` digits prints the same with and without padding. */
  lemma {:induction false} DecimalIsPad(n: nat, w: nat)
    requires w > 0 && n < Pow10(w) && (w > 1 ==> Pow10(w - 1) <= n)
    ensures Decimal(n) == Pad(n, w)
  {
    if w == 1 {
      assert Pow10(1) == 10 * Pow10(0);
      assert Pad(n / 10, 0) == "";
    } else {
      assert Pow10(w - 1) == 10 * Pow10(w - 2);
      DecimalIsPad(n / 10, w - 1);
    }
  }

  /** Numbers padded to one width sort as strings exactly as they sort as numbers. */
  lemma {:induction false} PadOrder(m: nat, n: nat, w: nat)
    requires m < Pow10(w) && n < Pow10(w)
    ensures Less(Pad(m, w), Pad(n, w)) <==> m < n
    ensures Pad(m, w) == Pad(n, w) <==> m == n
  {
    ValueOfPad(m, w);
    ValueOfPad(n, w);
    if w > 0 {
      PadOrder(m / 10, n / 10, w - 1);
      LessByFields(Pad(m / 10, w - 1), Pad(n / 10, w - 1), [Digit(m % 10)], [Digit(n % 10)]);
      var x, y := [Digit(m % 10)], [Digit(n % 10)];
      assert Less(x, y) <==> x[0] < y[0] by {
        assert !Less(x[1..], y[1..]);
      }
    }
  }

  // --- Decimals followed by a dash ---

  lemma PrefixTail(p: string, q: string)
    requires p != "" && q != "" && p[0] == q[0]
    ensures p <= q <==> p[1..] <= q[1..]
  {
    assert p == [p[0]] + p[1..] && q == [q[0]] + q[1..];
  }

  /** What decides between strings of which neither is a prefix of the other. */
  lemma {:induction false} PrefixesDecide(p: string, q: string, x: string, y: string)
    requires !(p <= q) && !(q <= p)
    ensures Less(p + x, q + y) <==> Less(p, q)
    decreases |p|
  {
    assert (p + x)[1..] == p[1..] + x && (q + y)[1..] == q[1..] + y;
    if p[0] == q[0] {
      PrefixTail(p, q);
      PrefixTail(q, p);
      PrefixesDecide(p[1..], q[1..], x, y);
    }
  }

  lemma DecimalsAreNoPrefixes(a: nat, b: nat)
    requires a != b
    ensures !(Decimal(a) + "-" <= Decimal(b) + "-")
  {
    var da, db := Decimal(a), Decimal(b);
    var s, t := da + "-", db + "-";
    if |da| < |db| {
      assert s[|da|] == '-' && t[|da|] == db[|da|];
    } else if |da| == |db| {
      assert s[..|da|] == da && t[..|da|] == db;
      if da == db {
        DecimalInjective(a, b);
      }
    }
  }

  lemma {:induction false} DecimalBounds(n: nat)
    ensures n < Pow10(|Decimal(n)|)
    ensures |Decimal(n)| > 1 ==> Pow10(|Decimal(n)| - 1) <= n
  {
    if n < 10 {
      assert Pow10(1) == 10 * Pow10(0);
    } else {
      DecimalBounds(n / 10);
      if n / 10 < 10 {
        assert Pow10(1) == 10 * Pow10(0);
      }
    }
  }

  /** Decimals of one length sort as strings exactly as they sort as numbers. */
  lemma DecimalOrder(m: nat, n: nat)
    requires |Decimal(m)| == |Decimal(n)|
    ensures Less(Decimal(m), Decimal(n)) <==> m < n
  {
    var w := |Decimal(m)|;
    DecimalBounds(m);
    DecimalBounds(n);
    DecimalIsPad(m, w);
    DecimalIsPad(n, w);
    PadOrder(m, n, w);
  }

  lemma {:induction false} LongerIsLarger(m: nat, n: nat)
    requires m <= n
    ensures |Decimal(m)| <= |Decimal(n)|
  {
    if m >= 10 {
      LongerIsLarger(m / 10, n / 10);
    }
  }

  lemma {:induction false} AtLeastFactor(d: nat, x: nat)
    requires x > 0
    ensures d * x >= d
    decreases x
  {
    if x > 1 {
      AtLeastFactor(d, x - 1);
    }
  }

  lemma SmallMultiple(d: int, x: int)
    requires -d < d * x < d
    ensures x == 0
  {
    assert d * -x == -(d * x);
    if x > 0 {
      AtLeastFactor(d, x);
    } else if x < 0 {
      AtLeastFactor(d, -x);
    }
  }

  lemma QuotientIs(n: nat, d: nat, q: nat, r: nat)
    requires d > 0 && n == d * q + r && r < d
    ensures n / d == q
  {
    var p := n / d;
    assert d * (p - q) == d * p - d * q == r - n % d;
    SmallMultiple(d, p - q);
  }

  lemma DivideByTens(n: nat, p: nat)
    requires p > 0
    ensures n / (10 * p) == (n / 10) / p
  {
    var q, r, s := (n / 10) / p, (n / 10) % p, n % 10;
    assert n == 10 * (p * q + r) + s;
    assert n == (10 * p) * q + (10 * r + s);
    QuotientIs(n, 10 * p, q, 10 * r + s);
  }

  function WithoutLast(n: nat, k: nat): nat {
    if k == 0 then n else WithoutLast(n / 10, k - 1)
  }

  lemma {:induction false} WithoutLastDivides(n: nat, k: nat)
    ensures WithoutLast(n, k) == n / Pow10(k)
  {
    if k == 0 {
      assert Pow10(0) == 1;
    } else {
      WithoutLastDivides(n / 10, k - 1);
      DivideByTens(n, Pow10(k - 1));
    }
  }

  /** Cutting off the last `k` digits. */
  lemma {:induction false} LeadingDigits(n: nat, k: nat)
    requires k < |Decimal(n)|
    ensures Decimal(n)[..|Decimal(n)| - k] == Decimal(WithoutLast(n, k))
  {
    if k > 0 {
      var head := Decimal(n / 10);
      LeadingDigits(n / 10, k - 1);
      assert Decimal(n) == head + [Digit(n % 10)];
      assert Decimal(n)[..|head| + 1 - k] == head[..|head| - (k - 1)];
    }
  }

  /** The dash sorts before every digit. */
  lemma DashDecides(m: nat, h: nat, tail: string)
    requires |Decimal(m)| == |Decimal(h)| && IsDigits(tail) && (m == h ==> tail != "")
    ensures Less(Decimal(m) + "-", Decimal(h) + (tail + "-")) <==> m <= h
  {
    LessByFields(Decimal(m), Decimal(h), "-", tail + "-");
    DecimalOrder(m, h);
    if m == h {
      assert IsDigit(tail[0]) && (tail + "-")[0] == tail[0];
    } else if Decimal(m) == Decimal(h) {
      DecimalInjective(m, h);
    }
  }

  /** A smaller number, followed by a dash, sorts before a larger one exactly if it is at most
      what the larger one's leading digits, as many as it has, stand for. */
  lemma DashedOrder(m: nat, n: nat)
    requires m < n
    ensures |Decimal(m)| <= |Decimal(n)|
    ensures Less(Decimal(m) + "-", Decimal(n) + "-") <==> m <= n / Pow10(|Decimal(n)| - |Decimal(m)|)
  {
    LongerIsLarger(m, n);
    var w := |Decimal(m)|;
    var k := |Decimal(n)| - w;
    var h, tail := WithoutLast(n, k), Decimal(n)[w..];
    LeadingDigits(n, k);
    WithoutLastDivides(n, k);
    assert Decimal(n) + "-" == Decimal(h) + (tail + "-");
    DashDecides(m, h, tail);
  }
}
