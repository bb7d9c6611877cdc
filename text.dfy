/** String operations the pipeline relies on: Python's `str.lower`, `in` on strings and
    `str.join`, the decimal and zero-padded integer formats (`{n}`, `{n:02d}`, strftime's
    `%m`, `%d`, `%H`, `%M`, `%S`), Snowflake's ordering of file names and its `LIKE` operator. */
module Text {

  // ---------------------------------------------------------------- case and substrings

  function LowerChar(c: char): char {
    if 'A' <= c <= 'Z' then (c as int + 32) as char else c
  }

  /** `s.lower()`, restricted to ASCII letters. */
  function Lower(s: string): (r: string)
    ensures |r| == |s|
    ensures forall i :: 0 <= i < |s| ==> r[i] == LowerChar(s[i])
  {
    seq(|s|, i requires 0 <= i < |s| => LowerChar(s[i]))
  }

  /** `w` occurs in `s` starting at index `i`. */
  predicate OccursAt(w: string, s: string, i: int) {
    0 <= i && i + |w| <= |s| && s[i..i + |w|] == w
  }

  /** Python's `w in s` on strings: `w` occurs as a contiguous substring (the empty word always does). */
  predicate Occurs(w: string, s: string) {
    exists i | 0 <= i <= |s| :: OccursAt(w, s, i)
  }

  /** `sep.join(parts)`. */
  function Join(parts: seq<string>, sep: string): string {
    if |parts| == 0 then ""
    else if |parts| == 1 then parts[0]
    else parts[0] + sep + Join(parts[1..], sep)
  }

  // ---------------------------------------------------------------- decimal numbers

  predicate IsDigit(c: char) {
    '0' <= c <= '9'
  }

  predicate AllDigits(s: string) {
    forall i :: 0 <= i < |s| ==> IsDigit(s[i])
  }

  function DigitChar(d: nat): (c: char)
    requires d < 10
    ensures IsDigit(c)
  {
    ('0' as int + d) as char
  }

  /** `str(n)` for a non-negative integer. */
  function Decimal(n: nat): (s: string)
    ensures |s| > 0 && AllDigits(s)
  {
    if n < 10 then [DigitChar(n)] else Decimal(n / 10) + [DigitChar(n % 10)]
  }

  /** `f"{n:02d}"`: at least two digits, padded on the left with '0'. */
  function Pad2(n: nat): (s: string)
    ensures AllDigits(s)
    ensures n < 100 ==> |s| == 2
  {
    if n < 10 then ['0', DigitChar(n)]
    else
      assert n < 100 ==> |Decimal(n / 10)| == 1;
      Decimal(n)
  }

  /** The number a string of decimal digits denotes. */
  function Value(s: string): nat
    requires AllDigits(s)
  {
    if s == [] then 0 else 10 * Value(s[..|s| - 1]) + (s[|s| - 1] as int - '0' as int)
  }

  lemma {:induction false} ValueOfDecimal(n: nat)
    ensures Value(Decimal(n)) == n
  {
    if n >= 10 {
      var d := Decimal(n);
      assert d[..|d| - 1] == Decimal(n / 10);
      ValueOfDecimal(n / 10);
    }
  }

  lemma ValueOfPad2(n: nat)
    ensures Value(Pad2(n)) == n
  {
    if n < 10 {
      assert Pad2(n)[..1] == "0";
      assert Value("0") == 0;
    } else {
      ValueOfDecimal(n);
    }
  }

  // ---------------------------------------------------------------- ordering of names

  /** Strict lexicographic order on strings, as `ORDER BY METADATA$FILENAME` compares file names. */
  predicate LexLess(a: string, b: string) {
    if a == [] then b != []
    else if b == [] then false
    else if a[0] != b[0] then a[0] < b[0]
    else LexLess(a[1..], b[1..])
  }

  lemma {:induction false} LexLessIrreflexive(a: string)
    ensures !LexLess(a, a)
  {
    if a != [] { LexLessIrreflexive(a[1..]); }
  }

  lemma {:induction false} LexLessTransitive(a: string, b: string, c: string)
    requires LexLess(a, b) && LexLess(b, c)
    ensures LexLess(a, c)
  {
    if a != [] && b != [] && c != [] && a[0] == b[0] && b[0] == c[0] {
      LexLessTransitive(a[1..], b[1..], c[1..]);
    }
  }

  lemma {:induction false} LexLessTotal(a: string, b: string)
    requires a != b
    ensures LexLess(a, b) || LexLess(b, a)
  {
    if a != [] && b != [] && a[0] == b[0] {
      assert a == [a[0]] + a[1..] && b == [b[0]] + b[1..];
      LexLessTotal(a[1..], b[1..]);
    }
  }

  // ---------------------------------------------------------------- SQL LIKE

  /** SQL `s LIKE p`: '%' matches any run of characters, '_' exactly one, any other
      character itself; the comparison is case-sensitive and there is no escape character. */
  predicate Like(s: string, p: string)
    decreases |p|, |s|
  {
    if p == [] then s == []
    else if p[0] == '%' then Like(s, p[1..]) || (s != [] && Like(s[1..], p))
    else s != [] && (p[0] == '_' || p[0] == s[0]) && Like(s[1..], p[1..])
  }

  predicate NoWildcards(lit: string) {
    forall i :: 0 <= i < |lit| ==> lit[i] != '%' && lit[i] != '_'
  }

  lemma {:induction false} LikeAnything(s: string)
    ensures Like(s, "%")
    decreases |s|
  {
    if s != [] { LikeAnything(s[1..]); }
  }

  lemma {:induction false} LikePercentIntro(s: string, q: string, k: nat)
    requires k <= |s| && Like(s[k..], q)
    ensures Like(s, ['%'] + q)
  {
    assert (['%'] + q)[1..] == q;
    if k > 0 {
      assert s[1..][k - 1..] == s[k..];
      LikePercentIntro(s[1..], q, k - 1);
    }
  }

  lemma {:induction false} LikePercentElim(s: string, q: string) returns (k: nat)
    requires Like(s, ['%'] + q)
    ensures k <= |s| && Like(s[k..], q)
    decreases |s|
  {
    assert (['%'] + q)[1..] == q;
    if Like(s, q) {
      k := 0;
    } else {
      var k' := LikePercentElim(s[1..], q);
      assert s[1..][k'..] == s[k' + 1..];
      k := k' + 1;
    }
  }

  lemma {:induction false} LikeLiteral(s: string, lit: string, q: string)
    requires NoWildcards(lit)
    ensures Like(s, lit + q) <==> |lit| <= |s| && s[..|lit|] == lit && Like(s[|lit|..], q)
  {
    if lit == [] {
      assert s[..0] == lit && s[0..] == s && lit + q == q;
    } else {
      var p := lit + q;
      assert p[0] == lit[0] && p[1..] == lit[1..] + q;
      assert p[0] != '%' && p[0] != '_';
      if s != [] {
        LikeLiteral(s[1..], lit[1..], q);
        assert Like(s, p) <==> s[0] == lit[0] && Like(s[1..], lit[1..] + q);
        if |lit| <= |s| {
          assert s[1..][|lit| - 1..] == s[|lit|..];
          assert s[..|lit|] == [s[0]] + s[1..][..|lit| - 1];
          assert lit == [lit[0]] + lit[1..];
          assert s[..|lit|] == lit <==> s[0] == lit[0] && s[1..][..|lit| - 1] == lit[1..];
        }
      }
    }
  }

  /** `lit` occurs in `s` with at least one more character after it. */
  predicate OccursFollowed(lit: string, s: string) {
    exists i | 0 <= i < |s| :: OccursAt(lit, s, i) && i + |lit| < |s|
  }

  /** `s LIKE '%<lit>_%'` holds exactly when `lit` occurs in `s` and is not at its very end. */
  lemma LikeContainsFollowed(s: string, lit: string)
    requires NoWildcards(lit)
    ensures Like(s, "%" + lit + "_%") <==> OccursFollowed(lit, s)
  {
    var q := lit + "_%";
    assert "%" + lit + "_%" == ['%'] + q;
    if Like(s, ['%'] + q) {
      var k := LikePercentElim(s, q);
      LikeLiteral(s[k..], lit, "_%");
      assert s[k..][..|lit|] == s[k..k + |lit|];
      assert OccursAt(lit, s, k) && k + |lit| < |s|;
    }
    if OccursFollowed(lit, s) {
      var i :| 0 <= i < |s| && OccursAt(lit, s, i) && i + |lit| < |s|;
      LikeAnything(s[i + |lit| + 1..]);
      assert s[i..][|lit|..][1..] == s[i + |lit| + 1..];
      assert s[i..][..|lit|] == lit;
      LikeLiteral(s[i..], lit, "_%");
      LikePercentIntro(s, q, i);
    }
  }

  /** A word placed between a prefix and a non-empty suffix occurs followed by a character. */
  lemma OccursFollowedBetween(pre: string, w: string, post: string)
    requires |post| > 0
    ensures OccursFollowed(w, pre + w + post)
  {
    var s := pre + w + post;
    assert s[|pre|..|pre| + |w|] == w;
    assert OccursAt(w, s, |pre|) && |pre| + |w| < |s|;
  }

  /** A wildcard-free word between a prefix and a non-empty suffix matches `%<w>_%`. */
  lemma LikeBetween(pre: string, w: string, post: string)
    requires NoWildcards(w) && |post| > 0
    ensures Like(pre + w + post, "%" + w + "_%")
  {
    OccursFollowedBetween(pre, w, post);
    LikeContainsFollowed(pre + w + post, w);
  }

  /** A word cannot occur in a string that lacks its first character. */
  lemma NotOccursFollowedWithout(lit: string, s: string)
    requires |lit| > 0 && lit[0] !in s
    ensures !OccursFollowed(lit, s)
  {
    forall i | 0 <= i && i + |lit| < |s|
      ensures !OccursAt(lit, s, i)
    {
      assert s[i..i + |lit|][0] == s[i];
    }
  }
}
