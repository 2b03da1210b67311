/**
 * The handful of JavaScript string operations the voice agent relies on:
 * `trim`, `toLowerCase`, `includes`, and the test of a case-insensitive
 * regular expression of the shape `/A.*B/i` where A and B are literal
 * character-class sequences.
 */
module JsText {

  /** Code points that `String.prototype.trim` strips: WhiteSpace and LineTerminator of ECMA-262. */
  predicate IsTrimmable(c: char) {
    || c == '\t' || c == '\n' || c == '\U{000B}' || c == '\U{000C}' || c == '\r' || c == ' '
    || c == '\U{00A0}' || c == '\U{1680}' || ('\U{2000}' <= c <= '\U{200A}')
    || c == '\U{2028}' || c == '\U{2029}' || c == '\U{202F}' || c == '\U{205F}'
    || c == '\U{3000}' || c == '\U{FEFF}'
  }

  /** LineTerminator: the characters the regular-expression `.` does not match. */
  predicate IsLineTerminator(c: char) {
    c == '\n' || c == '\r' || c == '\U{2028}' || c == '\U{2029}'
  }

  predicate AllTrimmable(s: string) {
    forall k :: 0 <= k < |s| ==> IsTrimmable(s[k])
  }

  /** Leading whitespace removed: the result is a suffix of `s` and starts with a non-space. */
  function TrimStart(s: string): (r: string)
    ensures |r| <= |s| && r == s[|s| - |r|..]
    ensures AllTrimmable(s[..|s| - |r|])
    ensures r == [] || !IsTrimmable(r[0])
  {
    if |s| > 0 && IsTrimmable(s[0]) then
      var r := TrimStart(s[1..]);
      assert s[..|s| - |r|] == [s[0]] + s[1..][..|s| - 1 - |r|];
      r
    else s
  }

  /** Trailing whitespace removed: the result is a prefix of `s` and ends with a non-space. */
  function TrimEnd(s: string): (r: string)
    ensures |r| <= |s| && r == s[..|r|]
    ensures AllTrimmable(s[|r|..])
    ensures r == [] || !IsTrimmable(r[|r| - 1])
  {
    if |s| > 0 && IsTrimmable(s[|s| - 1]) then
      var r := TrimEnd(s[..|s| - 1]);
      assert s[|r|..] == s[..|s| - 1][|r|..] + [s[|s| - 1]];
      r
    else s
  }

  /** `r` is what remains of `s` once `i` leading and some trailing whitespace characters are cut. */
  predicate TrimmedAt(s: string, r: string, i: int) {
    && 0 <= i <= |s| - |r|
    && r == s[i..i + |r|]
    && AllTrimmable(s[..i])
    && AllTrimmable(s[i + |r|..])
  }

  /**
   * `s.trim()`: the result is the slice of `s` left once the whitespace on
   * both sides is gone; it is empty exactly when `s` is all whitespace.
   */
  function Trim(s: string): (r: string)
    ensures exists i :: TrimmedAt(s, r, i)
    ensures r == [] || (!IsTrimmable(r[0]) && !IsTrimmable(r[|r| - 1]))
    ensures r == [] <==> AllTrimmable(s)
  {
    var t := TrimStart(s);
    TrimSliceOf(s, t, TrimEnd(t));
    TrimEnd(t)
  }

  /**
   * Cutting a whitespace prefix `s[..|s| - |t|]` and then a whitespace
   * suffix of `t` leaves a trimmed slice of `s`, empty exactly when `s` is
   * all whitespace.
   */
  lemma TrimSliceOf(s: string, t: string, r: string)
    requires |t| <= |s| && t == s[|s| - |t|..] && AllTrimmable(s[..|s| - |t|])
    requires t == [] || !IsTrimmable(t[0])
    requires |r| <= |t| && r == t[..|r|] && AllTrimmable(t[|r|..])
    requires r == [] || !IsTrimmable(r[|r| - 1])
    ensures TrimmedAt(s, r, |s| - |t|)
    ensures r == [] <==> AllTrimmable(s)
  {
  }

  /**
   * The capitals that can occur in Spanish text: ASCII A-Z and the Latin-1
   * capitals U+00C0..U+00DE except the multiplication sign.
   */
  predicate IsCapital(c: char) {
    'A' <= c <= 'Z' || ('\U{00C0}' <= c <= '\U{00DE}' && c != '\U{00D7}')
  }

  /** `toLowerCase` on one character: a capital becomes its small letter, 32 code points on. */
  function LowerChar(c: char): (r: char)
    ensures IsCapital(c) ==> r as int == c as int + 32
    ensures !IsCapital(c) ==> r == c
    ensures !IsCapital(r)
    ensures IsTrimmable(r) <==> IsTrimmable(c)
    ensures IsLineTerminator(r) <==> IsLineTerminator(c)
  {
    if IsCapital(c) then (c as int + 32) as char else c
  }

  /** `toLowerCase`: every character lowered in place. */
  function Lower(s: string): (r: string)
    ensures |r| == |s|
    ensures forall i :: 0 <= i < |s| ==> r[i] == LowerChar(s[i])
  {
    seq(|s|, i requires 0 <= i < |s| => LowerChar(s[i]))
  }

  /** Lowering is idempotent: a lowered character has no capital left to lower. */
  lemma LowerCharIdempotent(c: char)
    ensures LowerChar(LowerChar(c)) == LowerChar(c)
  {
  }

  lemma LowerIdempotent(s: string)
    ensures Lower(Lower(s)) == Lower(s)
  {
  }

  /** `w` occurs in `s` starting at index `i`. */
  predicate OccursAt(s: string, w: string, i: int) {
    0 <= i && i + |w| <= |s| && s[i..i + |w|] == w
  }

  /** `s.includes(w)`. */
  predicate Includes(s: string, w: string) {
    exists i | 0 <= i <= |s| :: OccursAt(s, w, i)
  }

  /** `s.indexOf(w)`: the first occurrence of `w`, or -1 when there is none. */
  method IndexOf(s: string, w: string) returns (idx: int)
    ensures -1 <= idx <= |s|
    ensures idx == -1 <==> !Includes(s, w)
    ensures idx >= 0 ==> OccursAt(s, w, idx) && forall j :: 0 <= j < idx ==> !OccursAt(s, w, j)
  {
    var i := 0;
    while i + |w| <= |s|
      invariant 0 <= i <= |s| + 1
      invariant forall j :: 0 <= j < i ==> !OccursAt(s, w, j)
      decreases |s| - i
    {
      if s[i..i + |w|] == w {
        assert OccursAt(s, w, i);
        return i;
      }
      i := i + 1;
    }
    return -1;
  }

  /** A regular-expression atom: a bracketed class of alternatives (a literal is a one-element class). */
  type CharClass = seq<char>
  type Pattern = seq<CharClass>

  /** A literal word as a pattern. */
  function Literal(w: string): (p: Pattern)
    ensures |p| == |w|
    ensures forall k :: 0 <= k < |w| ==> p[k] == [w[k]]
  {
    seq(|w|, k requires 0 <= k < |w| => [w[k]])
  }

  /** Under the `i` flag a character matches a class member when both fold to the same letter. */
  predicate ClassMatch(c: char, cls: CharClass) {
    exists k | 0 <= k < |cls| :: LowerChar(c) == LowerChar(cls[k])
  }

  predicate MatchesAt(s: string, p: Pattern, i: int) {
    0 <= i && i + |p| <= |s| && forall k | 0 <= k < |p| :: ClassMatch(s[i + k], p[k])
  }

  /**
   * A literal pattern matches exactly where the text, lower-cased, reads the
   * word lower-cased: `/word/i` is a case-insensitive comparison of a window.
   */
  lemma LiteralMatchesLowered(s: string, w: string, i: int)
    ensures MatchesAt(s, Literal(w), i) <==> 0 <= i && i + |w| <= |s| && Lower(s[i..i + |w|]) == Lower(w)
  {
    if 0 <= i && i + |w| <= |s| {
      var p := Literal(w);
      var win := s[i..i + |w|];
      forall k | 0 <= k < |w|
        ensures ClassMatch(s[i + k], p[k]) <==> Lower(win)[k] == Lower(w)[k]
      {
        assert p[k] == [w[k]] && win[k] == s[i + k];
        assert Lower(win)[k] == LowerChar(s[i + k]) && Lower(w)[k] == LowerChar(w[k]);
        assert LowerChar(s[i + k]) == LowerChar(w[k]) ==> LowerChar(s[i + k]) == LowerChar(p[k][0]);
      }
    }
  }

  predicate NoLineTerminator(s: string, lo: int, hi: int)
    requires 0 <= lo <= hi <= |s|
  {
    forall k | lo <= k < hi :: !IsLineTerminator(s[k])
  }

  /** `/head.*tail/i.test(s)`: `head` then, on the same line, `tail`. */
  predicate SpanMatch(s: string, head: Pattern, tail: Pattern) {
    exists i, j | 0 <= i <= |s| && i + |head| <= j <= |s| ::
      MatchesAt(s, head, i) && MatchesAt(s, tail, j) && NoLineTerminator(s, i + |head|, j)
  }

  /**
   * A backtracking matcher for `/head.*tail/i`: for each start of `head` it
   * scans forward for `tail`, giving up on that start at the first line
   * terminator. It answers exactly `SpanMatch`.
   */
  method TestSpan(s: string, head: Pattern, tail: Pattern) returns (found: bool)
    ensures found <==> SpanMatch(s, head, tail)
  {
    var i := 0;
    while i + |head| <= |s|
      invariant 0 <= i <= |s| + 1
      invariant forall i', j' :: 0 <= i' < i && i' + |head| <= j' <= |s| ==>
                  !(MatchesAt(s, head, i') && MatchesAt(s, tail, j') && NoLineTerminator(s, i' + |head|, j'))
      decreases |s| - i
    {
      if MatchesAt(s, head, i) {
        var j := i + |head|;
        var blocked := false;
        while j <= |s| && !blocked
          invariant i + |head| <= j <= |s| + 1
          invariant !blocked && j <= |s| ==> NoLineTerminator(s, i + |head|, j)
          invariant blocked ==> j < |s| && IsLineTerminator(s[j]) && !MatchesAt(s, tail, j)
          invariant forall j' :: i + |head| <= j' < j && j' <= |s| ==>
                      !(MatchesAt(s, tail, j') && NoLineTerminator(s, i + |head|, j'))
          decreases |s| + 1 - j, !blocked
        {
          if MatchesAt(s, tail, j) {
            return true;
          }
          if j < |s| && IsLineTerminator(s[j]) {
            blocked := true;
          } else {
            j := j + 1;
          }
        }
        forall j' | i + |head| <= j' <= |s|
          ensures !(MatchesAt(s, tail, j') && NoLineTerminator(s, i + |head|, j'))
        {
          if blocked && j' > j {
            assert IsLineTerminator(s[j]);
          }
        }
      }
      i := i + 1;
    }
    return false;
  }

  /** The decimal digit character for `d`. */
  function DigitChar(d: int): (c: char)
    requires 0 <= d < 10
    ensures '0' <= c <= '9' && c as int - '0' as int == d
  {
    ('0' as int + d) as char
  }

  predicate AllDigits(s: string) {
    forall k :: 0 <= k < |s| ==> '0' <= s[k] <= '9'
  }

  /** `String(n)` for a non-negative integer: decimal digits without leading zeros. */
  function NatToString(n: nat): (s: string)
    ensures |s| > 0 && AllDigits(s)
    ensures |s| > 1 ==> s[0] != '0'
    decreases n
  {
    if n < 10 then [DigitChar(n)] else NatToString(n / 10) + [DigitChar(n % 10)]
  }

  /** The number a string of decimal digits denotes. */
  function DigitsValue(s: string): nat
    requires AllDigits(s)
  {
    if s == [] then 0 else DigitsValue(s[..|s| - 1]) * 10 + (s[|s| - 1] as int - '0' as int)
  }

  /** Reading back the rendered digits gives the number again. */
  lemma {:induction false} NatToStringRoundTrip(n: nat)
    ensures DigitsValue(NatToString(n)) == n
  {
    if n >= 10 {
      var s := NatToString(n);
      assert s[..|s| - 1] == NatToString(n / 10);
      NatToStringRoundTrip(n / 10);
    }
  }

  /** Different numbers render differently. */
  lemma NatToStringInjective(m: nat, n: nat)
    requires NatToString(m) == NatToString(n)
    ensures m == n
  {
    NatToStringRoundTrip(m);
    NatToStringRoundTrip(n);
  }

  /** `String(i)` (or a template literal) for an integer. */
  function IntToString(i: int): (s: string)
    ensures i < 0 <==> (|s| > 0 && s[0] == '-')
    ensures i >= 0 ==> s == NatToString(i)
    ensures i < 0 ==> s[1..] == NatToString(-i)
    ensures forall k :: 0 <= k < |s| ==> s[k] == '-' || '0' <= s[k] <= '9'
  {
    if i < 0 then "-" + NatToString(-i) else NatToString(i)
  }

  lemma IntToStringInjective(i: int, j: int)
    requires IntToString(i) == IntToString(j)
    ensures i == j
  {
    if i < 0 {
      NatToStringInjective(-i, -j);
    } else {
      NatToStringInjective(i, j);
    }
  }

  /** The shape `toFixed(1)` gives a non-negative value: digits, a point, one digit. */
  predicate IsFixed1(s: string) {
    |s| >= 3 && s[|s| - 2] == '.' && AllDigits(s[..|s| - 2]) && '0' <= s[|s| - 1] <= '9'
  }

  /** The number of tenths a rendering of that shape denotes. */
  function TenthsOf(s: string): nat
    requires IsFixed1(s)
  {
    DigitsValue(s[..|s| - 2]) * 10 + (s[|s| - 1] as int - '0' as int)
  }

  /**
   * `v` tenths is the nearest tenth to `total / (1000 * count)`, ties going
   * up: `v/10` lies in `(x - 1/20, x + 1/20]` for `x = total / (1000 * count)`,
   * with both sides multiplied by `1000 * count`.
   */
  predicate NearestTenth(v: int, total: int, count: int) {
    total - 50 * count < 100 * count * v <= total + 50 * count
  }

  /** Multiples of a positive step lie at least one step apart. */
  lemma {:induction false} MultiplesApart(d: nat, a: int, b: int)
    requires a < b
    ensures d * a + d <= d * b
    decreases b - a
  {
    if a + 1 < b {
      MultiplesApart(d, a + 1, b);
    }
  }

  /** The half-open window is one tenth wide, so at most one count of tenths is nearest. */
  lemma NearestTenthUnique(v: int, w: int, total: int, count: int)
    requires count > 0 && NearestTenth(v, total, count) && NearestTenth(w, total, count)
    ensures v == w
  {
    if v < w {
      MultiplesApart(100 * count, v, w);
    } else if w < v {
      MultiplesApart(100 * count, w, v);
    }
  }

  /** Reading back "q.r" gives `10 q + r` tenths. */
  lemma TenthsOfRendering(q: nat, r: nat)
    requires r < 10
    ensures IsFixed1(NatToString(q) + "." + [DigitChar(r)])
    ensures TenthsOf(NatToString(q) + "." + [DigitChar(r)]) == 10 * q + r
  {
    var s := NatToString(q) + "." + [DigitChar(r)];
    assert s[..|s| - 2] == NatToString(q);
    NatToStringRoundTrip(q);
  }

  /**
   * `(total / (1000 * count)).toFixed(1)` in exact arithmetic: a minus sign
   * for a negative value, then the magnitude rounded to its nearest tenth.
   */
  function Fixed1OfThousandths(total: int, count: int): (s: string)
    requires count > 0
    ensures |s| > 0 && (s[0] == '-' <==> total < 0)
    ensures var m := if total < 0 then s[1..] else s;
            IsFixed1(m) && NearestTenth(TenthsOf(m), if total < 0 then -total else total, count)
  {
    if total < 0 then "-" + Fixed1Magnitude(-total, count) else Fixed1Magnitude(total, count)
  }

  /** The rendering of a non-negative value: the digits of its nearest tenth. */
  function Fixed1Magnitude(total: nat, count: int): (s: string)
    requires count > 0
    ensures IsFixed1(s) && '0' <= s[0] <= '9'
    ensures NearestTenth(TenthsOf(s), total, count)
  {
    var tenths := DivNat(total + 50 * count, 100 * count);
    TenthsOfRendering(tenths / 10, tenths % 10);
    NatToString(tenths / 10) + "." + [DigitChar(tenths % 10)]
  }

  /** Division of a natural number by a positive divisor: the largest `q` with `d * q <= n`. */
  function DivNat(n: nat, d: int): (q: nat)
    requires d > 0
    ensures d * q <= n < d * q + d
  {
    n / d
  }

  /** Whatever count of tenths is nearest to the value is the one rendered. */
  lemma Fixed1Nearest(total: nat, count: int, v: int)
    requires count > 0 && NearestTenth(v, total, count)
    ensures TenthsOf(Fixed1Magnitude(total, count)) == v
  {
    NearestTenthUnique(TenthsOf(Fixed1Magnitude(total, count)), v, total, count);
  }
}
