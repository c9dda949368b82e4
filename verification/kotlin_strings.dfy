/**
 * The Kotlin string operations the core relies on: `isWhitespace`, `isBlank`,
 * `trim`, `replace`, `indexOf`, `lastIndexOf`, `split`, `toIntOrNull` and the
 * zero-padded decimal rendering of `"%0Nd".format(n)`.
 */
module KotlinStrings {
  import opened Wrappers
  import opened KotlinInts

  /** Kotlin's `Char.isWhitespace()` on the JVM: `Character.isWhitespace(c) || Character.isSpaceChar(c)`. */
  predicate IsWhitespace(c: char) {
    || '\U{0009}' <= c <= '\U{000D}'
    || '\U{001C}' <= c <= '\U{0020}'
    || c == '\U{00A0}' || c == '\U{1680}'
    || '\U{2000}' <= c <= '\U{200A}'
    || c == '\U{2028}' || c == '\U{2029}' || c == '\U{202F}' || c == '\U{205F}' || c == '\U{3000}'
  }

  /** `CharSequence.isBlank()`: empty or whitespace only. */
  predicate IsBlank(s: string) {
    forall i :: 0 <= i < |s| ==> IsWhitespace(s[i])
  }

  // ---------------------------------------------------------------- trim

  /** Index of the first non-whitespace character (|s| when there is none). */
  function TrimStartIndex(s: string): (i: nat)
    ensures i <= |s|
    ensures forall k :: 0 <= k < i ==> IsWhitespace(s[k])
    ensures i < |s| ==> !IsWhitespace(s[i])
    decreases |s|
  {
    if s != [] && IsWhitespace(s[0]) then 1 + TrimStartIndex(s[1..]) else 0
  }

  /** One past the last non-whitespace character at or after `lo` (lo when there is none). */
  function TrimEndIndex(s: string, lo: nat): (j: nat)
    requires lo <= |s|
    ensures lo <= j <= |s|
    ensures forall k :: j <= k < |s| ==> IsWhitespace(s[k])
    ensures j > lo ==> !IsWhitespace(s[j - 1])
    decreases |s|
  {
    if |s| > lo && IsWhitespace(s[|s| - 1]) then TrimEndIndex(s[..|s| - 1], lo) else |s|
  }

  /** `String.trim()`: the slice between the leading and the trailing whitespace. */
  function Trim(s: string): (r: string)
    ensures |r| <= |s|
    ensures r == [] <==> IsBlank(s)
    ensures r != [] ==> !IsWhitespace(r[0]) && !IsWhitespace(r[|r| - 1])
    ensures exists i, j :: 0 <= i <= j <= |s| && r == s[i..j] && IsBlank(s[..i]) && IsBlank(s[j..])
  {
    var i := TrimStartIndex(s);
    var j := TrimEndIndex(s, i);
    EmptyTrimIsBlank(s, i, j);
    assert IsBlank(s[..i]) && IsBlank(s[j..]);
    s[i..j]
  }

  lemma EmptyTrimIsBlank(s: string, i: nat, j: nat)
    requires i == TrimStartIndex(s) && j == TrimEndIndex(s, i)
    ensures j == i <==> IsBlank(s)
  {
    if j == i {
      forall k | 0 <= k < |s| ensures IsWhitespace(s[k]) {
        if k < i { } else { assert k >= j; }
      }
    }
  }

  /** Trimming is idempotent. */
  lemma TrimIdempotent(s: string)
    ensures Trim(Trim(s)) == Trim(s)
  {
    var t := Trim(s);
    if t != [] {
      assert TrimStartIndex(t) == 0;
      assert TrimEndIndex(t, 0) == |t|;
    }
  }

  // ---------------------------------------------------------------- replace

  /** `s` holds `pat` at position `i`. */
  predicate OccursAt(s: string, pat: string, i: nat) {
    i + |pat| <= |s| && s[i..i + |pat|] == pat
  }

  /** `s.replace(pat, "")`: removes the occurrences found scanning left to right, without overlap. */
  function RemoveAll(s: string, pat: string): (r: string)
    requires pat != []
    ensures |r| <= |s|
    ensures forall c :: c in r ==> c in s
    decreases |s|
  {
    if s == [] then []
    else if OccursAt(s, pat, 0) then RemoveAll(s[|pat|..], pat)
    else [s[0]] + RemoveAll(s[1..], pat)
  }

  /** The characters of `s` that are not in `drop`, in their order. */
  function Without(s: string, drop: set<char>): (r: string)
    ensures |r| <= |s|
    ensures forall c :: c in r <==> c in s && c !in drop
    decreases |s|
  {
    if s == [] then []
    else (if s[0] in drop then [] else [s[0]]) + Without(s[1..], drop)
  }

  lemma {:induction false} WithoutAppend(a: string, b: string, drop: set<char>)
    ensures Without(a + b, drop) == Without(a, drop) + Without(b, drop)
    decreases |a|
  {
    if a == [] {
      assert a + b == b;
    } else {
      assert (a + b)[0] == a[0] && (a + b)[1..] == a[1..] + b;
      WithoutAppend(a[1..], b, drop);
    }
  }

  lemma {:induction false} WithoutDropped(s: string, drop: set<char>)
    requires forall c :: c in s ==> c in drop
    ensures Without(s, drop) == []
    decreases |s|
  {
    if s != [] {
      WithoutDropped(s[1..], drop);
    }
  }

  lemma WithoutBlank(s: string, drop: set<char>)
    requires IsBlank(s)
    ensures IsBlank(Without(s, drop))
  {
    var r := Without(s, drop);
    forall k | 0 <= k < |r| ensures IsWhitespace(r[k]) {
      assert r[k] in s;
    }
  }

  /**
   * `replace(pat, "")` removes nothing but occurrences of `pat`: once the
   * characters of `pat` are set aside, the result and the input agree.
   */
  lemma {:induction false} RemoveAllKeepsOthers(s: string, pat: string, drop: set<char>)
    requires pat != [] && forall c :: c in pat ==> c in drop
    ensures Without(RemoveAll(s, pat), drop) == Without(s, drop)
    decreases |s|
  {
    if s == [] {
    } else if OccursAt(s, pat, 0) {
      var rest := s[|pat|..];
      assert s == pat + rest;
      WithoutAppend(pat, rest, drop);
      WithoutDropped(pat, drop);
      RemoveAllKeepsOthers(rest, pat, drop);
    } else {
      var rest := s[1..];
      RemoveAllKeepsOthers(rest, pat, drop);
      WithoutAppend([s[0]], RemoveAll(rest, pat), drop);
      WithoutAppend([s[0]], rest, drop);
      assert s == [s[0]] + rest;
    }
  }

  /**
   * Trimming removes only whitespace at the two ends, so the characters
   * outside `drop` that survive it are those of the input less some blank
   * head and tail.
   */
  lemma TrimWithout(u: string, drop: set<char>)
    ensures var w := Without(u, drop);
      exists i, j :: 0 <= i <= j <= |w| && Without(Trim(u), drop) == w[i..j] && IsBlank(w[..i]) && IsBlank(w[j..])
  {
    var a, b :| 0 <= a <= b <= |u| && Trim(u) == u[a..b] && IsBlank(u[..a]) && IsBlank(u[b..]);
    BlankEndsWithout(u, a, b, drop);
  }

  lemma BlankEndsWithout(u: string, a: nat, b: nat, drop: set<char>)
    requires a <= b <= |u| && IsBlank(u[..a]) && IsBlank(u[b..])
    ensures var w := Without(u, drop);
      exists i, j :: 0 <= i <= j <= |w| && Without(u[a..b], drop) == w[i..j] && IsBlank(w[..i]) && IsBlank(w[j..])
  {
    var head, mid, tail := u[..a], u[a..b], u[b..];
    assert u == head + mid + tail;
    WithoutBlank(head, drop);
    WithoutBlank(tail, drop);
    var p, m, q := Without(head, drop), Without(mid, drop), Without(tail, drop);
    ThreeParts(head, mid, tail, u, drop);
    var w := Without(u, drop);
    assert w[..|p|] == p && w[|p|..|p| + |m|] == m && w[|p| + |m|..] == q;
  }

  lemma ThreeParts(head: string, mid: string, tail: string, u: string, drop: set<char>)
    requires u == head + mid + tail
    ensures Without(u, drop) == Without(head, drop) + Without(mid, drop) + Without(tail, drop)
  {
    WithoutAppend(head + mid, tail, drop);
    WithoutAppend(head, mid, drop);
  }

  /** Where the pattern never occurs, `replace(pat, "")` changes nothing. */
  lemma {:induction false} RemoveAllNoOccurrence(s: string, pat: string)
    requires pat != []
    ensures (forall i: nat :: !OccursAt(s, pat, i)) ==> RemoveAll(s, pat) == s
    decreases |s|
  {
    if s != [] && forall i: nat :: !OccursAt(s, pat, i) {
      var t := s[1..];
      forall i: nat ensures !OccursAt(t, pat, i) {
        assert !OccursAt(s, pat, i + 1);
        if i + |pat| <= |t| {
          assert t[i..i + |pat|] == s[i + 1..i + 1 + |pat|];
        }
      }
      RemoveAllNoOccurrence(t, pat);
      assert s == [s[0]] + t;
    }
  }

  /**
   * The first occurrence of the pattern is removed and the scan resumes
   * right after it: the text before it is kept as it is.
   */
  lemma {:induction false} RemoveAllFirstOccurrence(a: string, pat: string, b: string)
    requires pat != [] && forall i: nat :: i < |a| ==> !OccursAt(a + pat + b, pat, i)
    ensures RemoveAll(a + pat + b, pat) == a + RemoveAll(b, pat)
    decreases |a|
  {
    var s := a + pat + b;
    if a == [] {
      assert s == pat + b && OccursAt(s, pat, 0);
      assert s[|pat|..] == b;
    } else {
      assert !OccursAt(s, pat, 0);
      var t := a[1..] + pat + b;
      assert s[1..] == t;
      forall i: nat | i < |a[1..]| ensures !OccursAt(t, pat, i) {
        assert !OccursAt(s, pat, i + 1);
        assert t[i..i + |pat|] == s[i + 1..i + 1 + |pat|];
      }
      RemoveAllFirstOccurrence(a[1..], pat, b);
      assert [a[0]] + (a[1..] + RemoveAll(b, pat)) == a + RemoveAll(b, pat);
    }
  }

  const FENCE: string := "```"

  /** Three backticks in a row at position `i`. */
  predicate FenceAt(s: string, i: nat)
    requires i + 3 <= |s|
  {
    s[i] == '`' && s[i + 1] == '`' && s[i + 2] == '`'
  }

  predicate FenceFree(s: string) {
    forall i :: 0 <= i && i + 3 <= |s| ==> !FenceAt(s, i)
  }

  /**
   * Removing every "```" leaves none behind: a run of n backticks loses
   * 3 * (n / 3) of them and keeps fewer than three.
   */
  lemma {:induction false} RemoveFencesLeavesNone(s: string)
    ensures FenceFree(RemoveAll(s, FENCE))
    ensures (var r := RemoveAll(s, FENCE); |r| >= 1 && r[0] == '`' ==> |s| >= 1 && s[0] == '`')
    ensures (var r := RemoveAll(s, FENCE); |r| >= 2 && r[0] == '`' && r[1] == '`' ==> |s| >= 2 && s[0] == '`' && s[1] == '`')
    decreases |s|
  {
    var r := RemoveAll(s, FENCE);
    if s == [] {
    } else if OccursAt(s, FENCE, 0) {
      RemoveFencesLeavesNone(s[3..]);
    } else {
      var t := s[1..];
      var rt := RemoveAll(t, FENCE);
      RemoveFencesLeavesNone(t);
      assert r == [s[0]] + rt;
      forall i | 0 <= i && i + 3 <= |r| ensures !FenceAt(r, i) {
        if i > 0 {
          assert r[i..i + 3] == rt[i - 1..i + 2];
          assert !FenceAt(rt, i - 1);
        }
      }
    }
  }

  // ---------------------------------------------------------------- indexOf

  /** `s.indexOf(c)`: the first position of `c`, or -1. */
  function IndexOf(s: string, c: char): (r: int)
    ensures -1 <= r < |s|
    ensures r == -1 <==> c !in s
    ensures r >= 0 ==> s[r] == c && c !in s[..r]
    decreases |s|
  {
    if s == [] then -1
    else if s[0] == c then 0
    else
      var k := IndexOf(s[1..], c);
      if k == -1 then -1 else (assert s[..k + 1] == [s[0]] + s[1..][..k]; k + 1)
  }

  /** `s.lastIndexOf(c)`: the last position of `c`, or -1. */
  function LastIndexOf(s: string, c: char): (r: int)
    ensures -1 <= r < |s|
    ensures r == -1 <==> c !in s
    ensures r >= 0 ==> s[r] == c && c !in s[r + 1..]
    decreases |s|
  {
    if s == [] then -1
    else if s[|s| - 1] == c then |s| - 1
    else
      var k := LastIndexOf(s[..|s| - 1], c);
      if k == -1 then (assert s == s[..|s| - 1] + [s[|s| - 1]]; -1)
      else (assert s[k + 1..] == s[..|s| - 1][k + 1..] + [s[|s| - 1]]; k)
  }

  // ---------------------------------------------------------------- split

  /** `s.split(sep)`: the pieces between separators, always at least one (`"".split(sep) == [""]`). */
  function Split(s: string, sep: char): (r: seq<string>)
    ensures |r| >= 1
    ensures forall k :: 0 <= k < |r| ==> sep !in r[k]
    decreases |s|
  {
    if s == [] then [""]
    else if s[0] == sep then [""] + Split(s[1..], sep)
    else
      var rest := Split(s[1..], sep);
      [[s[0]] + rest[0]] + rest[1..]
  }

  /** A string without the separator is one piece. */
  lemma {:induction false} SplitWhole(s: string, sep: char)
    requires sep !in s
    ensures Split(s, sep) == [s]
    decreases |s|
  {
    if s != [] {
      SplitWhole(s[1..], sep);
      assert [s[0]] + s[1..] == s;
    }
  }

  /** The first separator ends the first piece. */
  lemma {:induction false} SplitAt(a: string, b: string, sep: char)
    requires sep !in a
    ensures Split(a + [sep] + b, sep) == [a] + Split(b, sep)
    decreases |a|
  {
    if a != [] {
      SplitAt(a[1..], b, sep);
      assert (a + [sep] + b)[1..] == a[1..] + [sep] + b;
      assert [a[0]] + a[1..] == a;
    } else {
      assert (a + [sep] + b)[1..] == b;
    }
  }

  // ---------------------------------------------------------------- decimal digits

  predicate IsDigit(c: char) {
    '0' <= c <= '9'
  }

  predicate AllDigits(s: string) {
    forall i :: 0 <= i < |s| ==> IsDigit(s[i])
  }

  function DigitChar(d: nat): (c: char)
    requires d < 10
    ensures IsDigit(c)
  {
    ['0', '1', '2', '3', '4', '5', '6', '7', '8', '9'][d]
  }

  function DigitValue(c: char): (d: nat)
    requires IsDigit(c)
    ensures d < 10
  {
    (c as int) - ('0' as int)
  }

  /** The number a string of decimal digits denotes. */
  function DigitsValue(s: string): (v: nat)
    requires AllDigits(s)
    decreases |s|
  {
    if s == [] then 0 else 10 * DigitsValue(s[..|s| - 1]) + DigitValue(s[|s| - 1])
  }

  /** The shortest decimal rendering of `n` (what `"%d"` prints for a non-negative number). */
  function Decimal(n: nat): (r: string)
    ensures 1 <= |r|
    ensures AllDigits(r)
    ensures |r| > 1 ==> r[0] != '0'
    decreases n
  {
    if n < 10 then [DigitChar(n)] else Decimal(n / 10) + [DigitChar(n % 10)]
  }

  function Zeros(k: nat): (r: string)
    ensures |r| == k && AllDigits(r)
    ensures forall i :: 0 <= i < k ==> r[i] == '0'
  {
    seq(k, _ => '0')
  }

  /** `"%0{width}d".format(n)` for a non-negative `n`: zeros on the left up to `width` characters. */
  function Pad(n: nat, width: nat): (r: string)
    ensures AllDigits(r)
    ensures |r| >= width && |r| >= 1
  {
    var d := Decimal(n);
    (if |d| < width then Zeros(width - |d|) else "") + d
  }

  lemma {:induction false} DigitValueOfDigitChar(d: nat)
    requires d < 10
    ensures DigitValue(DigitChar(d)) == d
  {
    var digits := ['0', '1', '2', '3', '4', '5', '6', '7', '8', '9'];
    assert digits[d] as int == '0' as int + d;
  }

  /** Reading back the decimal rendering gives the number. */
  lemma {:induction false} DecimalRoundTrip(n: nat)
    ensures DigitsValue(Decimal(n)) == n
    decreases n
  {
    var r := Decimal(n);
    if n < 10 {
      DigitValueOfDigitChar(n);
      assert r[..0] == [];
    } else {
      DecimalRoundTrip(n / 10);
      DigitValueOfDigitChar(n % 10);
      assert r[..|r| - 1] == Decimal(n / 10);
    }
  }

  /** Leading zeros do not change the value. */
  lemma {:induction false} LeadingZeros(k: nat, s: string)
    requires AllDigits(s)
    ensures AllDigits(Zeros(k) + s)
    ensures DigitsValue(Zeros(k) + s) == DigitsValue(s)
    decreases |s| + k
  {
    var z := Zeros(k) + s;
    if s == [] {
      assert z == Zeros(k);
      if k > 0 {
        assert z[..|z| - 1] == Zeros(k - 1);
        LeadingZeros(k - 1, []);
        assert Zeros(k - 1) + [] == Zeros(k - 1);
      }
    } else {
      assert z[..|z| - 1] == Zeros(k) + s[..|s| - 1];
      LeadingZeros(k, s[..|s| - 1]);
    }
  }

  /** Reading back a zero-padded rendering gives the number. */
  lemma PadRoundTrip(n: nat, width: nat)
    ensures DigitsValue(Pad(n, width)) == n
  {
    var d := Decimal(n);
    DecimalRoundTrip(n);
    if |d| < width {
      LeadingZeros(width - |d|, d);
    } else {
      assert Pad(n, width) == d;
    }
  }

  /** A number below 10^k has at most k digits. */
  lemma {:induction false} DecimalLength(n: nat, k: nat, bound: nat)
    requires k >= 1 && bound == Pow10(k) && n < bound
    ensures |Decimal(n)| <= k
    decreases k
  {
    if n >= 10 {
      assert k >= 2;
      assert n / 10 < Pow10(k - 1);
      DecimalLength(n / 10, k - 1, Pow10(k - 1));
    }
  }

  function Pow10(k: nat): (p: nat)
    ensures p >= 1
  {
    if k == 0 then 1 else 10 * Pow10(k - 1)
  }

  /** A number below 10^width fills exactly `width` characters. */
  lemma PadWidth(n: nat, width: nat)
    requires width >= 1 && n < Pow10(width)
    ensures |Pad(n, width)| == width
  {
    DecimalLength(n, width, Pow10(width));
  }

  // ---------------------------------------------------------------- toIntOrNull

  /** `String.toIntOrNull()`: an optional sign and at least one digit, within `Int` range; null otherwise. */
  function ToIntOrNull(s: string): (r: Option<Int32>)
    ensures r.Some? ==> |s| >= 1 && AllDigits(s[1..]) && (IsDigit(s[0]) || (|s| >= 2 && (s[0] == '+' || s[0] == '-')))
    ensures s != [] && AllDigits(s) && DigitsValue(s) <= INT_MAX ==> r == Some(DigitsValue(s))
    ensures s != [] && AllDigits(s) && DigitsValue(s) > INT_MAX ==> r == None
    ensures |s| >= 2 && s[0] == '+' && AllDigits(s[1..]) ==>
      r == (if DigitsValue(s[1..]) <= INT_MAX then Some(DigitsValue(s[1..])) else None)
    ensures |s| >= 2 && s[0] == '-' && AllDigits(s[1..]) ==>
      r == (var m: int := DigitsValue(s[1..]); if -m >= INT_MIN then Some(-m) else None)
  {
    if s == [] then None
    else if (s[0] == '-' || s[0] == '+') && |s| >= 2 && AllDigits(s[1..]) then
      var m: int := DigitsValue(s[1..]);
      var v := if s[0] == '-' then -m else m;
      if INT_MIN <= v <= INT_MAX then Some(v) else None
    else if AllDigits(s) then
      var v := DigitsValue(s);
      assert AllDigits(s[1..]);
      if v <= INT_MAX then Some(v) else None
    else None
  }

  /** A zero-padded rendering of an `Int`-sized number parses back to it. */
  lemma ParsePadded(n: nat, width: nat)
    requires n <= INT_MAX
    ensures ToIntOrNull(Pad(n, width)) == Some(n)
  {
    PadRoundTrip(n, width);
  }
}
