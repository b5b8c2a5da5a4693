/**
 * The JavaScript primitives the modelled code relies on, with their ECMAScript
 * semantics: `String.prototype.trim`, `Array.prototype.slice` /
 * `String.prototype.slice` (relative indexes), `join`, the decimal rendering of
 * integers in template literals, and `parseInt(digits, 10)` on a run of digits.
 * A string is a sequence of Unicode scalar values, and lengths count them; JavaScript
 * counts UTF-16 code units, which agree with them below U+10000.
 */
module Js {

  function Min(a: int, b: int): int { if a <= b then a else b }
  function Max(a: int, b: int): int { if a >= b then a else b }

  // ---------------------------------------------------------------- trim

  /** WhiteSpace and LineTerminator code points, which `trim` removes. */
  predicate IsWhiteSpace(c: char)
  {
    c == '\t' || c == '\n' || c == '\U{000B}' || c == '\U{000C}' || c == '\r'
    || c == ' ' || c == '\U{00A0}' || c == '\U{1680}'
    || ('\U{2000}' <= c <= '\U{200A}')
    || c == '\U{2028}' || c == '\U{2029}' || c == '\U{202F}' || c == '\U{205F}'
    || c == '\U{3000}' || c == '\U{FEFF}'
  }

  predicate AllWhiteSpace(s: string)
  {
    forall k :: 0 <= k < |s| ==> IsWhiteSpace(s[k])
  }

  /** The index of the first character of `s` that is not white space (`|s|` if none). */
  function FirstNonBlank(s: string, i: nat): (n: nat)
    requires i <= |s|
    ensures i <= n <= |s|
    ensures forall k :: i <= k < n ==> IsWhiteSpace(s[k])
    ensures n == |s| || !IsWhiteSpace(s[n])
    decreases |s| - i
  {
    if i == |s| || !IsWhiteSpace(s[i]) then i else FirstNonBlank(s, i + 1)
  }

  /** One past the index of the last character of `s[..j]` that is not white space (0 if none). */
  function LastNonBlankEnd(s: string, j: nat): (n: nat)
    requires j <= |s|
    ensures n <= j
    ensures forall k :: n <= k < j ==> IsWhiteSpace(s[k])
    ensures n == 0 || !IsWhiteSpace(s[n - 1])
  {
    if j == 0 || !IsWhiteSpace(s[j - 1]) then j else LastNonBlankEnd(s, j - 1)
  }

  /**
   * `String.prototype.trim`: `s` from its first to its last character that is
   * not white space.
   */
  function Trim(s: string): (r: string)
  {
    var a := FirstNonBlank(s, 0);
    s[a..Max(a, LastNonBlankEnd(s, |s|))]
  }

  /**
   * Trimming keeps exactly the middle of the string: what it drops on either
   * side is white space, and what it keeps neither starts nor ends with any.
   */
  lemma TrimIsMiddle(s: string)
    ensures var r, a := Trim(s), FirstNonBlank(s, 0);
      && a + |r| <= |s| && r == s[a..a + |r|]
      && AllWhiteSpace(s[..a]) && AllWhiteSpace(s[a + |r|..])
      && (r == [] || (!IsWhiteSpace(r[0]) && !IsWhiteSpace(r[|r| - 1])))
  {
    var a := FirstNonBlank(s, 0);
    var b := Max(a, LastNonBlankEnd(s, |s|));
    assert AllWhiteSpace(s[..a]);
    assert AllWhiteSpace(s[b..]);
  }

  /** Trimming a second time changes nothing. */
  lemma TrimIdempotent(s: string)
    ensures Trim(Trim(s)) == Trim(s)
  {
    TrimIsMiddle(s);
    var r := Trim(s);
    if r != [] {
      assert FirstNonBlank(r, 0) == 0;
      assert LastNonBlankEnd(r, |r|) == |r|;
    }
  }

  /** A string trims to nothing exactly when it is all white space. */
  lemma TrimEmptyIffBlank(s: string)
    ensures Trim(s) == [] <==> AllWhiteSpace(s)
  {
    var a := FirstNonBlank(s, 0);
    assert a < |s| ==> LastNonBlankEnd(s, |s|) > a;
  }

  // ---------------------------------------------------------------- slice

  /**
   * ECMAScript's reading of a relative index into a length-`len` sequence:
   * a negative index counts from the end, and the result is clamped to [0, len].
   */
  function RelativeIndex(k: int, len: nat): (r: nat)
    ensures r <= len
    ensures k >= 0 ==> r == Min(k, len)
    ensures k < 0 ==> r == Max(0, len + k)
  {
    if k < 0 then (if len + k < 0 then 0 else len + k)
    else if k > len then len else k
  }

  /** `s.slice(start, end)` for integer arguments. */
  function Slice<T>(s: seq<T>, start: int, end: int): (r: seq<T>)
    ensures var a, b := RelativeIndex(start, |s|), RelativeIndex(end, |s|);
      r == if a < b then s[a..b] else []
  {
    var a := RelativeIndex(start, |s|);
    var b := RelativeIndex(end, |s|);
    if a < b then s[a..b] else []
  }

  /** `s.slice(start)`. */
  function SliceFrom<T>(s: seq<T>, start: int): (r: seq<T>)
    ensures r == s[RelativeIndex(start, |s|)..]
  {
    Slice(s, start, |s|)
  }

  /** The last `k` elements of `s`, or all of `s` when it is shorter. */
  function LastN<T>(s: seq<T>, k: nat): (r: seq<T>)
    ensures |r| == Min(k, |s|)
    ensures r == s[|s| - |r|..]
  {
    if |s| <= k then s else s[|s| - k..]
  }

  /** For a positive `k`, `s.slice(-k)` is the last `k` elements. */
  lemma SliceFromNegative<T>(s: seq<T>, k: int)
    requires k > 0
    ensures SliceFrom(s, -k) == LastN(s, k)
  {
  }

  /** `s.slice(-0)` is `s.slice(0)`: the whole sequence, not an empty one. */
  lemma SliceFromNegativeZero<T>(s: seq<T>)
    ensures SliceFrom(s, -0) == s
  {
  }

  /** `s.slice(0, -1)`: everything but the last element; empty stays empty. */
  lemma SliceDropLast<T>(s: seq<T>)
    ensures Slice(s, 0, -1) == if s == [] then [] else s[..|s| - 1]
  {
  }

  /** `s.reverse()` applied to a fresh copy: the same elements, last first. */
  function Reverse<T>(s: seq<T>): (r: seq<T>)
    ensures |r| == |s|
    ensures forall k :: 0 <= k < |s| ==> r[k] == s[|s| - 1 - k]
  {
    if s == [] then [] else Reverse(s[1..]) + [s[0]]
  }

  // ---------------------------------------------------------------- join

  /** `parts.join(sep)`. */
  function Join(parts: seq<string>, sep: string): (r: string)
    decreases |parts|
  {
    if parts == [] then ""
    else if |parts| == 1 then parts[0]
    else parts[0] + sep + Join(parts[1..], sep)
  }

  /** Joining with one more part adds exactly the separator and that part. */
  lemma {:induction false} JoinAppend(parts: seq<string>, p: string, sep: string)
    requires parts != []
    ensures Join(parts + [p], sep) == Join(parts, sep) + sep + p
    decreases |parts|
  {
    if |parts| == 1 {
      assert (parts + [p])[1..] == [p];
    } else {
      assert (parts + [p])[1..] == parts[1..] + [p];
      JoinAppend(parts[1..], p, sep);
    }
  }

  // ---------------------------------------------------------------- numbers

  predicate IsDigit(c: char) { '0' <= c <= '9' }

  predicate AllDigits(s: string) { forall k :: 0 <= k < |s| ==> IsDigit(s[k]) }

  function DigitChar(d: nat): (c: char)
    requires d < 10
    ensures IsDigit(c)
  {
    ['0', '1', '2', '3', '4', '5', '6', '7', '8', '9'][d]
  }

  function DigitValue(c: char): (d: nat)
    requires IsDigit(c)
    ensures d < 10
  {
    (c as int) - ('0' as int)
  }

  /** The decimal rendering of a natural number, as a template literal prints it. */
  function NatToString(n: nat): (r: string)
    ensures |r| >= 1 && AllDigits(r)
    decreases n
  {
    if n < 10 then [DigitChar(n)] else NatToString(n / 10) + [DigitChar(n % 10)]
  }

  /** The decimal rendering of an integer, with a leading `-` when negative. */
  function IntToString(i: int): (r: string)
    ensures |r| >= 1
    ensures i >= 0 ==> r == NatToString(i)
    ensures i < 0 ==> r == "-" + NatToString(-i)
  {
    if i < 0 then "-" + NatToString(-i) else NatToString(i)
  }

  /** `parseInt(d, 10)` for a string made only of decimal digits. */
  function ParseDecimal(d: string): (n: nat)
    requires AllDigits(d)
    decreases |d|
  {
    if d == [] then 0 else 10 * ParseDecimal(d[..|d| - 1]) + DigitValue(d[|d| - 1])
  }

  /** Printing a number and parsing it back gives the number. */
  lemma {:induction false} ParseNatToString(n: nat)
    ensures ParseDecimal(NatToString(n)) == n
    decreases n
  {
    var s := NatToString(n);
    if n >= 10 {
      ParseNatToString(n / 10);
      assert s[..|s| - 1] == NatToString(n / 10);
      assert DigitValue(s[|s| - 1]) == n % 10;
    } else {
      assert DigitValue(s[0]) == n;
    }
  }

  /** Different natural numbers print differently. */
  lemma NatToStringInjective(i: nat, j: nat)
    requires NatToString(i) == NatToString(j)
    ensures i == j
  {
    ParseNatToString(i);
    ParseNatToString(j);
  }

  /** Different integers print differently. */
  lemma IntToStringInjective(i: int, j: int)
    requires IntToString(i) == IntToString(j)
    ensures i == j
  {
    var t := IntToString(i);
    if i >= 0 && j >= 0 {
      NatToStringInjective(i, j);
    } else if i < 0 && j < 0 {
      assert t[1..] == NatToString(-i);
      assert t[1..] == NatToString(-j);
      NatToStringInjective(-i, -j);
    } else {
      LeadingSign(i);
      LeadingSign(j);
      assert false;
    }
  }

  /** A printed integer starts with `-` exactly when it is negative. */
  lemma LeadingSign(i: int)
    ensures IntToString(i)[0] == '-' <==> i < 0
  {
    if i >= 0 {
      assert IsDigit(NatToString(i)[0]);
    }
  }

  /** A printed integer holds only digits and a leading sign. */
  lemma IntToStringChars(i: int)
    ensures forall k :: 0 <= k < |IntToString(i)| ==> IsDigit(IntToString(i)[k]) || IntToString(i)[k] == '-'
  {
    if i < 0 {
      var t := IntToString(i);
      forall k | 0 <= k < |t| ensures IsDigit(t[k]) || t[k] == '-' {
        if k > 0 {
          assert t[k] == NatToString(-i)[k - 1];
        }
      }
    }
  }

  /** `' '.repeat(n)`. */
  function Spaces(n: nat): (r: string)
    ensures |r| == n
    ensures forall k :: 0 <= k < n ==> r[k] == ' '
  {
    seq(n, _ => ' ')
  }
}
