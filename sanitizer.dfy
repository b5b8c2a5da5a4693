/**
 * The terminal output sanitizer: every cursor-forward control sequence
 * `ESC [ <digits> C` (CUF, "cursor right" of ECMA-48) is replaced by that many
 * spaces, because the pane the output is drawn in cannot move the cursor.
 * Everything else, other escape sequences included, is copied through.
 *
 * The replacement is a global regular-expression replace, which scans left to
 * right: at each position either a cursor-forward sequence starts there (it is
 * replaced and the scan resumes after it) or the character is copied.
 */
module Sanitizer {
  import Js

  const Esc: char := '\U{001B}'

  /** How many decimal digits `s` starts with. */
  function LeadingDigits(s: string): (n: nat)
    ensures n <= |s|
    ensures Js.AllDigits(s[..n])
    ensures n < |s| ==> !Js.IsDigit(s[n])
  {
    if s == [] || !Js.IsDigit(s[0]) then 0 else 1 + LeadingDigits(s[1..])
  }

  /** Whether `s` starts with `ESC [ <one or more digits> C`. */
  predicate StartsWithCursorForward(s: string)
  {
    |s| >= 2 && s[0] == Esc && s[1] == '['
    && var d := LeadingDigits(s[2..]); d >= 1 && 2 + d < |s| && s[2 + d] == 'C'
  }

  /** The length of the cursor-forward sequence at the start of `s`. */
  function MatchLength(s: string): (n: nat)
    requires StartsWithCursorForward(s)
    ensures 4 <= n <= |s|
  {
    3 + LeadingDigits(s[2..])
  }

  /** The digits of the cursor-forward sequence at the start of `s`. */
  function MatchDigits(s: string): (d: string)
    requires StartsWithCursorForward(s)
    ensures |d| >= 1 && Js.AllDigits(d)
    ensures |d| == MatchLength(s) - 3
  {
    var n := LeadingDigits(s[2..]);
    assert s[2..2 + n] == s[2..][..n];
    s[2..2 + n]
  }

  /**
   * The spaces a cursor-forward sequence becomes. As written, `parseInt` of the
   * digits; with `zeroIsDefault`, a count of zero means the default count of
   * one, as terminals read it.
   */
  function SpaceCount(digits: string, zeroIsDefault: bool): (n: nat)
    requires Js.AllDigits(digits)
    ensures zeroIsDefault ==> n >= 1
    ensures !zeroIsDefault ==> n == Js.ParseDecimal(digits)
  {
    var n := Js.ParseDecimal(digits);
    if zeroIsDefault && n == 0 then 1 else n
  }

  /** The left-to-right replace, parametrised by the reading of a zero count. */
  function SanitizeBy(s: string, zeroIsDefault: bool): (r: string)
    decreases |s|
  {
    if s == [] then []
    else if StartsWithCursorForward(s) then
      Js.Spaces(SpaceCount(MatchDigits(s), zeroIsDefault)) + SanitizeBy(s[MatchLength(s)..], zeroIsDefault)
    else
      [s[0]] + SanitizeBy(s[1..], zeroIsDefault)
  }

  /** The sanitizer as written: `ESC[<n>C` becomes `n` spaces, `ESC[0C` none. */
  function SanitizeTerminalOutput(output: string): string
  {
    SanitizeBy(output, false)
  }

  /** The sanitizer with a zero count read as one space. */
  function SanitizeWithDefaultCount(output: string): string
  {
    SanitizeBy(output, true)
  }

  predicate EscFree(s: string)
  {
    forall k :: 0 <= k < |s| ==> s[k] != Esc
  }

  /** No cursor-forward sequence starts anywhere in `s`. */
  predicate NoCursorForward(s: string)
  {
    forall i :: 0 <= i < |s| ==> !StartsWithCursorForward(s[i..])
  }

  // ------------------------------------------------------------ copying through

  /** A prefix without ESC is copied through unchanged. */
  lemma {:induction false} EscFreePrefix(u: string, v: string, zeroIsDefault: bool)
    requires EscFree(u)
    ensures SanitizeBy(u + v, zeroIsDefault) == u + SanitizeBy(v, zeroIsDefault)
    decreases |u|
  {
    if u != [] {
      assert (u + v)[0] == u[0] != Esc;
      assert (u + v)[1..] == u[1..] + v;
      assert EscFree(u[1..]);
      EscFreePrefix(u[1..], v, zeroIsDefault);
      assert !StartsWithCursorForward(u + v);
      assert SanitizeBy(u + v, zeroIsDefault) == [u[0]] + SanitizeBy(u[1..] + v, zeroIsDefault);
      assert u == [u[0]] + u[1..];
    } else {
      assert u + v == v;
    }
  }

  /** A string without ESC is returned unchanged. */
  lemma EscFreeUnchanged(s: string)
    requires EscFree(s)
    ensures SanitizeTerminalOutput(s) == s
  {
    EscFreePrefix(s, [], false);
    assert s + [] == s;
  }

  /** `ESC [ digits C rest` starts with a cursor-forward sequence of exactly those digits. */
  lemma MatchAt(digits: string, rest: string)
    requires |digits| >= 1 && Js.AllDigits(digits)
    ensures var s := [Esc, '['] + digits + "C" + rest;
      StartsWithCursorForward(s) && MatchDigits(s) == digits && s[MatchLength(s)..] == rest
  {
    var tail := digits + ("C" + rest);
    var s := [Esc, '['] + tail;
    assert s == [Esc, '['] + digits + "C" + rest;
    assert s[2..] == tail;
    LeadingDigitsAppend(digits, "C" + rest);
    assert LeadingDigits("C" + rest) == 0;
    var d := LeadingDigits(s[2..]);
    assert d == |digits|;
    assert s[2 + d] == 'C';
    assert StartsWithCursorForward(s);
    assert MatchLength(s) == 3 + d;
    assert s[2..2 + d] == digits;
    assert s[3 + d..] == rest;
  }

  /** One step of the scan over a cursor-forward sequence. */
  lemma UnfoldMatch(s: string, zeroIsDefault: bool)
    requires StartsWithCursorForward(s)
    ensures SanitizeBy(s, zeroIsDefault)
         == Js.Spaces(SpaceCount(MatchDigits(s), zeroIsDefault)) + SanitizeBy(s[MatchLength(s)..], zeroIsDefault)
  {
  }

  /** Each `ESC [ <digits> C` becomes exactly ParseDecimal(digits) spaces. */
  lemma CursorForwardReplaced(digits: string, rest: string)
    requires |digits| >= 1 && Js.AllDigits(digits)
    ensures SanitizeTerminalOutput([Esc, '['] + digits + "C" + rest)
         == Js.Spaces(Js.ParseDecimal(digits)) + SanitizeTerminalOutput(rest)
  {
    MatchAt(digits, rest);
    UnfoldMatch([Esc, '['] + digits + "C" + rest, false);
  }

  /** The example of the sanitizer's documentation: `ESC[15C` is fifteen spaces. */
  lemma FifteenColumns()
    ensures SanitizeTerminalOutput([Esc] + "[15C") == Js.Spaces(15)
  {
    CursorForwardReplaced("15", "");
    assert [Esc, '['] + "15" + "C" + "" == [Esc] + "[15C";
    assert Js.ParseDecimal("15") == 15 by {
      assert "15"[..1] == "1";
      assert "1"[..0] == "";
    }
  }

  /** A colour sequence `ESC [ <digits and ;> m` is copied through. */
  lemma ColourSequenceKept(params: string, rest: string)
    requires forall k :: 0 <= k < |params| ==> Js.IsDigit(params[k]) || params[k] == ';'
    ensures SanitizeTerminalOutput([Esc, '['] + params + "m" + rest)
         == [Esc, '['] + params + "m" + SanitizeTerminalOutput(rest)
  {
    var s := [Esc, '['] + params + "m" + rest;
    var d := LeadingDigits(s[2..]);
    assert s[2..] == params + "m" + rest;
    assert s[2..][|params|] == 'm';
    assert d <= |params|;
    assert s[2 + d] == (params + "m")[d];
    assert !StartsWithCursorForward(s);
    var tail := ['['] + params + "m";
    assert EscFree(tail);
    assert s[1..] == tail + rest;
    EscFreePrefix(tail, rest, false);
  }

  /** Cursor-up `ESC [ A` is copied through. */
  lemma CursorUpKept(rest: string)
    ensures SanitizeTerminalOutput([Esc] + "[A" + rest) == [Esc] + "[A" + SanitizeTerminalOutput(rest)
  {
    var s := [Esc] + "[A" + rest;
    assert s[2..][0] == 'A';
    assert !StartsWithCursorForward(s);
    assert s[1..] == "[A" + rest;
    EscFreePrefix("[A", rest, false);
  }

  // ------------------------------------------------------------ length

  /** The digit strings of the cursor-forward sequences the scan replaces, in order. */
  function ReplacedDigits(s: string): (r: seq<string>)
    ensures forall k :: 0 <= k < |r| ==> |r[k]| >= 1 && Js.AllDigits(r[k])
    decreases |s|
  {
    if s == [] then []
    else if StartsWithCursorForward(s) then [MatchDigits(s)] + ReplacedDigits(s[MatchLength(s)..])
    else ReplacedDigits(s[1..])
  }

  /** The characters the replaced sequences took: their digits plus `ESC`, `[` and `C`. */
  function SequenceChars(ds: seq<string>): nat
  {
    if ds == [] then 0 else |ds[0]| + 3 + SequenceChars(ds[1..])
  }

  /** The spaces the replaced sequences became. */
  function SpaceTotal(ds: seq<string>): nat
    requires forall k :: 0 <= k < |ds| ==> Js.AllDigits(ds[k])
  {
    if ds == [] then 0 else Js.ParseDecimal(ds[0]) + SpaceTotal(ds[1..])
  }

  /** The output is the input, less the replaced sequences, plus their spaces. */
  lemma {:induction false} SanitizedLength(s: string)
    ensures |SanitizeTerminalOutput(s)| + SequenceChars(ReplacedDigits(s))
         == |s| + SpaceTotal(ReplacedDigits(s))
    decreases |s|
  {
    if s != [] {
      if StartsWithCursorForward(s) {
        SanitizedLength(s[MatchLength(s)..]);
        var ds := ReplacedDigits(s);
        assert ds[1..] == ReplacedDigits(s[MatchLength(s)..]);
      } else {
        SanitizedLength(s[1..]);
      }
    }
  }

  // ------------------------------------------------------------ idempotence

  lemma {:induction false} LeadingDigitsAppend(a: string, b: string)
    requires Js.AllDigits(a)
    ensures LeadingDigits(a + b) == |a| + LeadingDigits(b)
    decreases |a|
  {
    if a != [] {
      assert (a + b)[0] == a[0];
      assert Js.IsDigit(a[0]);
      assert (a + b)[1..] == a[1..] + b;
      assert Js.AllDigits(a[1..]);
      LeadingDigitsAppend(a[1..], b);
      assert LeadingDigits(a + b) == 1 + LeadingDigits((a + b)[1..]);
    } else {
      assert a + b == b;
    }
  }

  /**
   * As written, sanitizing is not idempotent: removing an `ESC[0C` can join an
   * ESC before it to `[5C` after it into a new cursor-forward sequence.
   */
  lemma ZeroCountBreaksIdempotence()
    ensures var x := [Esc, Esc] + "[0C[5C";
      SanitizeTerminalOutput(x) == [Esc] + "[5C"
      && SanitizeTerminalOutput(SanitizeTerminalOutput(x)) == Js.Spaces(5)
      && SanitizeTerminalOutput(SanitizeTerminalOutput(x)) != SanitizeTerminalOutput(x)
  {
    var x := [Esc, Esc] + "[0C[5C";
    assert !StartsWithCursorForward(x);
    assert x[1..] == [Esc, '['] + "0" + "C" + "[5C";
    CursorForwardReplaced("0", "[5C");
    assert Js.ParseDecimal("0") == 0 by { assert "0"[..0] == ""; }
    EscFreeUnchanged("[5C");
    assert SanitizeTerminalOutput(x) == [Esc] + "[5C";
    CursorForwardReplaced("5", "");
    assert Js.ParseDecimal("5") == 5 by { assert "5"[..0] == ""; }
    assert [Esc, '['] + "5" + "C" + "" == [Esc] + "[5C";
    assert SanitizeTerminalOutput("") == "";
    assert |Js.Spaces(5)| != |[Esc] + "[5C"|;
  }

  /** With a zero count read as one, the output starts like the input, or with a space. */
  lemma FirstCharacter(u: string)
    requires u != []
    ensures SanitizeWithDefaultCount(u) != []
    ensures SanitizeWithDefaultCount(u)[0] == if StartsWithCursorForward(u) then ' ' else u[0]
  {
  }

  /** A leading run of digits is copied through. */
  lemma DigitRunCopied(u: string)
    ensures var d := LeadingDigits(u);
      SanitizeWithDefaultCount(u) == u[..d] + SanitizeWithDefaultCount(u[d..])
  {
    var d := LeadingDigits(u);
    assert u == u[..d] + u[d..];
    EscFreePrefix(u[..d], u[d..], true);
  }

  /** An ESC that starts no cursor-forward sequence still starts none after the rest is sanitized. */
  lemma EscNotJoined(s: string)
    requires s != [] && s[0] == Esc && !StartsWithCursorForward(s)
    ensures !StartsWithCursorForward([Esc] + SanitizeWithDefaultCount(s[1..]))
  {
    var r := SanitizeWithDefaultCount(s[1..]);
    var out := [Esc] + r;
    if |s| >= 2 && StartsWithCursorForward(out) {
      FirstCharacter(s[1..]);
      assert r[0] == '[';
      assert !StartsWithCursorForward(s[1..]) && s[1] == '[';
      assert s[1..][1..] == s[2..];
      var u := s[2..];
      var w := SanitizeWithDefaultCount(u);
      assert r == ['['] + w;
      assert out[2..] == w;
      var d := LeadingDigits(u);
      DigitRunCopied(u);
      var v := SanitizeWithDefaultCount(u[d..]);
      assert w == u[..d] + v;
      LeadingDigitsAppend(u[..d], v);
      if v == [] {
        assert false;
      } else {
        FirstCharacter(u[d..]);
        assert false;
      }
    }
  }

  /** With a zero count read as one, the output contains no cursor-forward sequence. */
  lemma {:induction false} SanitizedHasNoCursorForward(s: string)
    ensures NoCursorForward(SanitizeWithDefaultCount(s))
    decreases |s|
  {
    var out := SanitizeWithDefaultCount(s);
    if s != [] {
      if StartsWithCursorForward(s) {
        var rest := s[MatchLength(s)..];
        SanitizedHasNoCursorForward(rest);
        var sp := Js.Spaces(SpaceCount(MatchDigits(s), true));
        var r := SanitizeWithDefaultCount(rest);
        assert out == sp + r;
        forall i | 0 <= i < |out| ensures !StartsWithCursorForward(out[i..]) {
          if i >= |sp| {
            assert out[i..] == r[i - |sp|..];
          } else {
            assert out[i..][0] == ' ';
          }
        }
      } else {
        SanitizedHasNoCursorForward(s[1..]);
        var r := SanitizeWithDefaultCount(s[1..]);
        assert out == [s[0]] + r;
        forall i | 0 <= i < |out| ensures !StartsWithCursorForward(out[i..]) {
          if i >= 1 {
            assert out[i..] == r[i - 1..];
          } else if s[0] == Esc {
            EscNotJoined(s);
          }
        }
      }
    }
  }

  /** A string with no cursor-forward sequence is returned unchanged. */
  lemma {:induction false} NoCursorForwardUnchanged(t: string, zeroIsDefault: bool)
    requires NoCursorForward(t)
    ensures SanitizeBy(t, zeroIsDefault) == t
    decreases |t|
  {
    if t != [] {
      assert t[0..] == t;
      forall i | 0 <= i < |t[1..]| ensures !StartsWithCursorForward(t[1..][i..]) {
        assert t[1..][i..] == t[i + 1..];
      }
      NoCursorForwardUnchanged(t[1..], zeroIsDefault);
    }
  }

  /** With a zero count read as one, sanitizing twice is sanitizing once. */
  lemma SanitizeWithDefaultCountIdempotent(s: string)
    ensures SanitizeWithDefaultCount(SanitizeWithDefaultCount(s)) == SanitizeWithDefaultCount(s)
  {
    SanitizedHasNoCursorForward(s);
    NoCursorForwardUnchanged(SanitizeWithDefaultCount(s), true);
  }
}
