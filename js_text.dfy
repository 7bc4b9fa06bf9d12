/**
 * The two string built-ins the handlers call on user input:
 * `String.prototype.trim` (blank-input guards) and the global `parseInt`
 * (reading a 1-based playlist number out of a `prompt` answer).
 */
module JsText {
  import opened Js

  /** ECMAScript WhiteSpace and LineTerminator code points: what `trim`
      strips and what `parseInt` skips. */
  predicate IsWhitespace(c: char) {
    || c == '\t' || c == '\n' || c == '\U{000B}' || c == '\U{000C}' || c == '\r'
    || c == ' ' || c == '\U{00A0}' || c == '\U{1680}'
    || ('\U{2000}' <= c <= '\U{200A}')
    || c == '\U{2028}' || c == '\U{2029}' || c == '\U{202F}' || c == '\U{205F}'
    || c == '\U{3000}' || c == '\U{FEFF}'
  }

  predicate IsBlank(s: string) {
    forall i :: 0 <= i < |s| ==> IsWhitespace(s[i])
  }

  function TrimStart(s: string): (r: string)
    ensures |r| <= |s| && r == s[|s| - |r|..]
    ensures r != [] ==> !IsWhitespace(r[0])
  {
    if s != [] && IsWhitespace(s[0]) then TrimStart(s[1..]) else s
  }

  function TrimEnd(s: string): (r: string)
    ensures |r| <= |s| && r == s[..|r|]
    ensures r != [] ==> !IsWhitespace(r[|r| - 1])
  {
    if s != [] && IsWhitespace(s[|s| - 1]) then TrimEnd(s[..|s| - 1]) else s
  }

  /** `s.trim()` */
  function Trim(s: string): string {
    TrimEnd(TrimStart(s))
  }

  lemma {:induction false} TrimStartEmptyIffBlank(s: string)
    ensures TrimStart(s) == [] <==> IsBlank(s)
  {
    if s == [] {
    } else if IsWhitespace(s[0]) {
      TrimStartEmptyIffBlank(s[1..]);
      if IsBlank(s[1..]) {
        forall i | 0 <= i < |s| ensures IsWhitespace(s[i]) {
          if i > 0 { assert s[i] == s[1..][i - 1]; }
        }
      } else {
        var j :| 0 <= j < |s[1..]| && !IsWhitespace(s[1..][j]);
        assert s[j + 1] == s[1..][j];
      }
    } else {
      assert !IsBlank(s) by { assert !IsWhitespace(s[0]); }
    }
  }

  /** `!s.trim()` holds exactly for strings made only of white space: the
      guard that keeps blank comments from being posted. */
  lemma TrimEmptyIffBlank(s: string)
    ensures Trim(s) == "" <==> IsBlank(s)
  {
    TrimStartEmptyIffBlank(s);
    var t := TrimStart(s);
    if t != [] {
      // t starts with a non-space character, which TrimEnd can never strip
      assert TrimEnd(t) != [] by {
        if TrimEnd(t) == [] { TrimEndKeepsFirst(t); }
      }
    }
  }

  lemma {:induction false} TrimEndKeepsFirst(t: string)
    requires t != [] && !IsWhitespace(t[0])
    ensures TrimEnd(t) != []
  {
    if IsWhitespace(t[|t| - 1]) {
      assert |t| > 1;
      TrimEndKeepsFirst(t[..|t| - 1]);
    }
  }

  /** The value of a digit character in radix 36 notation. */
  function DigitValue(c: char): (r: Option<nat>)
    ensures r.Some? ==> r.value < 36
  {
    if '0' <= c <= '9' then Some(c as int - '0' as int)
    else if 'a' <= c <= 'z' then Some(c as int - 'a' as int + 10)
    else if 'A' <= c <= 'Z' then Some(c as int - 'A' as int + 10)
    else None
  }

  predicate IsDigit(c: char, radix: nat) {
    DigitValue(c).Some? && DigitValue(c).value < radix
  }

  /** Length of the longest prefix of `s` made of radix digits. */
  function DigitRun(s: string, radix: nat): (k: nat)
    ensures k <= |s|
    ensures forall i :: 0 <= i < k ==> IsDigit(s[i], radix)
    ensures k < |s| ==> !IsDigit(s[k], radix)
  {
    if s != [] && IsDigit(s[0], radix) then 1 + DigitRun(s[1..], radix) else 0
  }

  /** The value of a run of digits, most significant first. Only ever
      applied to a run `DigitRun` accepted, so every character has a
      value. */
  function DigitsValue(d: string, radix: nat): nat
  {
    if d == [] then 0
    else
      var last := DigitValue(d[|d| - 1]);
      DigitsValue(d[..|d| - 1], radix) * radix + (if last.Some? then last.value else 0)
  }

  /** The global `parseInt(s)` with no radix argument, on integers: skip
      leading white space, take one optional sign, then read the magnitude;
      no digit at all is NaN (None). */
  function ParseInt(s: string): (r: Option<int>)
  {
    var t := TrimStart(s);
    var negative := t != [] && t[0] == '-';
    var u := if t != [] && (t[0] == '-' || t[0] == '+') then t[1..] else t;
    match ParseMagnitude(u)
    case None => None
    case Some(m) =>
      var value: int := if negative then -(m as int) else m;
      Some(value)
  }

  /** The unsigned part of `parseInt`: a `0x`/`0X` prefix selects radix 16,
      otherwise radix 10, and the longest run of digits is read. */
  function ParseMagnitude(u: string): (r: Option<nat>)
  {
    if HexPrefixed(u) then ReadDigits(u[2..], 16) else ReadDigits(u, 10)
  }

  predicate HexPrefixed(u: string) {
    |u| >= 2 && u[0] == '0' && (u[1] == 'x' || u[1] == 'X')
  }

  function ReadDigits(v: string, radix: nat): (r: Option<nat>)
  {
    var k := DigitRun(v, radix);
    if k == 0 then None else Some(DigitsValue(v[..k], radix))
  }

  lemma {:induction false} NatTextValue(n: nat)
    ensures DigitsValue(NatText(n), 10) == n
  {
    if n >= 10 {
      var d := NatText(n);
      NatTextValue(n / 10);
      assert d[..|d| - 1] == NatText(n / 10);
    }
  }

  lemma {:induction false} DigitRunWhole(s: string, radix: nat)
    requires forall i :: 0 <= i < |s| ==> IsDigit(s[i], radix)
    ensures DigitRun(s, radix) == |s|
  {
    if s != [] {
      DigitRunWhole(s[1..], radix);
    }
  }

  lemma ParseMagnitudeText(m: nat)
    ensures ParseMagnitude(NatText(m)) == Some(m)
  {
    var d := NatText(m);
    forall i | 0 <= i < |d| ensures IsDigit(d[i], 10) {
      assert '0' <= d[i] <= '9';
    }
    DigitRunWhole(d, 10);
    assert !HexPrefixed(d);
    assert d[..|d|] == d;
    NatTextValue(m);
    assert ReadDigits(d, 10) == Some(m);
  }

  /** Reading back what `String(n)` printed gives `n`: the numbers a user
      types at the playlist prompt are read as themselves. */
  lemma ParseIntText(n: int)
    ensures ParseInt(IntText(n)) == Some(n)
  {
    var m: nat := if n < 0 then -n else n;
    var d := NatText(m);
    var t := IntText(n);
    ParseMagnitudeText(m);
    assert !IsWhitespace(t[0]);
    assert TrimStart(t) == t;
    if n < 0 {
      assert t == "-" + d && t[1..] == d;
    } else {
      assert t == d && t[0] != '-' && t[0] != '+';
    }
  }
}
