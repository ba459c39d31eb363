/** Numbers written as text: the decimal form of a natural number, the value of a run of
    digits, the trailing number of a string (`/(\d+)$/` followed by `parseInt(m, 10)`),
    and `parseInt(s)` without a radix. */
module NumberText {
  import opened Wrappers
  import opened Text

  predicate AllDigits(s: string) { forall k :: 0 <= k < |s| ==> IsDigit(s[k]) }

  function DigitValue(c: char): nat
    requires IsDigit(c)
  {
    c as int - '0' as int
  }

  function DigitChar(d: nat): (c: char)
    requires d < 10
    ensures IsDigit(c) && DigitValue(c) == d
  {
    ('0' as int + d) as char
  }

  /** The value of a run of decimal digits, most significant first. */
  function DigitsValue(s: string): nat
    requires AllDigits(s)
  {
    if s == [] then 0 else DigitsValue(s[..|s| - 1]) * 10 + DigitValue(s[|s| - 1])
  }

  /** The decimal form of `n`, without leading zeros ("0" for zero). */
  function NatToString(n: nat): (s: string)
    ensures s != [] && AllDigits(s)
    ensures |s| > 1 ==> s[0] != '0'
    decreases n
  {
    if n < 10 then [DigitChar(n)] else NatToString(n / 10) + [DigitChar(n % 10)]
  }

  /** Reading back the decimal form gives the number. */
  lemma {:induction false} NatToStringValue(n: nat)
    ensures DigitsValue(NatToString(n)) == n
    decreases n
  {
    var s := NatToString(n);
    if n >= 10 {
      NatToStringValue(n / 10);
      assert s[..|s| - 1] == NatToString(n / 10);
    }
  }

  /** Where the trailing run of digits of `s` starts (`|s|` when `s` does not end in a
      digit). */
  function TrailingDigitsStart(s: string): (i: nat)
    ensures i <= |s| && AllDigits(s[i..])
    ensures i > 0 ==> !IsDigit(s[i - 1])
  {
    if s == [] || !IsDigit(s[|s| - 1]) then |s|
    else
      var i := TrailingDigitsStart(s[..|s| - 1]);
      assert s[i..] == s[..|s| - 1][i..] + [s[|s| - 1]];
      i
  }

  /** `args.match(/(\d+)$/)` read with `parseInt(match[1], 10)`: the number the string
      ends with, or None when it does not end in a digit. */
  function TrailingNumber(s: string): (r: Option<nat>)
    ensures r.Some? <==> s != [] && IsDigit(s[|s| - 1])
  {
    var i := TrailingDigitsStart(s);
    if i == |s| then None else Some(DigitsValue(s[i..]))
  }

  /** A string that ends in the decimal form of `n`, after something that is not a digit,
      has the trailing number `n`. */
  lemma {:induction false} TrailingNumberOf(prefix: string, n: nat)
    requires prefix == [] || !IsDigit(prefix[|prefix| - 1])
    ensures TrailingNumber(prefix + NatToString(n)) == Some(n)
  {
    var d := NatToString(n);
    var s := prefix + d;
    TrailingStartAfter(prefix, d);
    assert s[|prefix|..] == d;
    NatToStringValue(n);
  }

  lemma {:induction false} TrailingStartAfter(prefix: string, d: string)
    requires prefix == [] || !IsDigit(prefix[|prefix| - 1])
    requires AllDigits(d)
    ensures TrailingDigitsStart(prefix + d) == |prefix|
    decreases |d|
  {
    var s := prefix + d;
    if d == [] {
      assert s == prefix;
    } else {
      assert s[..|s| - 1] == prefix + d[..|d| - 1];
      TrailingStartAfter(prefix, d[..|d| - 1]);
    }
  }

  predicate IsHexDigit(c: char) { IsDigit(c) || 'a' <= c <= 'f' || 'A' <= c <= 'F' }

  function HexDigitValue(c: char): nat
    requires IsHexDigit(c)
  {
    if IsDigit(c) then DigitValue(c) else if 'a' <= c <= 'f' then c as int - 'a' as int + 10 else c as int - 'A' as int + 10
  }

  /** The length of the leading run of characters of `s` that are digits (hexadecimal
      ones when `hex`). */
  function LeadingRun(s: string, hex: bool): (n: nat)
    ensures n <= |s|
    ensures forall k :: 0 <= k < n ==> (if hex then IsHexDigit(s[k]) else IsDigit(s[k]))
    ensures n < |s| ==> !(if hex then IsHexDigit(s[n]) else IsDigit(s[n]))
  {
    if s == [] || !(if hex then IsHexDigit(s[0]) else IsDigit(s[0])) then 0
    else 1 + LeadingRun(s[1..], hex)
  }

  /** The value of a run of digits in base 10 or 16. */
  function RunValue(s: string, hex: bool): nat
    requires forall k :: 0 <= k < |s| ==> (if hex then IsHexDigit(s[k]) else IsDigit(s[k]))
  {
    if s == [] then 0
    else RunValue(s[..|s| - 1], hex) * (if hex then 16 else 10)
         + (if hex then HexDigitValue(s[|s| - 1]) else DigitValue(s[|s| - 1]))
  }

  lemma {:induction false} DecimalRunValue(s: string)
    requires AllDigits(s)
    ensures RunValue(s, false) == DigitsValue(s)
  {
    if s != [] {
      DecimalRunValue(s[..|s| - 1]);
    }
  }

  /** The digits after any sign: a "0x" or "0X" prefix selects base 16, and the longest
      run of digits is read; None when there is no digit. */
  function ParseUnsigned(u: string): Option<nat> {
    var hex := |u| >= 2 && u[0] == '0' && (u[1] == 'x' || u[1] == 'X');
    var body := if hex then u[2..] else u;
    var n := LeadingRun(body, hex);
    if n == 0 then None else Some(RunValue(body[..n], hex))
  }

  /** `parseInt(s)` with no radix: leading whitespace is skipped, a sign is read, then the
      number as `ParseUnsigned` reads it; None stands for NaN (no digit at all). */
  function ParseInt(s: string): (r: Option<int>)
  {
    var t := TrimStart(s);
    var neg := t != [] && t[0] == '-';
    var u := if t != [] && (t[0] == '-' || t[0] == '+') then t[1..] else t;
    match ParseUnsigned(u)
    case None => None
    case Some(v) => Some(if neg then -(v as int) else v)
  }

  /** A decimal form without leading zeros is read whole, never as hexadecimal. */
  lemma {:induction false} UnsignedOfNat(n: nat)
    ensures ParseUnsigned(NatToString(n)) == Some(n)
  {
    var d := NatToString(n);
    assert !(|d| >= 2 && d[0] == '0');
    AllDigitsRun(d);
    assert d[..|d|] == d;
    NatToStringValue(n);
    DecimalRunValue(d);
  }

  /** The decimal form of a number, optionally after whitespace, parses back to it. */
  lemma {:induction false} ParseIntOfNat(ws: string, n: nat)
    requires forall k :: 0 <= k < |ws| ==> IsWs(ws[k])
    ensures ParseInt(ws + NatToString(n)) == Some(n)
  {
    var d := NatToString(n);
    SkipWs(ws, d);
    assert TrimStart(ws + d) == d;
    assert IsDigit(d[0]);
    assert d[0] != '-' && d[0] != '+';
    UnsignedOfNat(n);
    assert ParseUnsigned(d) == Some(n);
  }

  /** A minus sign in front of the decimal form negates it. */
  lemma {:induction false} ParseIntOfNegative(ws: string, n: nat)
    requires forall k :: 0 <= k < |ws| ==> IsWs(ws[k])
    ensures ParseInt(ws + ("-" + NatToString(n))).Some?
    ensures ParseInt(ws + ("-" + NatToString(n))).value == -(n as int)
  {
    var d := NatToString(n);
    SkipWs(ws, "-" + d);
    assert ("-" + d)[1..] == d;
    UnsignedOfNat(n);
  }

  /** Text whose first visible character is not a sign or a digit is NaN. */
  lemma {:induction false} ParseIntNaN(s: string)
    requires TrimStart(s) == [] || !(IsDigit(TrimStart(s)[0]) || TrimStart(s)[0] in "+-")
    ensures ParseInt(s) == None
  {
  }

  lemma {:induction false} SkipWs(ws: string, s: string)
    requires forall k :: 0 <= k < |ws| ==> IsWs(ws[k])
    requires s != [] && !IsWs(s[0])
    ensures TrimStart(ws + s) == s
    decreases |ws|
  {
    var t := ws + s;
    if ws == [] {
      assert t == s;
    } else {
      assert t[0] == ws[0];
      assert t[1..] == ws[1..] + s;
      assert TrimStart(t) == TrimStart(t[1..]);
      SkipWs(ws[1..], s);
    }
  }

  lemma {:induction false} AllDigitsRun(d: string)
    requires AllDigits(d)
    ensures LeadingRun(d, false) == |d|
  {
    if d != [] {
      AllDigitsRun(d[1..]);
    }
  }
}
