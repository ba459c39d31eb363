/** String helpers with the meaning JavaScript gives them: `trim`, `startsWith`,
    `join`, ASCII character classes of regular expressions. Strings are sequences of
    Unicode scalar values, where JavaScript strings are sequences of UTF-16 code units:
    lengths, indices and orders agree for text within the Basic Multilingual Plane, and
    case mapping is modelled for ASCII letters only. */
module Text {

  /** The characters `String.prototype.trim` removes: ECMAScript WhiteSpace and
      LineTerminator. */
  predicate IsWs(c: char) {
    c == '\t' || c == '\n' || c == '\U{B}' || c == '\U{C}' || c == '\r' || c == ' '
    || c == '\U{A0}' || c == '\U{1680}' || ('\U{2000}' <= c <= '\U{200A}')
    || c == '\U{2028}' || c == '\U{2029}' || c == '\U{202F}' || c == '\U{205F}'
    || c == '\U{3000}' || c == '\U{FEFF}'
  }

  /** The characters a regular-expression `.` does not match. */
  predicate IsLineTerminator(c: char) {
    c == '\n' || c == '\r' || c == '\U{2028}' || c == '\U{2029}'
  }

  predicate IsLetter(c: char) { 'a' <= c <= 'z' || 'A' <= c <= 'Z' }
  predicate IsDigit(c: char) { '0' <= c <= '9' }
  predicate IsAlnum(c: char) { IsLetter(c) || IsDigit(c) }

  /** `s.trimStart()`: drops exactly the leading whitespace. */
  function TrimStart(s: string): (r: string)
    ensures |r| <= |s| && r == s[|s| - |r|..]
    ensures r == [] || !IsWs(r[0])
    ensures forall i :: 0 <= i < |s| - |r| ==> IsWs(s[i])
  {
    if |s| > 0 && IsWs(s[0]) then TrimStart(s[1..]) else s
  }

  /** `s.trimEnd()`: drops exactly the trailing whitespace. */
  function TrimEnd(s: string): (r: string)
    ensures |r| <= |s| && r == s[..|r|]
    ensures r == [] || !IsWs(r[|r| - 1])
    ensures forall i :: |r| <= i < |s| ==> IsWs(s[i])
  {
    if |s| > 0 && IsWs(s[|s| - 1]) then TrimEnd(s[..|s| - 1]) else s
  }

  /** `s.trim()`. */
  function Trim(s: string): (r: string)
    ensures |r| <= |s|
    ensures IsTrimmed(r)
  {
    TrimEnd(TrimStart(s))
  }

  /** A string `trim` leaves unchanged: it neither starts nor ends with whitespace. */
  predicate IsTrimmed(s: string) { s == [] || (!IsWs(s[0]) && !IsWs(s[|s| - 1])) }

  /** `trim` yields the empty string exactly for all-whitespace input. */
  lemma {:induction false} TrimEmpty(s: string)
    ensures Trim(s) == [] <==> forall i :: 0 <= i < |s| ==> IsWs(s[i])
  {
  }

  /** A string whose first character is not whitespace keeps that character. */
  lemma {:induction false} TrimKeepsFirst(s: string)
    requires s != [] && !IsWs(s[0])
    ensures Trim(s) != [] && Trim(s)[0] == s[0]
  {
    assert TrimStart(s) == s;
  }

  /** `trim` leaves a trimmed string as it is. */
  lemma {:induction false} TrimTrimmed(s: string)
    requires IsTrimmed(s)
    ensures Trim(s) == s
  {
    if s != [] {
      assert TrimStart(s) == s;
    }
  }

  /** The characters of `s` that are not whitespace, in order. */
  function RemoveWs(s: string): string {
    if s == [] then [] else (if IsWs(s[0]) then [] else [s[0]]) + RemoveWs(s[1..])
  }

  lemma {:induction false} RemoveWsAppend(a: string, b: string)
    ensures RemoveWs(a + b) == RemoveWs(a) + RemoveWs(b)
  {
    if a != [] {
      assert (a + b)[1..] == a[1..] + b;
      RemoveWsAppend(a[1..], b);
    } else {
      assert a + b == b;
    }
  }

  /** A string made of whitespace only contributes nothing. */
  lemma {:induction false} RemoveWsAllWs(s: string)
    requires forall i :: 0 <= i < |s| ==> IsWs(s[i])
    ensures RemoveWs(s) == []
  {
    if s != [] {
      RemoveWsAllWs(s[1..]);
    }
  }

  /** Trimming only ever removes whitespace. */
  lemma {:induction false} RemoveWsTrim(s: string)
    ensures RemoveWs(Trim(s)) == RemoveWs(s)
  {
    var t := TrimStart(s);
    RemoveWsSplit(s, |s| - |t|);
    RemoveWsAllWs(s[..|s| - |t|]);
    var u := TrimEnd(t);
    RemoveWsSplit(t, |u|);
    RemoveWsAllWs(t[|u|..]);
  }

  lemma {:induction false} RemoveWsSplit(s: string, k: nat)
    requires k <= |s|
    ensures RemoveWs(s) == RemoveWs(s[..k]) + RemoveWs(s[k..])
  {
    assert s == s[..k] + s[k..];
    RemoveWsAppend(s[..k], s[k..]);
  }

  predicate StartsWith(s: string, prefix: string) {
    |prefix| <= |s| && s[..|prefix|] == prefix
  }

  predicate EndsWith(s: string, suffix: string) {
    |suffix| <= |s| && s[|s| - |suffix|..] == suffix
  }

  /** `xs.join(sep)`. */
  function Join(xs: seq<string>, sep: string): string {
    if xs == [] then ""
    else if |xs| == 1 then xs[0]
    else xs[0] + sep + Join(xs[1..], sep)
  }

  /** The in-order concatenation of the strings of `xs`. */
  function Concat(xs: seq<string>): string {
    if xs == [] then "" else xs[0] + Concat(xs[1..])
  }

  lemma {:induction false} ConcatAppend(xs: seq<string>, ys: seq<string>)
    ensures Concat(xs + ys) == Concat(xs) + Concat(ys)
  {
    if xs == [] {
      assert xs + ys == ys;
    } else {
      assert (xs + ys)[1..] == xs[1..] + ys;
      ConcatAppend(xs[1..], ys);
    }
  }

  /** ASCII `toUpperCase`. */
  function ToUpper(s: string): (r: string)
    ensures |r| == |s|
  {
    if s == [] then []
    else [if 'a' <= s[0] <= 'z' then (s[0] as int - 32) as char else s[0]] + ToUpper(s[1..])
  }

  /** ASCII `toLowerCase`. */
  function ToLower(s: string): (r: string)
    ensures |r| == |s|
  {
    if s == [] then []
    else [if 'A' <= s[0] <= 'Z' then (s[0] as int + 32) as char else s[0]] + ToLower(s[1..])
  }

  /** Lower-casing first does not change the upper-case form. */
  lemma {:induction false} UpperOfLower(s: string)
    ensures ToUpper(ToLower(s)) == ToUpper(s)
  {
    if s != [] {
      UpperOfLower(s[1..]);
      assert ToLower(s)[1..] == ToLower(s[1..]);
    }
  }

  /** `path.join(dir, name)` for a directory and a plain file name. */
  function PathJoin(dir: string, name: string): string {
    dir + "/" + name
  }
}
