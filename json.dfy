/** The part of JSON that conversation documents use: strings, arrays and objects.
    `Encode` plays `JSON.stringify` and `Parse` plays `JSON.parse`; the round trip
    `Parse(Encode(v)) == Some(v)` is what the session store relies on. Like `JSON.parse`,
    `Parse` also reads a document with whitespace between its tokens. */
module Json {
  import opened Wrappers

  datatype Value = Str(s: string) | Arr(items: seq<Value>) | Obj(fields: seq<Field>)
  datatype Field = Field(key: string, val: Value)

  /** The escape JSON.stringify writes for a character inside a string literal: the
      quote, the backslash and the control characters with a short form get it, the
      other control characters are written `\u00` and two lower-case hexadecimal
      digits, and every other character is written as it is. */
  function EscapeChar(c: char): string {
    if c == '"' then "\\\""
    else if c == '\\' then "\\\\"
    else if c == '\n' then "\\n"
    else if c == '\r' then "\\r"
    else if c == '\t' then "\\t"
    else if c == '\U{8}' then "\\b"
    else if c == '\U{C}' then "\\f"
    else if c < ' ' then "\\u00" + [HexDigit(c as int / 16), HexDigit(c as int % 16)]
    else [c]
  }

  /** The lower-case hexadecimal digit of `d`. */
  function HexDigit(d: int): char
    requires 0 <= d < 16
  {
    if d < 10 then ('0' as int + d) as char else ('a' as int + d - 10) as char
  }

  /** The value of a hexadecimal digit, in either case. */
  function HexValue(c: char): (r: Option<int>)
    ensures r.Some? ==> 0 <= r.value < 16
  {
    if '0' <= c <= '9' then Some(c as int - '0' as int)
    else if 'a' <= c <= 'f' then Some(c as int - 'a' as int + 10)
    else if 'A' <= c <= 'F' then Some(c as int - 'A' as int + 10)
    else None
  }

  /** The character four hexadecimal digits after `\u` stand for; a code of the
      surrogate range stands for no character here. */
  function HexChar(h: string): Option<char>
    requires |h| == 4
  {
    if HexValue(h[0]).None? || HexValue(h[1]).None? || HexValue(h[2]).None? || HexValue(h[3]).None? then None
    else
      var v := ((HexValue(h[0]).value * 16 + HexValue(h[1]).value) * 16 + HexValue(h[2]).value) * 16
               + HexValue(h[3]).value;
      if 0xD800 <= v <= 0xDFFF then None else Some(v as char)
  }

  /** The character a two-character escape `\c` stands for. */
  function UnescapeChar(c: char): Option<char> {
    if c == '"' then Some('"')
    else if c == '\\' then Some('\\')
    else if c == '/' then Some('/')
    else if c == 'n' then Some('\n')
    else if c == 'r' then Some('\r')
    else if c == 't' then Some('\t')
    else if c == 'b' then Some('\U{8}')
    else if c == 'f' then Some('\U{C}')
    else None
  }

  function Escape(s: string): string {
    if s == [] then [] else EscapeChar(s[0]) + Escape(s[1..])
  }

  function Encode(v: Value): (r: string)
    ensures |r| >= 2 && (r[0] == '"' || r[0] == '[' || r[0] == '{')
  {
    match v
    case Str(s) => "\"" + Escape(s) + "\""
    case Arr(items) => "[" + EncodeItems(items) + "]"
    case Obj(fields) => "{" + EncodeFields(fields) + "}"
  }

  function EncodeItems(items: seq<Value>): (r: string)
    ensures items != [] ==> |r| >= 2 && r[0] != ']'
  {
    if items == [] then ""
    else if |items| == 1 then Encode(items[0])
    else Encode(items[0]) + "," + EncodeItems(items[1..])
  }

  function EncodeField(f: Field): string {
    "\"" + Escape(f.key) + "\":" + Encode(f.val)
  }

  function EncodeFields(fields: seq<Field>): (r: string)
    ensures fields != [] ==> |r| >= 2 && r[0] == '"'
  {
    if fields == [] then ""
    else if |fields| == 1 then EncodeField(fields[0])
    else EncodeField(fields[0]) + "," + EncodeFields(fields[1..])
  }

  /** Reads the rest of a string literal whose opening quote is already consumed;
      returns the decoded string and the text after the closing quote. */
  function ParseStringBody(t: string): (r: Option<(string, string)>)
    ensures r.Some? ==> |r.value.1| < |t|
    decreases |t|
  {
    if t == [] then None
    else if t[0] == '"' then Some(("", t[1..]))
    else if t[0] == '\\' then
      if |t| < 2 then None
      else if t[1] == 'u' then
        if |t| < 6 then None
        else match HexChar(t[2..6])
          case None => None
          case Some(c) =>
            match ParseStringBody(t[6..])
            case None => None
            case Some((s, rest)) => Some(([c] + s, rest))
      else match UnescapeChar(t[1])
        case None => None
        case Some(c) =>
          match ParseStringBody(t[2..])
          case None => None
          case Some((s, rest)) => Some(([c] + s, rest))
    else if t[0] < ' ' then None
    else
      match ParseStringBody(t[1..])
      case None => None
      case Some((s, rest)) => Some(([t[0]] + s, rest))
  }

  /** The whitespace `JSON.parse` allows around every token. */
  predicate IsWs(c: char) {
    c == ' ' || c == '\t' || c == '\n' || c == '\r'
  }

  predicate AllWs(w: string) {
    forall i :: 0 <= i < |w| ==> IsWs(w[i])
  }

  /** Drops the whitespace at the front of `t`. */
  function SkipWs(t: string): (r: string)
    ensures |r| <= |t|
    ensures r == [] || !IsWs(r[0])
  {
    if t != [] && IsWs(t[0]) then SkipWs(t[1..]) else t
  }

  /** What `SkipWs` drops is whitespace, and what it keeps is the rest of the text. */
  lemma {:induction false} SkipWsSuffix(t: string)
    ensures var r := SkipWs(t);
            r == t[|t| - |r|..] && AllWs(t[..|t| - |r|])
  {
    if t != [] && IsWs(t[0]) {
      SkipWsSuffix(t[1..]);
      var r := SkipWs(t);
      assert t[1..][|t| - 1 - |r|..] == t[|t| - |r|..];
      assert t[..|t| - |r|] == [t[0]] + t[1..][..|t| - 1 - |r|];
    }
  }

  /** Text that starts with a token has no whitespace to skip. */
  lemma {:induction false} NothingToSkip(t: string)
    requires t != [] && !IsWs(t[0])
    ensures SkipWs(t) == t
  {
  }

  /** Reads one value after any whitespace; returns it and the text after it. */
  function ParseValue(t: string): (r: Option<(Value, string)>)
    ensures r.Some? ==> |r.value.1| < |t|
    decreases |t|, 0
  {
    if t == [] then None
    else if IsWs(t[0]) then ParseValue(t[1..])
    else if t[0] == '"' then
      match ParseStringBody(t[1..])
      case None => None
      case Some((s, rest)) => Some((Str(s), rest))
    else if t[0] == '[' then
      var inside := SkipWs(t[1..]);
      if inside != [] && inside[0] == ']' then Some((Arr([]), inside[1..]))
      else
        match ParseItems(t[1..])
        case None => None
        case Some((items, rest)) => Some((Arr(items), rest))
    else if t[0] == '{' then
      var inside := SkipWs(t[1..]);
      if inside != [] && inside[0] == '}' then Some((Obj([]), inside[1..]))
      else
        match ParseFields(t[1..])
        case None => None
        case Some((fields, rest)) => Some((Obj(fields), rest))
    else None
  }

  /** Reads `v1,v2,...,vn]`, with whitespace around each value. */
  function ParseItems(t: string): (r: Option<(seq<Value>, string)>)
    ensures r.Some? ==> |r.value.1| < |t|
    decreases |t|, 1
  {
    match ParseValue(t)
    case None => None
    case Some((v, after)) =>
      var rest := SkipWs(after);
      if rest == [] then None
      else if rest[0] == ']' then Some(([v], rest[1..]))
      else if rest[0] == ',' then
        match ParseItems(rest[1..])
        case None => None
        case Some((vs, rest2)) => Some(([v] + vs, rest2))
      else None
  }

  /** Reads one `"k":v`, with whitespace around the key and the value. */
  function ParseField(t: string): (r: Option<(Field, string)>)
    ensures r.Some? ==> |r.value.1| < |t|
    decreases |t|, 0
  {
    var start := SkipWs(t);
    if start == [] || start[0] != '"' then None
    else
      match ParseStringBody(start[1..])
      case None => None
      case Some((key, afterKey)) =>
        var rest := SkipWs(afterKey);
        if rest == [] || rest[0] != ':' then None
        else
          match ParseValue(rest[1..])
          case None => None
          case Some((v, rest2)) => Some((Field(key, v), rest2))
  }

  /** Reads `"k1":v1,...,"kn":vn}`, with whitespace around each field. */
  function ParseFields(t: string): (r: Option<(seq<Field>, string)>)
    ensures r.Some? ==> |r.value.1| < |t|
    decreases |t|, 1
  {
    match ParseField(t)
    case None => None
    case Some((f, after)) =>
      var rest := SkipWs(after);
      if rest == [] then None
      else if rest[0] == '}' then Some(([f], rest[1..]))
      else if rest[0] == ',' then
        match ParseFields(rest[1..])
        case None => None
        case Some((fs, rest2)) => Some(([f] + fs, rest2))
      else None
  }

  /** `JSON.parse`: the whole text must be one value, with whitespace around it. */
  function Parse(t: string): Option<Value> {
    match ParseValue(t)
    case Some((v, rest)) => if SkipWs(rest) == [] then Some(v) else None
    case None => None
  }

  /** Each digit reads back as its value. */
  lemma {:induction false} HexDigitValue(d: int)
    requires 0 <= d < 16
    ensures HexValue(HexDigit(d)) == Some(d)
  {
  }

  /** An escape is a backslash and the letter `UnescapeChar` reads back, a backslash,
      `u` and four digits `HexChar` reads back, or the character itself when that is
      neither a quote nor a backslash. */
  lemma {:induction false} EscapeCharShape(c: char)
    ensures |EscapeChar(c)| == 2 ==> EscapeChar(c)[0] == '\\' && EscapeChar(c)[1] != 'u'
                                     && UnescapeChar(EscapeChar(c)[1]) == Some(c)
    ensures |EscapeChar(c)| == 6 ==> EscapeChar(c)[0] == '\\' && EscapeChar(c)[1] == 'u'
                                     && HexChar(EscapeChar(c)[2..6]) == Some(c)
    ensures |EscapeChar(c)| != 2 && |EscapeChar(c)| != 6 ==> EscapeChar(c) == [c] && c != '"' && c != '\\' && c >= ' '
  {
    var e := EscapeChar(c);
    if |e| == 6 {
      var v := c as int;
      HexDigitValue(v / 16);
      HexDigitValue(v % 16);
      assert e[2..6] == ['0', '0', HexDigit(v / 16), HexDigit(v % 16)];
      assert ((0 * 16 + 0) * 16 + v / 16) * 16 + v % 16 == v;
    }
  }

  lemma {:induction false} EscapeCharRoundTrip(c: char, rest: string)
    ensures ParseStringBody(EscapeChar(c) + rest) ==
      (match ParseStringBody(rest)
       case None => None
       case Some((s, r)) => Some(([c] + s, r)))
  {
    var e := EscapeChar(c);
    var t := e + rest;
    EscapeCharShape(c);
    if |e| == 2 {
      assert t[0] == '\\' && t[1] == e[1];
      assert t[2..] == rest;
    } else if |e| == 6 {
      assert t[..6] == e;
      assert t[2..6] == e[2..6];
      assert t[0] == '\\' && t[1] == 'u';
      assert t[6..] == rest;
    } else {
      assert t[0] == c;
      assert t[1..] == rest;
    }
  }

  lemma {:induction false} StringRoundTrip(s: string, rest: string)
    ensures ParseStringBody(Escape(s) + "\"" + rest) == Some((s, rest))
  {
    if s == [] {
      assert Escape(s) + "\"" + rest == "\"" + rest;
    } else {
      assert Escape(s) + "\"" + rest == EscapeChar(s[0]) + (Escape(s[1..]) + "\"" + rest);
      StringRoundTrip(s[1..], rest);
      EscapeCharRoundTrip(s[0], Escape(s[1..]) + "\"" + rest);
      assert [s[0]] + s[1..] == s;
    }
  }

  /** A control character written raw inside a string literal, after any escaped text,
      makes the literal unreadable, as it does for `JSON.parse`. */
  lemma {:induction false} RawControlRefused(s: string, c: char, rest: string)
    requires c < ' '
    ensures ParseStringBody(Escape(s) + [c] + rest) == None
  {
    if s == [] {
      assert Escape(s) + [c] + rest == [c] + rest;
    } else {
      assert Escape(s) + [c] + rest == EscapeChar(s[0]) + (Escape(s[1..]) + [c] + rest);
      RawControlRefused(s[1..], c, rest);
      EscapeCharRoundTrip(s[0], Escape(s[1..]) + [c] + rest);
    }
  }

  /** A document whose first field's string value holds a raw control character, such as
      `{"prompt":"a<TAB>b","messages":[]}`, is unreadable as a whole. */
  lemma {:induction false} RawControlDocument(key: string, s: string, c: char, rest: string)
    requires c < ' '
    ensures Parse("{\"" + Escape(key) + "\":\"" + Escape(s) + [c] + rest) == None
  {
    var value := "\"" + Escape(s) + [c] + rest;
    var body := "\"" + Escape(key) + "\":" + value;
    assert "{\"" + Escape(key) + "\":\"" + Escape(s) + [c] + rest == "{" + body;
    assert value[1..] == Escape(s) + [c] + rest;
    RawControlRefused(s, c, rest);
    FieldValueUnreadable(key, value);
    ObjectUnreadable(body);
  }

  /** A field whose value cannot be read makes the fields unreadable. */
  lemma {:induction false} FieldValueUnreadable(key: string, value: string)
    requires ParseValue(value) == None
    ensures ParseFields("\"" + Escape(key) + "\":" + value) == None
  {
    var t := "\"" + Escape(key) + "\":" + value;
    NothingToSkip(t);
    assert t[1..] == Escape(key) + "\"" + (":" + value);
    StringRoundTrip(key, ":" + value);
    NothingToSkip(":" + value);
    assert (":" + value)[1..] == value;
    assert ParseField(t) == None;
  }

  /** An object whose fields cannot be read is unreadable. */
  lemma {:induction false} ObjectUnreadable(body: string)
    requires body != [] && body[0] == '"' && ParseFields(body) == None
    ensures Parse("{" + body) == None
  {
    assert ("{" + body)[1..] == body;
    NothingToSkip(body);
  }

  /** Parsing what was encoded gives back the value and leaves the text after it. */
  lemma {:induction false} ValueRoundTrip(v: Value, rest: string)
    ensures ParseValue(Encode(v) + rest) == Some((v, rest))
    decreases v, 1
  {
    match v
    case Str(s) =>
      var t := Encode(v) + rest;
      assert t[1..] == Escape(s) + "\"" + rest;
      StringRoundTrip(s, rest);
    case Arr(items) =>
      ArrRoundTrip(items, rest);
    case Obj(fields) =>
      ObjRoundTrip(fields, rest);
  }

  lemma {:induction false} ArrRoundTrip(items: seq<Value>, rest: string)
    ensures ParseValue(Encode(Arr(items)) + rest) == Some((Arr(items), rest))
    decreases items, 3
  {
    var t := Encode(Arr(items)) + rest;
    if items == [] {
      assert Encode(Arr(items)) == "[]";
      assert t[2..] == rest;
    } else {
      assert t[1..] == EncodeItems(items) + "]" + rest;
      ItemsRoundTrip(items, rest);
    }
  }

  lemma {:induction false} ObjRoundTrip(fields: seq<Field>, rest: string)
    ensures ParseValue(Encode(Obj(fields)) + rest) == Some((Obj(fields), rest))
    decreases fields, 3
  {
    var t := Encode(Obj(fields)) + rest;
    if fields == [] {
      assert Encode(Obj(fields)) == "{}";
      assert t[2..] == rest;
    } else {
      assert t[1..] == EncodeFields(fields) + "}" + rest;
      FieldsRoundTrip(fields, rest);
    }
  }

  lemma {:induction false} ItemsRoundTrip(items: seq<Value>, rest: string)
    requires items != []
    ensures ParseItems(EncodeItems(items) + "]" + rest) == Some((items, rest))
    decreases items, 2
  {
    if |items| == 1 {
      LastItemRoundTrip(items, rest);
    } else {
      MoreItemsRoundTrip(items, rest);
    }
  }

  lemma {:induction false} LastItemRoundTrip(items: seq<Value>, rest: string)
    requires |items| == 1
    ensures ParseItems(EncodeItems(items) + "]" + rest) == Some((items, rest))
    decreases items, 1
  {
    var t := EncodeItems(items) + "]" + rest;
    var after := "]" + rest;
    assert t == Encode(items[0]) + after;
    ValueRoundTrip(items[0], after);
    assert after[0] == ']' && after[1..] == rest;
    NothingToSkip(after);
    assert [items[0]] == items;
  }

  lemma {:induction false} MoreItemsRoundTrip(items: seq<Value>, rest: string)
    requires |items| > 1
    ensures ParseItems(EncodeItems(items) + "]" + rest) == Some((items, rest))
    decreases items, 1
  {
    var t := EncodeItems(items) + "]" + rest;
    var after := "," + (EncodeItems(items[1..]) + "]" + rest);
    assert t == Encode(items[0]) + after;
    ValueRoundTrip(items[0], after);
    assert after[0] == ',';
    NothingToSkip(after);
    assert after[1..] == EncodeItems(items[1..]) + "]" + rest;
    ItemsRoundTrip(items[1..], rest);
    assert [items[0]] + items[1..] == items;
  }

  lemma {:induction false} FieldRoundTrip(f: Field, after: string)
    ensures ParseField(EncodeField(f) + after) == Some((f, after))
    decreases f, 1
  {
    assert EncodeField(f) + after == "" + ("\"" + (Escape(f.key) + ("\"" + ("" + (":" + ("" + (Encode(f.val) + after)))))));
    SpacedFieldRoundTrip(f, "", "", "", after);
  }

  lemma {:induction false} FieldsRoundTrip(fields: seq<Field>, rest: string)
    requires fields != []
    ensures ParseFields(EncodeFields(fields) + "}" + rest) == Some((fields, rest))
    decreases fields, 2
  {
    if |fields| == 1 {
      LastFieldRoundTrip(fields, rest);
    } else {
      MoreFieldsRoundTrip(fields, rest);
    }
  }

  lemma {:induction false} LastFieldRoundTrip(fields: seq<Field>, rest: string)
    requires |fields| == 1
    ensures ParseFields(EncodeFields(fields) + "}" + rest) == Some((fields, rest))
    decreases fields, 1
  {
    var t := EncodeFields(fields) + "}" + rest;
    var after := "}" + rest;
    assert t == EncodeField(fields[0]) + after;
    FieldRoundTrip(fields[0], after);
    assert after[0] == '}' && after[1..] == rest;
    NothingToSkip(after);
    assert [fields[0]] == fields;
  }

  lemma {:induction false} MoreFieldsRoundTrip(fields: seq<Field>, rest: string)
    requires |fields| > 1
    ensures ParseFields(EncodeFields(fields) + "}" + rest) == Some((fields, rest))
    decreases fields, 1
  {
    var t := EncodeFields(fields) + "}" + rest;
    var after := "," + (EncodeFields(fields[1..]) + "}" + rest);
    assert t == EncodeField(fields[0]) + after;
    FieldRoundTrip(fields[0], after);
    assert after[0] == ',';
    NothingToSkip(after);
    assert after[1..] == EncodeFields(fields[1..]) + "}" + rest;
    FieldsRoundTrip(fields[1..], rest);
    assert [fields[0]] + fields[1..] == fields;
  }

  /** `JSON.parse(JSON.stringify(v))` gives `v` back. */
  lemma {:induction false} ParseEncode(v: Value)
    ensures Parse(Encode(v)) == Some(v)
  {
    ValueRoundTrip(v, "");
    assert Encode(v) + "" == Encode(v);
  }
  /** Leading whitespace changes neither the value read nor what is skipped. */
  lemma {:induction false} SkipLeading(w: string, t: string)
    requires AllWs(w)
    ensures ParseValue(w + t) == ParseValue(t)
    ensures SkipWs(w + t) == SkipWs(t)
  {
    if w == [] {
      assert w + t == t;
    } else {
      assert (w + t)[0] == w[0];
      assert (w + t)[1..] == w[1..] + t;
      SkipLeading(w[1..], t);
    }
  }

  /** `JSON.parse` reads an encoded value back with any whitespace before and after it. */
  lemma {:induction false} ParseSpaced(v: Value, before: string, after: string)
    requires AllWs(before) && AllWs(after)
    ensures Parse(before + Encode(v) + after) == Some(v)
  {
    assert before + Encode(v) + after == before + (Encode(v) + after);
    SkipLeading(before, Encode(v) + after);
    ValueRoundTrip(v, after);
    SkipLeading(after, []);
    assert after + [] == after;
  }

  /** Whitespace up to a token is skipped exactly. */
  lemma {:induction false} SkipToToken(w: string, t: string)
    requires AllWs(w) && t != [] && !IsWs(t[0])
    ensures SkipWs(w + t) == t
  {
    SkipLeading(w, t);
    NothingToSkip(t);
  }

  /** An encoded value reads back after whitespace. */
  lemma {:induction false} ValueAfterWs(v: Value, w: string, after: string)
    requires AllWs(w)
    ensures ParseValue(w + (Encode(v) + after)) == Some((v, after))
    decreases v, 2
  {
    SkipLeading(w, Encode(v) + after);
    ValueRoundTrip(v, after);
  }

  /** A quoted key reads back up to its closing quote. */
  lemma {:induction false} KeyRoundTrip(key: string, after: string)
    ensures var t := "\"" + (Escape(key) + ("\"" + after));
            t[0] == '"' && ParseStringBody(t[1..]) == Some((key, after))
  {
    var t := "\"" + (Escape(key) + ("\"" + after));
    assert t[1..] == Escape(key) + "\"" + after;
    StringRoundTrip(key, after);
  }

  /** A field reads back with whitespace before its key, around its colon and after its
      value. */
  lemma {:induction false} SpacedFieldRoundTrip(f: Field, w1: string, w2: string, w3: string, after: string)
    requires AllWs(w1) && AllWs(w2) && AllWs(w3)
    ensures ParseField(w1 + ("\"" + (Escape(f.key) + ("\"" + (w2 + (":" + (w3 + (Encode(f.val) + after))))))))
            == Some((f, after))
    decreases f, 0
  {
    var colon := ":" + (w3 + (Encode(f.val) + after));
    var start := "\"" + (Escape(f.key) + ("\"" + (w2 + colon)));
    SkipToToken(w1, start);
    KeyRoundTrip(f.key, w2 + colon);
    SkipToToken(w2, colon);
    assert colon[1..] == w3 + (Encode(f.val) + after);
    ValueAfterWs(f.val, w3, after);
  }

  /** The fields of a one-field object, closed by its brace after whitespace. */
  lemma {:induction false} SpacedLastField(f: Field, w1: string, w2: string, w3: string, w4: string,
                                           rest: string)
    requires AllWs(w1) && AllWs(w2) && AllWs(w3) && AllWs(w4)
    ensures ParseFields(w1 + ("\"" + (Escape(f.key) + ("\"" + (w2 + (":" + (w3 + (Encode(f.val)
                          + (w4 + ("}" + rest))))))))))
            == Some(([f], rest))
  {
    var close := "}" + rest;
    SpacedFieldRoundTrip(f, w1, w2, w3, w4 + close);
    SkipToToken(w4, close);
    assert close[1..] == rest;
  }

  /** An object of one field reads back with whitespace between every two of its tokens,
      as in the hand-edited document `{ "prompt" : "" }`. */
  lemma {:induction false} SpacedObjectRoundTrip(f: Field, w1: string, w2: string, w3: string, w4: string,
                                                 rest: string)
    requires AllWs(w1) && AllWs(w2) && AllWs(w3) && AllWs(w4)
    ensures ParseValue("{" + (w1 + ("\"" + (Escape(f.key) + ("\"" + (w2 + (":" + (w3 + (Encode(f.val)
                         + (w4 + ("}" + rest)))))))))))
            == Some((Obj([f]), rest))
  {
    var field := "\"" + (Escape(f.key) + ("\"" + (w2 + (":" + (w3 + (Encode(f.val) + (w4 + ("}" + rest))))))));
    SkipToToken(w1, field);
    SpacedLastField(f, w1, w2, w3, w4, rest);
    ObjectAfterBrace(w1 + field, [f], rest);
  }

  /** A brace followed by fields that do not start with the closing brace is an object. */
  lemma {:induction false} ObjectAfterBrace(inside: string, fields: seq<Field>, rest: string)
    requires SkipWs(inside) != [] && SkipWs(inside)[0] != '}'
    requires ParseFields(inside) == Some((fields, rest))
    ensures ParseValue("{" + inside) == Some((Obj(fields), rest))
  {
    assert ("{" + inside)[0] == '{' && ("{" + inside)[1..] == inside;
  }
}
