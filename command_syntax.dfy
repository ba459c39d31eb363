/** The text forms the command interpreters share: a command line `/verb args`, the
    session names `/save` and `/load` accept, the numbered listing `printArray` writes,
    and the shortened message text of `/debug`. */
module CommandSyntax {
  import opened Wrappers
  import opened Text
  import opened NumberText

  datatype Command = Command(verb: string, args: string)

  predicate AllLetters(s: string) { forall k :: 0 <= k < |s| ==> IsLetter(s[k]) }
  predicate NoLineTerminator(s: string) { forall k :: 0 <= k < |s| ==> !IsLineTerminator(s[k]) }

  /** The end of the run of letters that starts at `i`. */
  function LettersEnd(s: string, i: nat): (j: nat)
    requires i <= |s|
    ensures i <= j <= |s| && AllLetters(s[i..j])
    ensures j < |s| ==> !IsLetter(s[j])
    decreases |s| - i
  {
    if i < |s| && IsLetter(s[i]) then LettersEnd(s, i + 1) else i
  }

  /** The end of the run of spaces that starts at `i`. */
  function SpacesEnd(s: string, i: nat): (j: nat)
    requires i <= |s|
    ensures i <= j <= |s| && (forall k :: i <= k < j ==> s[k] == ' ')
    ensures j < |s| ==> s[j] != ' '
    decreases |s| - i
  {
    if i < |s| && s[i] == ' ' then SpacesEnd(s, i + 1) else i
  }

  /** The end of the line that starts at `i`: the first line terminator, or the end. */
  function LineEnd(s: string, i: nat): (j: nat)
    requires i <= |s|
    ensures i <= j <= |s| && NoLineTerminator(s[i..j])
    ensures j < |s| ==> IsLineTerminator(s[j])
    decreases |s| - i
  {
    if i < |s| && !IsLineTerminator(s[i]) then LineEnd(s, i + 1) else i
  }

  /** `input.match(/^\/([a-zA-Z]+) *(.*)/)`: a slash, the verb (the longest run of
      letters), any spaces, and the rest of the first line as the arguments. None when
      the input does not start with a slash and a letter. */
  function ParseCommand(input: string): (r: Option<Command>)
    ensures r.Some? <==> |input| >= 2 && input[0] == '/' && IsLetter(input[1])
    ensures r.Some? ==> (r.value.verb != [] && AllLetters(r.value.verb)
                         && 1 + |r.value.verb| <= |input| && input[..1 + |r.value.verb|] == "/" + r.value.verb)
    ensures r.Some? ==> NoLineTerminator(r.value.args) && (r.value.args == [] || r.value.args[0] != ' ')
  {
    if |input| >= 2 && input[0] == '/' && IsLetter(input[1]) then
      var v := LettersEnd(input, 1);
      var a := SpacesEnd(input, v);
      var e := LineEnd(input, a);
      Some(Command(input[1..v], input[a..e]))
    else None
  }

  function Spaces(n: nat): (s: string)
    ensures |s| == n && forall k :: 0 <= k < n ==> s[k] == ' '
  {
    if n == 0 then [] else Spaces(n - 1) + [' ']
  }

  /** A command line written as a slash, a verb, spaces and one line of arguments parses
      back to that verb and those arguments, whatever follows the line. A verb and its
      arguments need a space between them when the arguments start with a letter. */
  lemma {:induction false} ParseCommandLine(verb: string, n: nat, args: string, tail: string)
    requires verb != [] && AllLetters(verb)
    requires NoLineTerminator(args) && (args == [] || args[0] != ' ')
    requires n == 0 ==> args == [] || !IsLetter(args[0])
    requires tail == [] || IsLineTerminator(tail[0])
    ensures ParseCommand("/" + verb + Spaces(n) + args + tail) == Some(Command(verb, args))
  {
    var input := "/" + verb + Spaces(n) + args + tail;
    var v := 1 + |verb|;
    var a := v + n;
    var e := a + |args|;
    assert input[1..v] == verb && input[v..a] == Spaces(n) && input[a..e] == args;
    LettersEndAt(input, 1, v);
    SpacesEndAt(input, v, a);
    LineEndAt(input, a, e);
  }

  lemma {:induction false} LettersEndAt(s: string, i: nat, j: nat)
    requires i <= j <= |s| && AllLetters(s[i..j]) && (j < |s| ==> !IsLetter(s[j]))
    ensures LettersEnd(s, i) == j
    decreases j - i
  {
    if i < j {
      assert IsLetter(s[i..j][0]);
      assert s[i + 1..j] == s[i..j][1..];
      LettersEndAt(s, i + 1, j);
    }
  }

  lemma {:induction false} SpacesEndAt(s: string, i: nat, j: nat)
    requires i <= j <= |s| && (forall k :: i <= k < j ==> s[k] == ' ') && (j < |s| ==> s[j] != ' ')
    ensures SpacesEnd(s, i) == j
    decreases j - i
  {
    if i < j {
      SpacesEndAt(s, i + 1, j);
    }
  }

  lemma {:induction false} LineEndAt(s: string, i: nat, j: nat)
    requires i <= j <= |s| && NoLineTerminator(s[i..j]) && (j < |s| ==> IsLineTerminator(s[j]))
    ensures LineEnd(s, i) == j
    decreases j - i
  {
    if i < j {
      assert !IsLineTerminator(s[i..j][0]);
      assert s[i + 1..j] == s[i..j][1..];
      LineEndAt(s, i + 1, j);
    }
  }

  /** `cmd/index.ts` keys its handler table by the slash and the verb together. */
  function HandlerKey(c: Command): string { "/" + c.verb }

  const DefaultSession := "last_session"

  predicate IsSessionNameChar(c: char) { IsAlnum(c) || c == ' ' }

  /** The name `/save` stores under: "last_session" for no argument, otherwise the
      argument when it matches `/^[0-9a-zA-Z ]+$/`; "Invalid file name" otherwise. */
  function SaveName(args: string): (r: Result<string>)
    ensures r.Err? ==> r.error == "Invalid file name"
  {
    if args == "" then Ok(DefaultSession)
    else if forall k :: 0 <= k < |args| ==> IsSessionNameChar(args[k]) then Ok(args)
    else Err("Invalid file name")
  }

  /** The name `/load` reads: "last_session" for no argument, otherwise the argument
      when it matches `/^([0-9a-zA-Z]+$)/`. None is the interpreter's own error. */
  function LoadName(args: string): (r: Option<string>)
  {
    if args == "" then Some(DefaultSession)
    else if forall k :: 0 <= k < |args| ==> IsAlnum(args[k]) then Some(args)
    else None
  }

  /** Every name `/load` accepts, `/save` accepts too and stores under the same name, so
      a session saved with an argument `/load` accepts is read back from where it was
      written. */
  lemma {:induction false} LoadNameSaved(args: string)
    requires LoadName(args).Some?
    ensures SaveName(args) == Ok(LoadName(args).value)
  {
  }

  /** A name with a space is saved but cannot be loaded back. */
  lemma {:induction false} SpacedNameNotLoadable(args: string)
    requires SaveName(args).Ok? && ' ' in args
    ensures SaveName(args) == Ok(args) && LoadName(args).None?
  {
  }

  /** Both names are the argument itself or the default, and never empty. */
  lemma {:induction false} SessionNamesNonEmpty(args: string)
    ensures SaveName(args).Ok? ==> SaveName(args).value != [] && (SaveName(args).value == args || args == [])
    ensures LoadName(args).Some? ==> LoadName(args).value != [] && (LoadName(args).value == args || args == [])
  {
  }

  /** The file a session name is kept in: `<folder>/<name>.json`. */
  function SessionPath(folder: string, name: string): string {
    PathJoin(folder, name + ".json")
  }

  /** Different names give different files in the same folder. */
  lemma {:induction false} SessionPathInjective(folder: string, a: string, b: string)
    requires SessionPath(folder, a) == SessionPath(folder, b)
    ensures a == b
  {
    var p := SessionPath(folder, a);
    assert p == folder + "/" + a + ".json";
    assert |a| == |b|;
    assert a == p[|folder| + 1..|folder| + 1 + |a|];
  }

  /** One line of `printArray`: the offset, a full stop, a space and the item. */
  function NumberedLine(i: nat, item: string): string {
    NatToString(i) + ". " + item + "\n"
  }

  /** The lines of `printArray` for `items`, numbered from 0. */
  function NumberedLines(items: seq<string>): seq<string> {
    seq(|items|, i requires 0 <= i < |items| => NumberedLine(i, items[i]))
  }

  /** The text `printArray` builds: one numbered line per item, from 0. */
  function Listing(items: seq<string>): string {
    Concat(NumberedLines(items))
  }

  lemma {:induction false} NumberedLinesSnoc(items: seq<string>, x: string)
    ensures NumberedLines(items + [x]) == NumberedLines(items) + [NumberedLine(|items|, x)]
  {
    var a, b := NumberedLines(items + [x]), NumberedLines(items) + [NumberedLine(|items|, x)];
    forall i | 0 <= i < |a|
      ensures a[i] == b[i]
    {
      assert (items + [x])[i] == if i < |items| then items[i] else x;
    }
  }

  /** `printArray(arr)`: appends `${i}. ${arr[i]}\n` for each item in turn. */
  method PrintArray(items: seq<string>) returns (rtn: string)
    ensures rtn == Listing(items)
  {
    rtn := "";
    for i := 0 to |items|
      invariant rtn == Listing(items[..i])
    {
      assert items[..i + 1] == items[..i] + [items[i]];
      NumberedLinesSnoc(items[..i], items[i]);
      ConcatAppend(NumberedLines(items[..i]), [NumberedLine(i, items[i])]);
      rtn := rtn + NumberedLine(i, items[i]);
    }
    assert items[..|items|] == items;
  }

  /** Listing more items appends their lines after the earlier ones, each numbered by its
      own offset. */
  lemma {:induction false} ListingAppend(items: seq<string>, x: string)
    ensures Listing(items + [x]) == Listing(items) + NatToString(|items|) + ". " + x + "\n"
  {
    var line := NumberedLine(|items|, x);
    NumberedLinesSnoc(items, x);
    ConcatAppend(NumberedLines(items), [line]);
    assert Concat([line]) == line + Concat([]);
  }

  /** The message text `/debug` shows: the first 100 characters and "..." when the text
      has 100 characters or more. */
  function Preview(content: string): (r: string)
    ensures |content| < 100 ==> r == content
    ensures |content| >= 100 ==> |r| == 103 && r[..100] == content[..100] && r[100..] == "..."
  {
    if |content| >= 100 then content[..100] + "..." else content
  }
}
