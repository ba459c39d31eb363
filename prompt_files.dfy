/** The prompt and model lists of `/prompts` and `/model`: which folder entries are
    prompts, their names, the order `Array.prototype.sort` gives them, and the choice of
    an entry by offset or by name. */
module PromptFiles {
  import opened Wrappers
  import opened Text
  import opened NumberText

  /** `/^(?!.*\.dist\.txt$).*\.(\*\.txt|txt)$/`: a one-line name ending in ".txt" that does
      not end in ".dist.txt". */
  predicate IsPromptFile(f: string) {
    EndsWith(f, ".txt") && !EndsWith(f, ".dist.txt")
    && forall k :: 0 <= k < |f| ==> !IsLineTerminator(f[k])
  }

  /** `file.slice(0, -4)`: all but the last four characters; for a prompt file, the name
      without its extension. */
  function PromptName(f: string): string {
    if |f| >= 4 then f[..|f| - 4] else ""
  }

  /** The name of a prompt file is the file without its extension. */
  lemma {:induction false} PromptFileName(f: string)
    requires IsPromptFile(f)
    ensures PromptName(f) + ".txt" == f
  {
  }

  /** The prompt files among the entries, in their order. */
  function PromptFilesOf(entries: seq<string>): (r: seq<string>)
    ensures |r| <= |entries|
    ensures forall i :: 0 <= i < |r| ==> IsPromptFile(r[i])
    ensures forall f :: f in r <==> f in entries && IsPromptFile(f)
  {
    if entries == [] then []
    else (if IsPromptFile(entries[0]) then [entries[0]] else []) + PromptFilesOf(entries[1..])
  }

  /** `xs.map(f)`. */
  function Map<T, U>(f: T -> U, xs: seq<T>): (r: seq<U>)
    ensures |r| == |xs|
    ensures forall i :: 0 <= i < |xs| ==> r[i] == f(xs[i])
  {
    if xs == [] then [] else [f(xs[0])] + Map(f, xs[1..])
  }

  /** Mapping a concatenation maps each part. */
  lemma {:induction false} MapAppend<T, U>(f: T -> U, a: seq<T>, b: seq<T>)
    ensures Map(f, a + b) == Map(f, a) + Map(f, b)
  {
    var l, r := Map(f, a + b), Map(f, a) + Map(f, b);
    forall i | 0 <= i < |l|
      ensures l[i] == r[i]
    {
      assert (a + b)[i] == if i < |a| then a[i] else b[i - |a|];
    }
  }

  /** The names of prompt files, in their order. */
  function Names(files: seq<string>): (r: seq<string>)
    ensures |r| == |files|
    ensures forall i :: 0 <= i < |files| ==> r[i] == PromptName(files[i])
  {
    Map(PromptName, files)
  }

  /** `ls(folder).filter(...).map(...)`: the prompt names in the folder's order. */
  function PromptNames(entries: seq<string>): seq<string> {
    Names(PromptFilesOf(entries))
  }

  /** `readdirSync(folder).filter(...).sort().map(...)`: the prompt names with their files
      in character order (`StrLe`). */
  function SortedPromptNames(entries: seq<string>): seq<string> {
    Names(Sort(PromptFilesOf(entries)))
  }

  /** A name is listed exactly when the folder holds the prompt file of that name. */
  lemma {:induction false} PromptNamesListed(entries: seq<string>, n: string)
    ensures n in PromptNames(entries) <==> n + ".txt" in entries && IsPromptFile(n + ".txt")
  {
    var fs := PromptFilesOf(entries);
    var ns := PromptNames(entries);
    if n in ns {
      var i :| 0 <= i < |ns| && ns[i] == n;
      PromptFileName(fs[i]);
      assert fs[i] == n + ".txt";
    }
    if n + ".txt" in entries && IsPromptFile(n + ".txt") {
      var i :| 0 <= i < |fs| && fs[i] == n + ".txt";
      PromptFileName(fs[i]);
      assert ns[i] + ".txt" == n + ".txt";
      assert ns[i] == (ns[i] + ".txt")[..|ns[i]|];
    }
  }

  /** Sorting lists the same names, each as often, in character order of their files. */
  lemma {:induction false} SortedPromptNamesPermutation(entries: seq<string>)
    ensures multiset(SortedPromptNames(entries)) == multiset(PromptNames(entries))
    ensures Sorted(Sort(PromptFilesOf(entries)))
  {
    var fs := PromptFilesOf(entries);
    NamesPermutation(Sort(fs), fs);
  }

  lemma {:induction false} NamesAppend(a: seq<string>, b: seq<string>)
    ensures Names(a + b) == Names(a) + Names(b)
  {
    MapAppend(PromptName, a, b);
  }

  /** Names of two orderings of the same files are the same names. */
  lemma {:induction false} NamesPermutation(p: seq<string>, q: seq<string>)
    requires multiset(p) == multiset(q)
    ensures multiset(Names(p)) == multiset(Names(q))
    decreases |p|
  {
    if p == [] {
      assert |q| == |multiset(q)| == 0;
    } else {
      var x := p[0];
      assert x in multiset(q);
      var j :| 0 <= j < |q| && q[j] == x;
      RemoveFirst(p, q, j);
      NamesPermutation(p[1..], q[..j] + q[j + 1..]);
      NamesRemove(q, j);
      assert Names(p) == [PromptName(x)] + Names(p[1..]);
    }
  }

  /** Dropping one file drops its name. */
  lemma {:induction false} NamesRemove(q: seq<string>, j: nat)
    requires j < |q|
    ensures multiset(Names(q)) == multiset(Names(q[..j] + q[j + 1..])) + multiset{PromptName(q[j])}
  {
    var a, b := q[..j], q[j + 1..];
    SplitAt(q, j);
    NamesAppend(a, [q[j]] + b);
    NamesAppend([q[j]], b);
    NamesAppend(a, b);
    var na, nb, n := Names(a), Names(b), PromptName(q[j]);
    assert Names([q[j]]) == [n];
    MultisetSplit(na, n, nb);
  }

  lemma {:induction false} HeadMultiset<T>(xs: seq<T>)
    requires xs != []
    ensures multiset(xs) == multiset{xs[0]} + multiset(xs[1..])
  {
    assert xs == [xs[0]] + xs[1..];
  }

  lemma {:induction false} MultisetSplit<T>(x: seq<T>, y: T, z: seq<T>)
    ensures multiset(x + ([y] + z)) == multiset(x + z) + multiset{y}
  {
  }

  lemma {:induction false} SplitAt<T>(q: seq<T>, j: nat)
    requires j < |q|
    ensures q == q[..j] + ([q[j]] + q[j + 1..])
  {
    assert q[j..] == [q[j]] + q[j + 1..];
    assert q == q[..j] + q[j..];
  }

  /** Taking the first element off one ordering and the same element off another leaves
      the same multiset. */
  lemma {:induction false} RemoveFirst<T>(p: seq<T>, q: seq<T>, j: nat)
    requires p != [] && j < |q| && q[j] == p[0] && multiset(p) == multiset(q)
    ensures multiset(p[1..]) == multiset(q[..j] + q[j + 1..])
  {
    var a, b := q[..j], q[j + 1..];
    assert p == [p[0]] + p[1..];
    assert q == a + [q[j]] + b;
    assert multiset(p) == multiset{p[0]} + multiset(p[1..]);
    assert multiset(q) == multiset(a) + multiset{p[0]} + multiset(b);
    assert multiset(a + b) == multiset(a) + multiset(b);
    forall e
      ensures multiset(p[1..])[e] == multiset(a + b)[e]
    {
      assert multiset(p)[e] == multiset(q)[e];
    }
  }

  /** The order `Array.prototype.sort` uses for strings, over characters: a proper prefix
      comes first, otherwise the first differing character decides. JavaScript compares
      UTF-16 code units, which is the same order for text within the Basic Multilingual
      Plane. */
  predicate StrLe(a: string, b: string) {
    if a == [] then true
    else if b == [] then false
    else if a[0] != b[0] then a[0] < b[0]
    else StrLe(a[1..], b[1..])
  }

  lemma {:induction false} StrLeTotal(a: string, b: string)
    ensures StrLe(a, b) || StrLe(b, a)
  {
    if a != [] && b != [] && a[0] == b[0] {
      StrLeTotal(a[1..], b[1..]);
    }
  }

  lemma {:induction false} StrLeTrans(a: string, b: string, c: string)
    requires StrLe(a, b) && StrLe(b, c)
    ensures StrLe(a, c)
  {
    if a != [] && b != [] && c != [] && a[0] == b[0] && b[0] == c[0] {
      StrLeTrans(a[1..], b[1..], c[1..]);
    }
  }

  lemma {:induction false} StrLeAntisym(a: string, b: string)
    requires StrLe(a, b) && StrLe(b, a)
    ensures a == b
  {
    if a != [] && b != [] {
      StrLeAntisym(a[1..], b[1..]);
      assert a == [a[0]] + a[1..] && b == [b[0]] + b[1..];
    }
  }

  predicate Sorted(xs: seq<string>) {
    forall i, j :: 0 <= i < j < |xs| ==> StrLe(xs[i], xs[j])
  }

  function Insert(x: string, xs: seq<string>): seq<string> {
    if xs == [] then [x]
    else if StrLe(x, xs[0]) then [x] + xs
    else [xs[0]] + Insert(x, xs[1..])
  }

  lemma {:induction false} InsertPermutation(x: string, xs: seq<string>)
    ensures multiset(Insert(x, xs)) == multiset(xs) + multiset{x}
  {
    if xs != [] && !StrLe(x, xs[0]) {
      InsertPermutation(x, xs[1..]);
      assert xs == [xs[0]] + xs[1..];
    }
  }

  lemma {:induction false} InsertSorted(x: string, xs: seq<string>)
    requires Sorted(xs)
    ensures Sorted(Insert(x, xs))
    ensures multiset(Insert(x, xs)) == multiset(xs) + multiset{x}
  {
    InsertPermutation(x, xs);
    if xs == [] {
    } else if StrLe(x, xs[0]) {
      forall j | 0 <= j < |xs|
        ensures StrLe(x, xs[j])
      {
        if j > 0 {
          StrLeTrans(x, xs[0], xs[j]);
        }
      }
    } else {
      var rest := Insert(x, xs[1..]);
      InsertSorted(x, xs[1..]);
      StrLeTotal(x, xs[0]);
      forall j | 0 <= j < |rest|
        ensures StrLe(xs[0], rest[j])
      {
        assert rest[j] in multiset(rest);
        if rest[j] != x {
          assert rest[j] in multiset(xs[1..]);
          var k :| 0 <= k < |xs[1..]| && xs[1..][k] == rest[j];
          assert StrLe(xs[0], xs[k + 1]);
        }
      }
    }
  }

  /** `Array.prototype.sort()` on strings: the same strings, each as often, in the order
      `StrLe`. */
  function Sort(xs: seq<string>): (r: seq<string>)
    ensures Sorted(r) && multiset(r) == multiset(xs)
  {
    if xs == [] then []
    else
      var rest := Sort(xs[1..]);
      InsertSorted(xs[0], rest);
      HeadMultiset(xs);
      Insert(xs[0], rest)
  }

  /** Sorting is determined by the strings alone: two orderings of the same strings sort
      to the same list. */
  lemma {:induction false} SortUnique(a: seq<string>, b: seq<string>)
    requires Sorted(a) && Sorted(b) && multiset(a) == multiset(b)
    ensures a == b
    decreases |a|
  {
    if a != [] {
      assert |b| == |multiset(b)| == |multiset(a)| == |a|;
      MinimumFirst(a, b);
      MinimumFirst(b, a);
      StrLeAntisym(a[0], b[0]);
      RemoveFirst(a, b, 0);
      assert b[..0] + b[1..] == b[1..];
      SortedTail(a);
      SortedTail(b);
      assert a == [a[0]] + a[1..] && b == [b[0]] + b[1..];
      SortUnique(a[1..], b[1..]);
    }
  }

  lemma {:induction false} SortedTail(a: seq<string>)
    requires Sorted(a) && a != []
    ensures Sorted(a[1..])
  {
    forall i, j | 0 <= i < j < |a| - 1
      ensures StrLe(a[1..][i], a[1..][j])
    {
      assert a[1..][i] == a[i + 1] && a[1..][j] == a[j + 1];
    }
  }

  /** The first of a sorted list is at most every string of any ordering of it. */
  lemma {:induction false} MinimumFirst(a: seq<string>, b: seq<string>)
    requires Sorted(a) && a != [] && b != [] && multiset(a) == multiset(b)
    ensures StrLe(a[0], b[0])
  {
    assert b[0] in multiset(a);
    var k :| 0 <= k < |a| && a[k] == b[0];
    if k == 0 {
      StrLeRefl(a[0]);
    }
  }

  lemma {:induction false} StrLeRefl(a: string)
    ensures StrLe(a, a)
  {
    if a != [] {
      StrLeRefl(a[1..]);
    }
  }

  /** The entry a 0-based `offset` picks: `list[offset]`, refused (`!fileName`) when past
      the end or empty. */
  function AtOffset(list: seq<string>, offset: int): (r: Option<string>)
    ensures r.Some? ==> r.value in list && r.value != ""
  {
    if 0 <= offset < |list| && list[offset] != "" then Some(list[offset]) else None
  }

  /** The prompt `/prompts <args>` chooses from `names`: by the number `args` ends with
      (counted from 0, or from 1 when `oneBased`), otherwise by name. */
  function ChoosePrompt(names: seq<string>, args: string, oneBased: bool): (r: Result<string>)
    ensures r.Ok? ==> r.value in names
    ensures r.Ok? && TrailingNumber(args).Some? ==> r.value != ""
    ensures r.Ok? && TrailingNumber(args).None? ==> r.value == args
    ensures r.Err? ==> r.error == (if TrailingNumber(args).Some? then "Invalid prompt offset" else "Invalid prompt name")
  {
    match TrailingNumber(args)
    case Some(n) =>
      (match AtOffset(names, if oneBased then n - 1 else n)
       case Some(f) => Ok(f)
       case None => Err("Invalid prompt offset"))
    case None =>
      if args in names then Ok(args) else Err("Invalid prompt name")
  }

  /** Every listed non-empty name is chosen by its offset, after any text that does not
      end in a digit. */
  lemma {:induction false} ChoosePromptByOffset(names: seq<string>, i: nat, prefix: string, oneBased: bool)
    requires i < |names| && names[i] != ""
    requires prefix == [] || !IsDigit(prefix[|prefix| - 1])
    ensures ChoosePrompt(names, prefix + NatToString(if oneBased then i + 1 else i), oneBased) == Ok(names[i])
  {
    var n := if oneBased then i + 1 else i;
    TrailingNumberOf(prefix, n);
    ChoosePromptAt(names, prefix + NatToString(n), n, oneBased);
  }

  lemma {:induction false} ChoosePromptAt(names: seq<string>, args: string, n: nat, oneBased: bool)
    requires TrailingNumber(args) == Some(n)
    requires var i := if oneBased then n - 1 else n; 0 <= i < |names| && names[i] != ""
    ensures ChoosePrompt(names, args, oneBased) == Ok(names[if oneBased then n - 1 else n])
  {
  }

  /** Every listed name that does not end in a digit is chosen by itself. */
  lemma {:induction false} ChoosePromptByName(names: seq<string>, n: string, oneBased: bool)
    requires n in names && (n == [] || !IsDigit(n[|n| - 1]))
    ensures ChoosePrompt(names, n, oneBased) == Ok(n)
  {
  }

  /** With 1-based offsets, offset 0 picks nothing. */
  lemma {:induction false} ChoosePromptZero(names: seq<string>)
    ensures ChoosePrompt(names, "0", true) == Err("Invalid prompt offset")
  {
    assert TrailingNumber("0") == Some(0) by {
      TrailingNumberOf("", 0);
      assert "" + NatToString(0) == "0";
    }
  }

  /** The model `/model <args>` selects from `models`: by the number `args` ends with
      (from 0), otherwise by name; None for "Invalid models selected". */
  function ChooseModel(models: seq<string>, args: string): (r: Option<string>)
    ensures r.Some? ==> r.value in models && r.value != ""
    ensures r.Some? && TrailingNumber(args).None? ==> r.value == args
  {
    var selected := match TrailingNumber(args)
      case Some(n) => if n < |models| then models[n] else ""
      case None => args;
    if selected == "" || selected !in models then None else Some(selected)
  }

  /** A model is selected by its offset. */
  lemma {:induction false} ChooseModelByOffset(models: seq<string>, i: nat, prefix: string)
    requires i < |models| && models[i] != ""
    requires prefix == [] || !IsDigit(prefix[|prefix| - 1])
    ensures ChooseModel(models, prefix + NatToString(i)) == Some(models[i])
  {
    TrailingNumberOf(prefix, i);
    ChooseModelAt(models, prefix + NatToString(i), i);
  }

  lemma {:induction false} ChooseModelAt(models: seq<string>, args: string, i: nat)
    requires TrailingNumber(args) == Some(i) && i < |models| && models[i] != ""
    ensures ChooseModel(models, args) == Some(models[i])
  {
    assert models[i] in models;
  }

  /** A model whose name ends in a digit is never selected by its name: the digits are
      read as an offset. With the single model "llama3", "llama3" asks for offset 3. */
  lemma {:induction false} ModelNameEndingInDigit(models: seq<string>, name: string)
    requires models == [name] && name == "llama3"
    ensures ChooseModel(models, name) == None
  {
    assert TrailingNumber(name) == Some(3) by {
      TrailingNumberOf("llama", 3);
      assert "llama" + NatToString(3) == name;
    }
  }
}
