/** The Telegram client: an outbound text is trimmed and cut into chunks no longer than
    the configured limit, preferably at a space or line break, and the chunks are posted
    to the Bot API one after the other. */
module TelegramClient {
  import opened Wrappers
  import opened Text
  import Effects

  datatype BotEnv = BotEnv(namespace: string, token: string, provider: string, promptsFolder: string)

  /** The client's configuration: the parsed `TELEGRAM_MAX_TEXT_LENGTH` (None when it is
      not a number) and the configured bots. */
  datatype TelegramEnv = TelegramEnv(maxTextLength: Option<int>, bots: seq<BotEnv>)

  datatype SendMessageRequest = SendMessageRequest(chatId: int, text: string, namespace: string)

  const FallbackLength := 4000

  /** The characters a chunk is preferably cut at. */
  const Breaks := [' ', '\n', '\r']

  predicate IsBreak(c: char) { c == ' ' || c == '\n' || c == '\r' }

  /** The limit as the source computes it: `TELEGRAM_MAX_TEXT_LENGTH || 4000` replaces only
      0 and NaN. */
  function ChunkSizeAsWritten(configured: Option<int>): int {
    if configured.None? || configured.value == 0 then FallbackLength else configured.value
  }

  /** The limit the chunker is meant to use: any limit that is not positive falls back to
      4000, and a positive one is kept. */
  function ChunkSize(configured: Option<int>): (size: int)
    ensures size >= 1
    ensures configured.Some? && configured.value >= 1 ==> size == configured.value
    ensures configured.Some? && configured.value >= 1 ==> size == ChunkSizeAsWritten(configured)
  {
    if configured.None? || configured.value <= 0 then FallbackLength else configured.value
  }

  function ClampIndex(from: int, len: nat): int
    requires len > 0
  {
    if from < 0 then 0 else if from >= len then len - 1 else from
  }

  /** The last index at or before `i` holding `c`, or -1. */
  function LastAtOrBefore(t: string, c: char, i: int): (r: int)
    requires -1 <= i < |t|
    ensures -1 <= r <= i
    ensures r >= 0 ==> t[r] == c
    ensures forall j :: r < j <= i ==> t[j] != c
    decreases i + 1
  {
    if i < 0 then -1 else if t[i] == c then i else LastAtOrBefore(t, c, i - 1)
  }

  /** `t.lastIndexOf(c, from)`: the search starts at `from`, clamped into the string, and
      goes backwards. */
  function LastIndexOf(t: string, c: char, from: int): (r: int)
    ensures -1 <= r < |t|
    ensures r >= 0 ==> t[r] == c && r <= (if from < 0 then 0 else from)
    ensures forall j :: r < j < |t| && j <= from ==> t[j] != c
    ensures r == -1 && t != [] && from < 0 ==> t[0] != c
  {
    if t == [] then -1 else LastAtOrBefore(t, c, ClampIndex(from, |t|))
  }

  /** The largest of `t.lastIndexOf(n, end)` over the needles, or -1: the last position
      up to the search start that holds any of the needles. */
  function LastIndexOfAnySpec(needles: seq<char>, t: string, end: int): (r: int)
    ensures -1 <= r < |t|
    ensures r >= 0 ==> t[r] in needles && r <= (if end < 0 then 0 else end)
    ensures forall j :: r < j < |t| && j <= end ==> t[j] !in needles
    ensures r == -1 && t != [] && end < 0 ==> t[0] !in needles
  {
    if needles == [] then -1
    else
      var rest := LastIndexOfAnySpec(needles[..|needles| - 1], t, end);
      var here := LastIndexOf(t, needles[|needles| - 1], end);
      if here > rest then here else rest
  }

  /** `lastIndexOfAny(needles, arr, end)`: keeps the largest index found so far. */
  method LastIndexOfAny(needles: seq<char>, arr: string, end: int) returns (last: int)
    ensures last == LastIndexOfAnySpec(needles, arr, end)
  {
    last := -1;
    for i := 0 to |needles|
      invariant last == LastIndexOfAnySpec(needles[..i], arr, end)
    {
      var index := LastIndexOf(arr, needles[i], end);
      assert needles[..i + 1][..i] == needles[..i];
      if index > last {
        last := index;
      }
    }
    assert needles[..|needles|] == needles;
  }

  /** Where a remainder longer than `size` is cut: at the last break at or before `size`,
      or exactly at `size` when there is none. Since the remainder never starts with
      whitespace, the cut is never at 0. */
  function CutIndex(t: string, size: int): (cut: int)
    requires 1 <= size < |t| && IsTrimmed(t)
    ensures 1 <= cut <= size
    ensures cut < size ==> IsBreak(t[cut]) && forall j :: cut < j <= size ==> !IsBreak(t[j])
    ensures cut == size ==> IsBreak(t[size]) || forall j :: 0 <= j <= size ==> !IsBreak(t[j])
  {
    var space := LastIndexOfAnySpec(Breaks, t, size);
    assert forall j :: 0 <= j < |t| && IsBreak(t[j]) ==> t[j] == Breaks[0] || t[j] == Breaks[1] || t[j] == Breaks[2];
    if space == -1 then size else space
  }

  /** The chunks the loop produces from a trimmed remainder. */
  function ChunksFrom(t: string, size: int): seq<string>
    requires size >= 1 && IsTrimmed(t)
    decreases |t|
  {
    if |t| == 0 then []
    else if size >= |t| then [t]
    else
      var cut := CutIndex(t, size);
      [Trim(t[..cut])] + ChunksFrom(Trim(t[cut..]), size)
  }

  /** Every chunk is non-empty, at most `size` long and trimmed; there are chunks
      exactly when the remainder is not empty. */
  lemma {:induction false} ChunksFromBounded(t: string, size: int)
    requires size >= 1 && IsTrimmed(t)
    ensures t == [] <==> ChunksFrom(t, size) == []
    ensures forall c :: c in ChunksFrom(t, size) ==> 1 <= |c| <= size && IsTrimmed(c)
    decreases |t|
  {
    if |t| > 0 && size < |t| {
      var cut := CutIndex(t, size);
      TrimKeepsFirst(t[..cut]);
      ChunksFromBounded(Trim(t[cut..]), size);
    }
  }

  /** One round: the remainder is cut at `CutIndex`, the trimmed head is the next chunk
      and the trimmed tail, strictly shorter, is the new remainder. */
  lemma {:induction false} ChunksFromStep(t: string, size: int)
    requires 1 <= size < |t| && IsTrimmed(t)
    ensures var cut := CutIndex(t, size);
      |Trim(t[cut..])| < |t| && ChunksFrom(t, size) == [Trim(t[..cut])] + ChunksFrom(Trim(t[cut..]), size)
  {
  }

  lemma {:induction false} AppendChunk(done: seq<string>, chunk: string, rest: seq<string>)
    ensures done + ([chunk] + rest) == (done + [chunk]) + rest
  {
  }

  /** `textToChunk(text)` with the limit `size`. */
  function Chunks(text: string, size: int): seq<string>
    requires size >= 1
  {
    ChunksFrom(Trim(text), size)
  }

  /** Empty or all-whitespace text gives no chunks, any other text at least one. */
  lemma {:induction false} ChunksEmpty(text: string, size: int)
    requires size >= 1
    ensures Chunks(text, size) == [] <==> forall i :: 0 <= i < |text| ==> IsWs(text[i])
  {
    TrimEmpty(text);
    ChunksFromBounded(Trim(text), size);
  }

  lemma {:induction false} ChunksBounded(text: string, size: int)
    requires size >= 1
    ensures forall c :: c in Chunks(text, size) ==> 1 <= |c| <= size && IsTrimmed(c)
  {
    ChunksFromBounded(Trim(text), size);
  }

  /** Cutting loses only whitespace: the chunks, read in order, hold the same
      non-whitespace characters as the remainder. */
  lemma {:induction false} ChunksFromKeepText(t: string, size: int)
    requires size >= 1 && IsTrimmed(t)
    ensures RemoveWs(Concat(ChunksFrom(t, size))) == RemoveWs(t)
    decreases |t|
  {
    if |t| == 0 {
    } else if size >= |t| {
      assert ChunksFrom(t, size) == [t];
      assert [t][1..] == [];
      assert Concat([t]) == t + Concat([]);
      assert t + [] == t;
    } else {
      var cut := CutIndex(t, size);
      var rest := Trim(t[cut..]);
      var cs := ChunksFrom(t, size);
      assert cs == [Trim(t[..cut])] + ChunksFrom(rest, size);
      assert cs[1..] == ChunksFrom(rest, size);
      assert Concat(cs) == Trim(t[..cut]) + Concat(ChunksFrom(rest, size));
      RemoveWsAppend(Trim(t[..cut]), Concat(ChunksFrom(rest, size)));
      ChunksFromKeepText(rest, size);
      RemoveWsTrim(t[..cut]);
      RemoveWsTrim(t[cut..]);
      RemoveWsSplit(t, cut);
    }
  }

  lemma {:induction false} ChunksKeepText(text: string, size: int)
    requires size >= 1
    ensures RemoveWs(Concat(Chunks(text, size))) == RemoveWs(text)
  {
    ChunksFromKeepText(Trim(text), size);
    RemoveWsTrim(text);
  }

  /** The cut of one round: `lastIndexOfAny([' ', '\n', '\r'], trimmed, end)`, or `end`
      when no break is found. */
  method FindCut(trimmed: string, end: int) returns (space: int)
    requires 1 <= end < |trimmed| && IsTrimmed(trimmed)
    ensures space == CutIndex(trimmed, end)
  {
    space := LastIndexOfAny(Breaks, trimmed, end);
    if space == -1 {
      space := end;
    }
  }

  /** `textToChunk`: the remainder `trimmed` shrinks on every round, because it never
      starts with whitespace and so is never cut at 0. */
  method TextToChunk(text: string, size: int) returns (rtn: seq<string>)
    requires size >= 1
    ensures rtn == Chunks(text, size)
  {
    rtn := [];
    var trimmed := Trim(text);
    while |trimmed| > 0
      invariant IsTrimmed(trimmed)
      invariant rtn + ChunksFrom(trimmed, size) == Chunks(text, size)
      decreases |trimmed|
    {
      var end := size;
      if end >= |trimmed| {
        rtn := rtn + [trimmed];
        break;
      }
      var space := FindCut(trimmed, end);
      var chunk, next := Trim(trimmed[..space]), Trim(trimmed[space..]);
      ChunksFromStep(trimmed, size);
      AppendChunk(rtn, chunk, ChunksFrom(next, size));
      rtn := rtn + [chunk];
      trimmed := next;
    }
  }

  /** Trimming a single leading break (or none) off a trimmed rest gives the rest. */
  lemma {:induction false} TrimGap(gap: string, rest: string)
    requires |gap| <= 1 && (gap != [] ==> IsWs(gap[0])) && rest != [] && IsTrimmed(rest)
    ensures Trim(gap + rest) == rest
  {
    if gap == [] {
      assert gap + rest == rest;
      TrimTrimmed(rest);
    } else {
      var s := gap + rest;
      assert s[1..] == rest;
      assert TrimStart(rest) == rest;
      assert TrimStart(s) == rest;
    }
  }

  /** A round whose cut falls at the end of `chunk`, with at most one whitespace
      character between the chunk and the rest. */
  lemma {:induction false} Round(t: string, size: int, chunk: string, gap: string, rest: string)
    requires t == chunk + gap + rest && 1 <= size < |t| && IsTrimmed(t) && CutIndex(t, size) == |chunk|
    requires IsTrimmed(chunk)
    requires |gap| <= 1 && (gap != [] ==> IsWs(gap[0])) && rest != [] && IsTrimmed(rest)
    ensures ChunksFrom(t, size) == [chunk] + ChunksFrom(rest, size)
  {
    var cut := CutIndex(t, size);
    assert t[..cut] == chunk;
    assert t[cut..] == gap + rest;
    TrimTrimmed(chunk);
    TrimGap(gap, rest);
    ChunksFromStep(t, size);
  }

  /** A word exactly as long as the limit, followed by a break, is sent as it is. */
  lemma {:induction false} RoundAtLimit(chunk: string, sep: char, rest: string, size: int)
    requires |chunk| == size >= 1 && IsBreak(sep) && IsTrimmed(chunk) && rest != [] && IsTrimmed(rest)
    ensures IsTrimmed(chunk + [sep] + rest)
    ensures ChunksFrom(chunk + [sep] + rest, size) == [chunk] + ChunksFrom(rest, size)
  {
    var t := chunk + [sep] + rest;
    assert t[size] == sep;
    assert t[|t| - 1] == rest[|rest| - 1];
    assert CutIndex(t, size) == size;
    Round(t, size, chunk, [sep], rest);
  }

  /** A remainder no longer than the limit is sent whole. */
  lemma {:induction false} LastRound(t: string, size: int)
    requires 1 <= |t| <= size && IsTrimmed(t)
    ensures ChunksFrom(t, size) == [t]
  {
  }

  /** A break before the limit with none after it up to the limit: the cut falls at
      the break, which is dropped. */
  lemma {:induction false} RoundBeforeLimit(chunk: string, sep: char, rest: string, size: int)
    requires 1 <= |chunk| < size && IsBreak(sep) && IsTrimmed(chunk) && IsTrimmed(rest)
    requires |rest| >= size - |chunk| && forall j :: 0 <= j < size - |chunk| ==> !IsBreak(rest[j])
    ensures IsTrimmed(chunk + [sep] + rest)
    ensures ChunksFrom(chunk + [sep] + rest, size) == [chunk] + ChunksFrom(rest, size)
  {
    var t := chunk + [sep] + rest;
    var c := |chunk|;
    assert t[c] == sep;
    assert forall j :: c < j <= size ==> t[j] == rest[j - c - 1];
    assert t[|t| - 1] == rest[|rest| - 1];
    assert CutIndex(t, size) == c;
    Round(t, size, chunk, [sep], rest);
  }

  /** No break up to the limit: the word is cut hard at the limit. */
  lemma {:induction false} RoundNoBreak(chunk: string, rest: string, size: int)
    requires |chunk| == size >= 1 && IsTrimmed(chunk) && IsTrimmed(rest) && rest != []
    requires !IsBreak(rest[0]) && forall j :: 0 <= j < size ==> !IsBreak(chunk[j])
    ensures IsTrimmed(chunk + rest)
    ensures ChunksFrom(chunk + rest, size) == [chunk] + ChunksFrom(rest, size)
  {
    var t := chunk + rest;
    assert t[size] == rest[0];
    assert forall j :: 0 <= j < size ==> t[j] == chunk[j];
    assert t[|t| - 1] == rest[|rest| - 1];
    assert CutIndex(t, size) == size;
    assert t == chunk + [] + rest;
    Round(t, size, chunk, [], rest);
  }

  /** Words separated by single breaks, followed by a last word. */
  function Joined(words: seq<string>, breaks: seq<char>, last: string): (t: string)
    requires |breaks| == |words|
    ensures |t| >= |last|
  {
    if words == [] then last else words[0] + [breaks[0]] + Joined(words[1..], breaks[1..], last)
  }

  lemma {:induction false} HeadThenRest<T>(xs: seq<T>, y: T)
    requires xs != []
    ensures xs + [y] == [xs[0]] + (xs[1..] + [y])
  {
  }

  /** Words of exactly the limit's length, separated by breaks, are each sent as one
      chunk, followed by the last word. */
  lemma {:induction false} FullWords(words: seq<string>, breaks: seq<char>, last: string, size: int)
    requires |breaks| == |words| && 1 <= |last| <= size && IsTrimmed(last)
    requires forall i :: 0 <= i < |words| ==> |words[i]| == size && IsTrimmed(words[i]) && IsBreak(breaks[i])
    ensures IsTrimmed(Joined(words, breaks, last))
    ensures ChunksFrom(Joined(words, breaks, last), size) == words + [last]
  {
    if words == [] {
      LastRound(last, size);
    } else {
      var rest := Joined(words[1..], breaks[1..], last);
      assert Joined(words, breaks, last) == words[0] + [breaks[0]] + rest;
      assert forall i :: 0 <= i < |words| - 1 ==> words[1..][i] == words[i + 1] && breaks[1..][i] == breaks[i + 1];
      FullWords(words[1..], breaks[1..], last, size);
      RoundAtLimit(words[0], breaks[0], rest, size);
      HeadThenRest(words, last);
    }
  }

  /** The text of the multi-line example in index.spec.ts, as words and breaks. */
  lemma {:induction false} MultiLineText()
    ensures Joined(["some", "text", "some", "test"], [' ', '\n', ' ', ' '], "two") == "some text\nsome test two"
  {
  }

  lemma {:induction false} Snoc<T>(a: T, b: T, c: T, d: T, e: T)
    ensures [a, b, c, d] + [e] == [a, b, c, d, e]
  {
  }

  /** With the limit 4, "some text\nsome test two" is sent as five chunks, as the
      client's multi-line test expects. */
  lemma {:induction false} MultiLineExample(text: string)
    requires text == "some text\nsome test two"
    ensures Chunks(text, 4) == ["some", "text", "some", "test", "two"]
  {
    MultiLineText();
    FullWords(["some", "text", "some", "test"], [' ', '\n', ' ', ' '], "two", 4);
    TrimTrimmed(text);
    Snoc("some", "text", "some", "test", "two");
  }

  /** "some test two" is sent word by word with the limit 4. */
  lemma {:induction false} SplitWordWords(tail: string)
    requires tail == "some test two"
    ensures IsTrimmed(tail) && ChunksFrom(tail, 4) == ["some", "test", "two"]
  {
    WordsText();
    FullWords(["some", "test"], [' ', ' '], "two", 4);
    Snoc3("some", "test", "two");
  }

  /** The text of the last words of the word-splitting example, as words and breaks. */
  lemma {:induction false} WordsText()
    ensures Joined(["some", "test"], [' ', ' '], "two") == "some test two"
  {
  }

  lemma {:induction false} Snoc3<T>(a: T, b: T, c: T)
    ensures [a, b] + [c] == [a, b, c]
  {
  }

  /** The last four chunks of the word-splitting example: a cut at the line break, then
      whole words. */
  lemma {:induction false} SplitWordTail(third: string, ext: string, tail: string)
    requires ext == "ext" && tail == "some test two" && third == ext + ['\n'] + tail
    ensures IsTrimmed(third) && ChunksFrom(third, 4) == [ext] + ["some", "test", "two"]
  {
    RoundBeforeLimit(ext, '\n', tail, 4);
    SplitWordWords(tail);
  }

  /** The chunks after the first cut of the word-splitting example: a hard cut inside
      "me-text", then the rest. */
  lemma {:induction false} SplitWordSecond(second: string, met: string, third: string, ext: string, tail: string)
    requires met == "me-t" && ext == "ext" && tail == "some test two"
    requires third == ext + ['\n'] + tail && second == met + third
    ensures IsTrimmed(second) && ChunksFrom(second, 4) == [met] + ([ext] + ["some", "test", "two"])
  {
    assert third[0] == 'e' && third[|third| - 1] == 'o';
    RoundNoBreak(met, third, 4);
    SplitWordTail(third, ext, tail);
  }

  /** The pieces the rounds of the word-splitting example cut off. */
  lemma {:induction false} SplitWordPieces(text: string)
    requires text == "so me-text\nsome test two"
    ensures text == "so" + [' '] + ("me-t" + ("ext" + ['\n'] + "some test two"))
  {
  }

  /** All chunks of the word-splitting example: a cut at the first space, then the rest. */
  lemma {:induction false} SplitWordFirst(text: string, so: string, second: string, met: string, third: string,
                                          ext: string, tail: string)
    requires so == "so" && met == "me-t" && ext == "ext" && tail == "some test two"
    requires third == ext + ['\n'] + tail && second == met + third && text == so + [' '] + second
    ensures Trim(text) == text
    ensures ChunksFrom(text, 4) == [so] + ([met] + ([ext] + ["some", "test", "two"]))
  {
    assert second[0] == 'm' && second[1] == 'e' && second[|second| - 1] == 'o';
    RoundBeforeLimit(so, ' ', second, 4);
    TrimTrimmed(text);
    SplitWordSecond(second, met, third, ext, tail);
  }

  /** With the limit 4, "so me-text\nsome test two" is cut at the first space, then hard
      inside "me-text", then at the line break, as the client's word-splitting test
      expects. */
  lemma {:induction false} SplitWordExample(text: string)
    requires text == "so me-text\nsome test two"
    ensures Chunks(text, 4) == ["so"] + (["me-t"] + (["ext"] + ["some", "test", "two"]))
  {
    SplitWordPieces(text);
    SplitWordFirst(text, "so", "me-t" + ("ext" + ['\n'] + "some test two"), "me-t",
                   "ext" + ['\n'] + "some test two", "ext", "some test two");
  }

  /** `botEnv.NAMESPACE.toUpperCase() === namespace.toUpperCase()`. */
  predicate SameNamespace(a: string, b: string) { ToUpper(a) == ToUpper(b) }

  /** `getBotEnvByNamespace`: the first bot whose namespace matches ignoring case
      (`FindBotFirst`). */
  function FindBot(bots: seq<BotEnv>, namespace: string): Option<BotEnv> {
    if bots == [] then None
    else if SameNamespace(bots[0].namespace, namespace) then Some(bots[0])
    else FindBot(bots[1..], namespace)
  }

  /** No bot is found exactly when no namespace matches; a bot that is found is the
      first whose namespace matches. */
  lemma {:induction false} FindBotFirst(bots: seq<BotEnv>, namespace: string)
    ensures FindBot(bots, namespace).None? <==> forall i :: 0 <= i < |bots| ==> !SameNamespace(bots[i].namespace, namespace)
    ensures FindBot(bots, namespace).Some? ==> exists i :: (0 <= i < |bots| && bots[i] == FindBot(bots, namespace).value
      && SameNamespace(bots[i].namespace, namespace)
      && forall j :: 0 <= j < i ==> !SameNamespace(bots[j].namespace, namespace))
    decreases |bots|
  {
    if bots != [] && !SameNamespace(bots[0].namespace, namespace) {
      FindBotFirst(bots[1..], namespace);
      assert forall i :: 1 <= i < |bots| ==> bots[i] == bots[1..][i - 1];
      if FindBot(bots, namespace).Some? {
        var i :| 0 <= i < |bots[1..]| && bots[1..][i] == FindBot(bots, namespace).value
          && SameNamespace(bots[1..][i].namespace, namespace)
          && forall j :: 0 <= j < i ==> !SameNamespace(bots[1..][j].namespace, namespace);
        assert bots[i + 1] == FindBot(bots, namespace).value;
      }
    } else if bots != [] {
      assert bots[0] == FindBot(bots, namespace).value;
    }
  }

  /** The posts of a list of chunks, in order. */
  function Posts(token: string, chatId: int, chunks: seq<string>): (ps: seq<Effects.Event>)
    ensures |ps| == |chunks|
    ensures forall i :: 0 <= i < |chunks| ==> ps[i] == Effects.Posted(token, chatId, chunks[i])
  {
    seq(|chunks|, i requires 0 <= i < |chunks| => Effects.Posted(token, chatId, chunks[i]))
  }

  /** Posts the chunks in order, each awaited before the next; the first failed post
      ends the loop. On failure the posts made are a non-empty prefix of the chunks'. */
  method PostChunks(world: Effects.World, token: string, chatId: int, chunks: seq<string>) returns (o: Outcome)
    modifies world
    ensures world.files == old(world.files) && world.rows == old(world.rows)
    ensures o.Pass? ==> world.trace == old(world.trace) + Posts(token, chatId, chunks)
    ensures o.Fail? ==>
      (|old(world.trace)| < |world.trace| <= |old(world.trace)| + |chunks|
       && world.trace == old(world.trace) + Posts(token, chatId, chunks)[..|world.trace| - |old(world.trace)|])
  {
    ghost var posts := Posts(token, chatId, chunks);
    for i := 0 to |chunks|
      invariant world.trace == old(world.trace) + posts[..i]
      invariant world.files == old(world.files) && world.rows == old(world.rows)
    {
      var sent := world.Post(token, chatId, chunks[i]);
      assert posts[..i + 1] == posts[..i] + [posts[i]];
      if sent.Fail? {
        return sent;
      }
    }
    assert posts[..|chunks|] == posts;
    o := Pass;
  }

  /** `sendMessage`: an unknown namespace is refused before anything is sent, empty text
      sends nothing, and otherwise the chunks of the text are posted in order. */
  method SendMessage(env: TelegramEnv, world: Effects.World, request: SendMessageRequest) returns (o: Outcome)
    modifies world
    ensures world.files == old(world.files) && world.rows == old(world.rows)
    ensures FindBot(env.bots, request.namespace).None? ==>
      o == Fail("Invalid Telegram bot namespace") && world.trace == old(world.trace)
    ensures FindBot(env.bots, request.namespace).Some? && |request.text| == 0 ==>
      o == Pass && world.trace == old(world.trace)
    ensures FindBot(env.bots, request.namespace).Some? && |request.text| > 0 ==>
      var posts := Posts(FindBot(env.bots, request.namespace).value.token, request.chatId,
                         Chunks(request.text, ChunkSize(env.maxTextLength)));
      (o.Pass? ==> world.trace == old(world.trace) + posts)
      && (o.Fail? ==> |old(world.trace)| < |world.trace| <= |old(world.trace)| + |posts|
                      && world.trace == old(world.trace) + posts[..|world.trace| - |old(world.trace)|])
  {
    var botEnv := FindBot(env.bots, request.namespace);
    if botEnv.None? {
      return Fail("Invalid Telegram bot namespace");
    }
    o := SendText(world, botEnv.value.token, request.chatId, request.text, ChunkSize(env.maxTextLength));
  }

  /** The part of `sendMessage` after the bot is found: empty text sends nothing, and
      otherwise the chunks of the text are posted in order with the bot's token. */
  method SendText(world: Effects.World, token: string, chatId: int, text: string, size: int) returns (o: Outcome)
    requires size >= 1
    modifies world
    ensures world.files == old(world.files) && world.rows == old(world.rows)
    ensures |text| == 0 ==> o == Pass && world.trace == old(world.trace)
    ensures |text| > 0 ==>
      var posts := Posts(token, chatId, Chunks(text, size));
      (o.Pass? ==> world.trace == old(world.trace) + posts)
      && (o.Fail? ==> |old(world.trace)| < |world.trace| <= |old(world.trace)| + |posts|
                      && world.trace == old(world.trace) + posts[..|world.trace| - |old(world.trace)|])
  {
    if |text| == 0 {
      return Pass;
    }
    var chunks := TextToChunk(text, size);
    o := PostChunks(world, token, chatId, chunks);
  }

  /** One round of the loop exactly as written, for any limit: JavaScript's
      `slice(0, space)` and `slice(space)` count a negative index from the end. */
  function ChunkStepAsWritten(trimmed: string, size: int): (step: (string, string))
    requires IsTrimmed(trimmed) && size < |trimmed|
  {
    var found := LastIndexOfAnySpec(Breaks, trimmed, size);
    var space := if found == -1 then size else found;
    var k := if space < 0 then (if |trimmed| + space < 0 then 0 else |trimmed| + space) else space;
    (Trim(trimmed[..k]), Trim(trimmed[k..]))
  }

  /** With a negative limit no longer than the remainder, a round pushes an empty chunk
      and leaves the remainder as it was, so the loop never ends: for the limit -3 and the
      text "def" the chunker pushes "" forever. */
  lemma {:induction false} NegativeSizeStalls(trimmed: string, size: int)
    requires trimmed != [] && IsTrimmed(trimmed) && size < 0 && |trimmed| + size <= 0
    ensures ChunkStepAsWritten(trimmed, size) == ("", trimmed)
    ensures ChunkSizeAsWritten(Some(size)) == size
  {
    NoBreakBeforeStart(trimmed, size);
    TrimTrimmed([]);
    TrimTrimmed(trimmed);
    assert trimmed[..0] == [] && trimmed[0..] == trimmed;
    calc {
      ChunkStepAsWritten(trimmed, size);
      (Trim(trimmed[..0]), Trim(trimmed[0..]));
      ("", trimmed);
    }
  }

  /** A search that starts before the string only looks at its first character. */
  lemma {:induction false} NoBreakBeforeStart(t: string, end: int)
    requires t != [] && !IsWs(t[0]) && end < 0
    ensures LastIndexOfAnySpec(Breaks, t, end) == -1
  {
    assert t[0] !in Breaks;
  }

  lemma {:induction false} NegativeSizeExample()
    ensures ChunkStepAsWritten("def", ChunkSizeAsWritten(Some(-3))) == ("", "def")
  {
    NegativeSizeStalls("def", -3);
  }
}
