/** The newer terminal chat (core/tty): the request it sends, without a story setting;
    the context a command is handled in; the loop that reads lines until `/exit`; the
    answer step that also asks the model for a one-line summary of the story so far; and
    its command handler. */
module TtyCore {
  import opened Wrappers
  import opened Messages
  import opened Text
  import opened Effects
  import CommandSyntax
  import PromptFiles
  import RichChat
  import LlmClient
  import Terminal

  /** `toCompletionRequest(chat)`: the prompt when non-empty, then the history block when
      there are histories, then the transcript; the story setting is never sent. It is
      the client's request of the same chat without its story. */
  function ToCompletionRequest(s: RichChat.ChatState): (r: seq<Message>)
    ensures |r| == (if s.prompt != "" then 1 else 0) + (if s.histories != [] then 1 else 0) + |s.messages|
    ensures r[|r| - |s.messages|..] == s.messages
  {
    (if s.prompt != "" then [Message(System, s.prompt)] else [])
    + (if s.histories != [] then [LlmClient.HistoryMessage(s.histories)] else [])
    + s.messages
  }

  /** The request of a chat is the client's request of the same chat without its story. */
  lemma {:induction false} ClientRequest(s: RichChat.ChatState)
    ensures ToCompletionRequest(s) == LlmClient.ToCompletionRequest(s.(story := ""))
  {
  }

  /** The request does not depend on the story: two chats that differ only there are
      sent alike. */
  lemma {:induction false} StoryNotSent(s: RichChat.ChatState, story: string)
    ensures ToCompletionRequest(s.(story := story)) == ToCompletionRequest(s)
  {
    assert s.(story := story).(story := "") == s.(story := "");
  }

  /** The prompt of the chat that summarises the story. */
  const SummaryPrompt := "You are an assistant tasked with summarizing parts of a story into concise summaries. You will be provided with "
    + "previous summaries and the latest segment of the story. Please create a one line summary that seamlessly flows with "
    + "the earlier summaries. Please provide a concise summary of the following story paragraph, focusing only on the "
    + "factual events and character descriptions. Discard any opinions, interpretations, or non-factual content. "
    + "The summary should strictly include what happened and describe the characters involved. You will write only the summary but nothing else\n"

  const SummaryLead := "Please summarise the following: "

  /** The two texts of the summariser chat: its prompt, and what comes before the
      passage in the one request. */
  datatype Summariser = Summariser(prompt: string, lead: string)

  const DefaultSummariser := Summariser(SummaryPrompt, SummaryLead)

  /** The chat `handleHistory` builds: the summariser prompt, the story's histories and one
      user message asking for a summary of `last`. */
  function SummaryChat(sm: Summariser, histories: seq<string>, last: string): RichChat.ChatState {
    RichChat.ChatState(sm.prompt, "", histories, None, [Message(User, sm.lead + last)])
  }

  /** The summariser is asked with its prompt, then the earlier summaries when there are
      any, then the one request. */
  lemma {:induction false} SummaryRequest(histories: seq<string>, last: string)
    ensures var r := ToCompletionRequest(SummaryChat(DefaultSummariser, histories, last));
      r[0] == Message(System, SummaryPrompt) && r[|r| - 1] == Message(User, SummaryLead + last)
      && |r| == (if histories == [] then 2 else 3)
      && (histories != [] ==> r[1] == LlmClient.HistoryMessage(histories))
  {
    var s := SummaryChat(DefaultSummariser, histories, last);
    var r := ToCompletionRequest(s);
    assert SummaryPrompt != "";
    assert r[|r| - 1] == r[|r| - |s.messages|..][0];
  }

  /** What `handleHistory` did to the story `before`, given the events it added and
      what the model answered (`summary`), with the summariser texts `sm`: nothing for a
      story without messages; otherwise the summariser chat about the last message is
      sent, and its answer, when there is one, becomes one more history. Nothing else of
      the story changes. */
  ghost predicate HistoryHandled(sm: Summariser, before: RichChat.ChatState, after: RichChat.ChatState,
                                 events: seq<Event>, o: Outcome, summary: Result<string>)
  {
    if before.messages == [] then
      o == Pass && events == [] && after == before
    else
      var last := before.messages[|before.messages| - 1].content;
      events == [Completion(ToCompletionRequest(SummaryChat(sm, before.histories, last)))]
      && (summary.Err? ==> o == Fail(summary.error) && after == before)
      && (summary.Ok? ==> o == Pass && after == before.(histories := before.histories + [summary.value]))
  }

  /** What `handleRequest` did after the model answered, from the chat `before` (the
      answer already added) to the chat `after`: the story is summarised as
      `HistoryHandled` says, and when that succeeds the screen is repainted. */
  ghost predicate AnswerHandled(sm: Summariser, before: RichChat.ChatState, after: RichChat.ChatState,
                                events: seq<Event>, o: Outcome, summary: Result<string>)
  {
    |events| >= 1 && HistoryHandled(sm, before, after, events[..1], o, summary)
    && (o.Fail? ==> |events| == 1)
    && (o.Pass? ==> events[1..] == [ScreenCleared] + Terminal.Lines(after.messages))
  }

  /** What `handleRequest` did, from the chat `before` to the chat `after`, given the
      events it added and what the model answered to the request (`answer`) and to the
      summary request (`summary`): the chat is sent; a failed answer ends it with nothing
      changed; otherwise the answer is added as an assistant message and handled as
      `AnswerHandled` says. */
  ghost predicate RequestHandled(sm: Summariser, before: RichChat.ChatState, after: RichChat.ChatState,
                                 events: seq<Event>, o: Outcome, answer: Result<string>, summary: Result<string>)
  {
    |events| >= 1 && events[0] == Completion(ToCompletionRequest(before))
    && (answer.Err? ==> o == Fail(answer.error) && after == before && |events| == 1)
    && (answer.Ok? ==>
          AnswerHandled(sm, before.(messages := before.messages + [Message(Assistant, answer.value)]),
                        after, events[1..], o, summary))
  }

  /** A story with messages that was summarised as `HistoryHandled` says, and then
      repainted when that succeeded, was handled as `AnswerHandled` says. */
  lemma {:induction false} Summarised(sm: Summariser, before: RichChat.ChatState, after: RichChat.ChatState,
                   events: seq<Event>, o: Outcome, summary: Result<string>)
    requires before.messages != []
    requires HistoryHandled(sm, before, after, events, o, summary)
    ensures o.Fail? ==> AnswerHandled(sm, before, after, events, o, summary)
    ensures o.Pass? ==>
      AnswerHandled(sm, before, after, events + [ScreenCleared] + Terminal.Lines(after.messages), o, summary)
  {
    assert |events| == 1 && events[..1] == events;
    if o.Pass? {
      var painted := events + [ScreenCleared] + Terminal.Lines(after.messages);
      assert painted[..1] == events;
      assert painted[1..] == [ScreenCleared] + Terminal.Lines(after.messages);
    }
  }

  /** A request that was answered and then handled as `AnswerHandled` says is handled
      as `RequestHandled` says. */
  lemma {:induction false} Answered(sm: Summariser, before: RichChat.ChatState, after: RichChat.ChatState,
                 rest: seq<Event>, o: Outcome, answer: Result<string>, summary: Result<string>)
    requires answer.Ok?
    requires AnswerHandled(sm, before.(messages := before.messages + [Message(Assistant, answer.value)]),
                           after, rest, o, summary)
    ensures RequestHandled(sm, before, after, [Completion(ToCompletionRequest(before))] + rest, o, answer, summary)
  {
    assert ([Completion(ToCompletionRequest(before))] + rest)[1..] == rest;
  }

  /** After an answer the summariser is asked about exactly that answer, and the answer
      stays the last message whether or not the summary came. */
  lemma {:induction false} AnswerSummarised(sm: Summariser, before: RichChat.ChatState, after: RichChat.ChatState,
                         events: seq<Event>, o: Outcome, answer: Result<string>, summary: Result<string>)
    requires RequestHandled(sm, before, after, events, o, answer, summary) && answer.Ok?
    ensures events[1] == Completion(ToCompletionRequest(SummaryChat(sm, before.histories, answer.value)))
    ensures after.messages == before.messages + [Message(Assistant, answer.value)]
  {
    var answered := before.(messages := before.messages + [Message(Assistant, answer.value)]);
    assert answered.messages[|answered.messages| - 1].content == answer.value;
    assert events[1..][..1][0] == events[1];
  }

  /** `TTYContext`: the conversation, the `isDone` flag that only `done()` sets, and the
      callbacks that repaint the screen and ask again. */
  class TtyContext {
    var isDone: bool
    const chat: RichChat.Chat
    const tty: Tty   // whose `handleRequest` is the retry handler

    constructor(chat: RichChat.Chat, tty: Tty)
      ensures !isDone && this.chat == chat && this.tty == tty
    {
      isDone := false;
      this.chat := chat;
      this.tty := tty;
    }

    /** `done()`: the flag is set and stays set. */
    method Done()
      modifies this
      ensures isDone
    {
      isDone := true;
    }

    /** `repaint()`: the screen is cleared and the transcript written again. */
    method Repaint(world: World)
      modifies world
      ensures world.trace == old(world.trace) + [ScreenCleared] + Terminal.Lines(chat.messages)
      ensures world.files == old(world.files) && world.rows == old(world.rows)
    {
      Terminal.Repaint(chat.messages, world);
    }

    /** `retry()`: the terminal's `handleRequest` on the conversation, as
        `RequestHandled` says; `events` are the events it added. */
    method Retry(world: World)
      returns (o: Outcome, ghost answer: Result<string>, ghost summary: Result<string>, ghost events: seq<Event>)
      modifies chat, world
      ensures world.files == old(world.files) && world.rows == old(world.rows) && chat.calls == old(chat.calls)
      ensures world.trace == old(world.trace) + events
      ensures RequestHandled(DefaultSummariser, old(chat.State()), chat.State(), events, o, answer, summary)
    {
      o, answer, summary, events := tty.HandleRequest(chat, world);
    }
  }

  datatype Action = ExitAction | SaveAction | LoadAction | UndoAction | RetryAction | PromptsAction
                  | HistoryAction | UnknownAction

  /** The `switch (prefix)` of the command handler, with its aliases. */
  function ActionOf(verb: string): (a: Action)
    ensures a == UnknownAction <==> verb !in {"exit", "save", "load", "undo", "retry", "p", "prompts", "prompt", "h", "history"}
  {
    if verb == "exit" then ExitAction
    else if verb == "save" then SaveAction
    else if verb == "load" then LoadAction
    else if verb == "undo" then UndoAction
    else if verb == "retry" then RetryAction
    else if verb == "p" || verb == "prompts" || verb == "prompt" then PromptsAction
    else if verb == "h" || verb == "history" then HistoryAction
    else UnknownAction
  }

  /** The line that ends the terminal loop: "/exit" not followed by another letter, that
      is, a command whose verb is "exit" (`ExitIsExitCommand`). */
  predicate IsExit(line: string) {
    |line| >= 5 && line[..5] == "/exit" && (|line| == 5 || !IsLetter(line[5]))
  }

  /** A line is `IsExit` exactly when it parses as a command with the verb "exit". */
  lemma {:induction false} ExitIsExitCommand(line: string)
    ensures IsExit(line)
        <==> CommandSyntax.ParseCommand(line).Some? && CommandSyntax.ParseCommand(line).value.verb == "exit"
  {
    var r := CommandSyntax.ParseCommand(line);
    if IsExit(line) {
      assert line[1..5] == "exit";
      assert forall k :: 0 <= k < 4 ==> IsLetter(line[1..5][k]);
      CommandSyntax.LettersEndAt(line, 1, 5);
      assert line[1] == 'e';
    }
    if r.Some? && r.value.verb == "exit" {
      assert line[..5] == "/" + r.value.verb;
      var v := CommandSyntax.LettersEnd(line, 1);
      assert r.value.verb == line[1..v];
    }
  }

  /** A line that does not start with a slash is not `/exit`. */
  lemma {:induction false} PlainLineNotExit(input: string)
    requires !StartsWith(input, "/")
    ensures !IsExit(input)
  {
    if |input| >= 1 {
      assert input[..1] == [input[0]];
    }
  }

  /** What loading the prompt file at `path` did: a missing file fails with "File not
      found" and leaves the chat as it was; a present one becomes the prompt and "Prompt
      loaded." is written. */
  predicate PromptLoaded(path: string, files: map<string, string>, before: RichChat.ChatState,
                         after: RichChat.ChatState, events: seq<Event>, o: Outcome)
  {
    if path !in files then
      o == Fail("File not found") && events == [FileRead(path)] && after == before
    else
      o == Pass && events == [FileRead(path), Printed("Prompt loaded.")] && after == before.(prompt := files[path])
  }

  /** What `save(context, args)` did with the sessions folder `folder`: a name `/save`
      refuses fails with nothing done; otherwise the chat's document is written to the
      session's path, and the files hold it when the write passed. Nothing is said. */
  predicate SaveDone(folder: string, args: string, before: Side, after: Side, events: seq<Event>, o: Outcome) {
    after.chat == before.chat && after.calls == before.calls
    && if CommandSyntax.SaveName(args).Err? then
         o == Fail("Invalid file name") && events == [] && after.files == before.files
       else
         var path := CommandSyntax.SessionPath(folder, CommandSyntax.SaveName(args).value);
         var doc := RichChat.DehydrateState(before.chat);
         events == [FileWritten(path, doc)]
         && after.files == (if o.Pass? then before.files[path := doc] else before.files)
  }

  /** What `load(context, args)` did: a name `/load` refuses fails with nothing done;
      otherwise the session's file is read, and the chat becomes the state its text
      hydrates to, or stays as it was when the file is missing or does not hydrate.
      Nothing is said. */
  predicate LoadDone(folder: string, args: string, before: Side, after: Side, events: seq<Event>, o: Outcome) {
    after.files == before.files && after.calls == before.calls
    && if CommandSyntax.LoadName(args).None? then
         o == Fail("Invalid sessions id") && events == [] && after.chat == before.chat
       else
         var path := CommandSyntax.SessionPath(folder, CommandSyntax.LoadName(args).value);
         events == [FileRead(path)]
         && if path !in before.files then o.Fail? && after.chat == before.chat
            else
              var read := RichChat.HydrateText(before.files[path]);
              if read.Ok? then o == Pass && after.chat == read.value
              else o == Fail(read.error) && after.chat == before.chat
  }

  /** What `retry(context)` did: nothing without a user message; otherwise one undo, the
      last user message added back, and `handleRequest` on the chat that left: some chat
      `asked` ending in that message was sent, answered, summarised and repainted as
      `RequestHandled` says. Its first event is a request that ends with the message. */
  ghost predicate RetryDone(before: Side, after: Side, events: seq<Event>, o: Outcome) {
    after.files == before.files
    && var i := FindLastUser(before.chat.messages);
    if i == -1 then
      o == Pass && events == [] && after == before
    else
      after.calls == before.calls + [RichChat.UndoCall]
      && |events| >= 1 && events[0].Completion?
      && (var sent := events[0].request;
          |sent| > 0 && sent[|sent| - 1] == Message(User, before.chat.messages[i].content))
      && exists asked: RichChat.ChatState, answer: Result<string>, summary: Result<string> ::
           EndsWithUser(asked, before.chat.messages[i].content)
           && RequestHandled(DefaultSummariser, asked, after.chat, events, o, answer, summary)
  }

  /** The chat's last message is the user message `content`. */
  predicate EndsWithUser(s: RichChat.ChatState, content: string) {
    |s.messages| > 0 && s.messages[|s.messages| - 1] == Message(User, content)
  }

  /** A `/retry` that passed leaves the last user message followed by the new answer,
      one more summary, and the screen repainted with the chat that results. */
  lemma {:induction false} RetryAnswered(before: Side, after: Side, events: seq<Event>, o: Outcome)
    requires RetryDone(before, after, events, o)
    requires FindLastUser(before.chat.messages) != -1 && o.Pass?
    ensures var ms := after.chat.messages;
      |ms| >= 2 && ms[|ms| - 1].role == Assistant
      && ms[|ms| - 2] == Message(User, before.chat.messages[FindLastUser(before.chat.messages)].content)
    ensures |after.chat.histories| >= 1
    ensures |events| >= 2 && events[2..] == [ScreenCleared] + Terminal.Lines(after.chat.messages)
  {
    var content := before.chat.messages[FindLastUser(before.chat.messages)].content;
    var asked: RichChat.ChatState, answer: Result<string>, summary: Result<string> :|
      EndsWithUser(asked, content) && RequestHandled(DefaultSummariser, asked, after.chat, events, o, answer, summary);
    RequestPassed(DefaultSummariser, asked, after.chat, events, o, answer, summary);
  }

  /** A `handleRequest` that passed added the answer and one summary, and repainted. */
  lemma {:induction false} RequestPassed(sm: Summariser, before: RichChat.ChatState, after: RichChat.ChatState,
                                         events: seq<Event>, o: Outcome, answer: Result<string>, summary: Result<string>)
    requires RequestHandled(sm, before, after, events, o, answer, summary) && o.Pass?
    ensures answer.Ok? && summary.Ok?
    ensures after == before.(messages := before.messages + [Message(Assistant, answer.value)],
                             histories := before.histories + [summary.value])
    ensures |events| >= 2 && events[2..] == [ScreenCleared] + Terminal.Lines(after.messages)
  {
    var answered := before.(messages := before.messages + [Message(Assistant, answer.value)]);
    assert AnswerHandled(sm, answered, after, events[1..], o, summary);
    assert HistoryHandled(sm, answered, after, events[1..][..1], o, summary);
    assert events[1..][1..] == events[2..];
  }

  /** What `prompts(context, args)` did with the prompts folder `folder`: it listed the
      folder first; a failed listing fails; no argument prints the sorted prompt names
      one per line; otherwise the chosen prompt is loaded, or the choice's error
      returned. */
  predicate PromptsDone(folder: string, args: string, before: Side, after: Side, events: seq<Event>, o: Outcome) {
    after.files == before.files && after.calls == before.calls
    && |events| >= 1 && events[0].Listed? && events[0].folder == folder
    && var listed := events[0].entries;
    if listed.Err? then
      o == Fail(listed.error) && |events| == 1 && after.chat == before.chat
    else
      var names := PromptFiles.SortedPromptNames(listed.value);
      if args == "" then
        o == Pass && events[1..] == Terminal.PrintedLines(names) && after.chat == before.chat
      else
        var choice := PromptFiles.ChoosePrompt(names, args, true);
        if choice.Err? then
          o == Fail(choice.error) && |events| == 1 && after.chat == before.chat
        else
          PromptLoaded(PathJoin(folder, choice.value + ".txt"), before.files, before.chat, after.chat, events[1..], o)
  }

  /** What the command table did for `action`, given the sessions and prompts folders.
      `/undo` undoes and repaints from the chat left; `/history` prints the summaries;
      an unknown verb fails with "Invalid command"; `/exit` changes nothing here. */
  ghost predicate Dispatched(sessions: string, prompts: string, action: Action, args: string,
                       before: Side, after: Side, events: seq<Event>, o: Outcome)
  {
    match action
    case ExitAction => o == Pass && events == [] && after == before
    case SaveAction => SaveDone(sessions, args, before, after, events, o)
    case LoadAction => LoadDone(sessions, args, before, after, events, o)
    case UndoAction =>
      o == Pass && after.calls == before.calls + [RichChat.UndoCall] && after.files == before.files
      && events == [ScreenCleared] + Terminal.Lines(after.chat.messages)
    case RetryAction => RetryDone(before, after, events, o)
    case PromptsAction => PromptsDone(prompts, args, before, after, events, o)
    case HistoryAction =>
      o == Pass && after == before
      && events == (if before.chat.histories == [] then [Printed("History is empty")]
                    else [Printed("History:"), Printed(Join(before.chat.histories, "\n"))])
    case UnknownAction => o == Fail("Invalid command") && events == [] && after == before
  }

  /** What `handle(command, context)` did: input that is not a command fails with
      "Invalid input" and nothing done; a command is dispatched on its verb. */
  ghost predicate Handled(sessions: string, prompts: string, command: string,
                    before: Side, after: Side, events: seq<Event>, o: Outcome)
  {
    match CommandSyntax.ParseCommand(command)
    case None => o == Fail("Invalid input") && events == [] && after == before
    case Some(c) => Dispatched(sessions, prompts, ActionOf(c.verb), c.args, before, after, events, o)
  }

  /** `CommandHandlerImpl`: the command table of the newer terminal. */
  class CommandHandler {
    const sessionsFolder: string
    const promptsFolder: string

    constructor(sessionsFolder: string, promptsFolder: string)
      ensures this.sessionsFolder == sessionsFolder && this.promptsFolder == promptsFolder
    {
      this.sessionsFolder := sessionsFolder;
      this.promptsFolder := promptsFolder;
    }

    /** `handle(command, context)`: as `Handled` says; only `/exit` calls `done()`. */
    method Handle(command: string, ctx: TtyContext, world: World) returns (o: Outcome)
      modifies ctx, ctx.chat, world
      ensures world.rows == old(world.rows) && Extends(old(world.trace), world.trace)
      ensures Handled(sessionsFolder, promptsFolder, command, old(Snap(ctx.chat, world)), Snap(ctx.chat, world),
                      world.trace[|old(world.trace)|..], o)
      ensures ctx.isDone == (old(ctx.isDone) || IsExit(command))
    {
      ExitIsExitCommand(command);
      var parsed := CommandSyntax.ParseCommand(command);
      if parsed.None? {
        return Fail("Invalid input");
      }
      o := Dispatch(ActionOf(parsed.value.verb), parsed.value.args, ctx, world);
    }

    /** The command table, once the verb is known. */
    method Dispatch(action: Action, args: string, ctx: TtyContext, world: World) returns (o: Outcome)
      modifies ctx, ctx.chat, world
      ensures world.rows == old(world.rows) && Extends(old(world.trace), world.trace)
      ensures Dispatched(sessionsFolder, promptsFolder, action, args, old(Snap(ctx.chat, world)), Snap(ctx.chat, world),
                         world.trace[|old(world.trace)|..], o)
      ensures ctx.isDone == (old(ctx.isDone) || action == ExitAction)
    {
      match action
      case ExitAction =>
        ctx.Done();
        o := Pass;
      case SaveAction =>
        o := Save(ctx, world, args);
      case LoadAction =>
        o := Load(ctx, world, args);
      case UndoAction =>
        ctx.chat.Undo();
        ctx.Repaint(world);
        o := Pass;
        assert world.trace[|old(world.trace)|..] == [ScreenCleared] + Terminal.Lines(ctx.chat.messages);
      case RetryAction =>
        o := Retry(ctx, world);
      case PromptsAction =>
        o := Prompts(ctx, world, args);
      case HistoryAction =>
        History(ctx, world);
        o := Pass;
      case UnknownAction =>
        o := Fail("Invalid command");
    }

    /** `save(context, args)`: the dehydrated chat is written to `<sessions>/<name>.json`,
        and nothing is said. */
    method Save(ctx: TtyContext, world: World, args: string) returns (o: Outcome)
      modifies world
      ensures world.rows == old(world.rows) && Extends(old(world.trace), world.trace)
      ensures SaveDone(sessionsFolder, args, old(Snap(ctx.chat, world)), Snap(ctx.chat, world),
                       world.trace[|old(world.trace)|..], o)
    {
      var name := CommandSyntax.SaveName(args);
      if name.Err? {
        return Fail(name.error);
      }
      var json := ctx.chat.Dehydrate();
      o := world.Write(CommandSyntax.SessionPath(sessionsFolder, name.value), json);
      assert world.trace[|old(world.trace)|..] == [FileWritten(CommandSyntax.SessionPath(sessionsFolder, name.value), json)];
    }

    /** `load(context, args)`: the chat is hydrated from `<sessions>/<name>.json`, and
        nothing is said. */
    method Load(ctx: TtyContext, world: World, args: string) returns (o: Outcome)
      modifies ctx.chat, world
      ensures world.rows == old(world.rows) && Extends(old(world.trace), world.trace)
      ensures LoadDone(sessionsFolder, args, old(Snap(ctx.chat, world)), Snap(ctx.chat, world),
                       world.trace[|old(world.trace)|..], o)
    {
      var name := CommandSyntax.LoadName(args);
      if name.None? {
        return Fail("Invalid sessions id");
      }
      var content := world.Read(CommandSyntax.SessionPath(sessionsFolder, name.value));
      assert world.trace[|old(world.trace)|..] == [FileRead(CommandSyntax.SessionPath(sessionsFolder, name.value))];
      if content.Err? {
        return Fail(content.error);
      }
      o := ctx.chat.Hydrate(content.value);
    }

    /** `retry(context)`: the last user message is asked again. The chat is undone and the
        message added back, and the context asks again; the request sent ends with that
        message. Nothing happens when there is no user message. */
    method Retry(ctx: TtyContext, world: World) returns (o: Outcome)
      modifies ctx.chat, world
      ensures world.rows == old(world.rows) && Extends(old(world.trace), world.trace)
      ensures RetryDone(old(Snap(ctx.chat, world)), Snap(ctx.chat, world), world.trace[|old(world.trace)|..], o)
    {
      var messages := ctx.chat.messages;
      var index := FindLastUser(messages);
      if index == -1 {
        return Pass;
      }
      var lastMsg := messages[index];
      ctx.chat.Undo();
      ctx.chat.AddUserMsg(lastMsg.content);
      ghost var asked := ctx.chat.State();
      assert EndsWithUser(asked, lastMsg.content);
      ghost var answer, summary, events;
      o, answer, summary, events := ctx.Retry(world);
      assert world.trace[|old(world.trace)|..] == events;
    }

    /** `prompts(context, args)`: the prompt files of the folder, sorted and without
        their extension, are written one per line for no argument; otherwise the one the
        argument chooses (a number counted from 1, or a name) becomes the prompt. */
    method Prompts(ctx: TtyContext, world: World, args: string) returns (o: Outcome)
      modifies ctx.chat, world
      ensures world.rows == old(world.rows) && Extends(old(world.trace), world.trace)
      ensures PromptsDone(promptsFolder, args, old(Snap(ctx.chat, world)), Snap(ctx.chat, world),
                          world.trace[|old(world.trace)|..], o)
    {
      var entries := world.List(promptsFolder);
      ghost var head := [Listed(promptsFolder, entries)];
      if entries.Err? {
        return Fail(entries.error);
      }
      var files := PromptFiles.SortedPromptNames(entries.value);
      ghost var rest;
      if args == "" {
        Terminal.WriteLines(files, world);
        rest := Terminal.PrintedLines(files);
        o := Pass;
      } else {
        o, rest := Choose(ctx, world, files, args);
      }
      AppendTwo(old(world.trace), head, rest);
      assert world.trace[|old(world.trace)|..] == head + rest;
    }

    /** The prompt the argument chooses among `names` (a number counted from 1, or a
        name) becomes the chat's prompt. */
    method Choose(ctx: TtyContext, world: World, names: seq<string>, args: string)
      returns (o: Outcome, ghost events: seq<Event>)
      modifies ctx.chat, world
      ensures world.files == old(world.files) && world.rows == old(world.rows) && ctx.chat.calls == old(ctx.chat.calls)
      ensures world.trace == old(world.trace) + events
      ensures PromptFiles.ChoosePrompt(names, args, true).Err? ==>
        o == Fail(PromptFiles.ChoosePrompt(names, args, true).error) && events == []
        && ctx.chat.State() == old(ctx.chat.State())
      ensures PromptFiles.ChoosePrompt(names, args, true).Ok? ==>
        PromptLoaded(PathJoin(promptsFolder, PromptFiles.ChoosePrompt(names, args, true).value + ".txt"),
                     old(world.files), old(ctx.chat.State()), ctx.chat.State(), events, o)
    {
      var choice := PromptFiles.ChoosePrompt(names, args, true);
      if choice.Err? {
        return Fail(choice.error), [];
      }
      var path := PathJoin(promptsFolder, choice.value + ".txt");
      var content := world.Read(path);
      if content.Err? {
        return Fail("File not found"), [FileRead(path)];
      }
      ctx.chat.prompt := content.value;
      world.Print("Prompt loaded.");
      o, events := Pass, [FileRead(path), Printed("Prompt loaded.")];
    }

    /** `history(context)`: "History is empty", or "History:" and then the story
        summaries, one per line. */
    method History(ctx: TtyContext, world: World)
      modifies world
      ensures world.files == old(world.files) && world.rows == old(world.rows)
      ensures world.trace == old(world.trace) + (if ctx.chat.histories == [] then [Printed("History is empty")]
                                                 else [Printed("History:"), Printed(Join(ctx.chat.histories, "\n"))])
    {
      var histories := ctx.chat.histories;
      if |histories| == 0 {
        world.Print("History is empty");
      } else {
        world.Print("History:");
        world.Print(Join(histories, "\n"));
      }
    }
  }

  /** For each input line, whether it is an `/exit` once trimmed. */
  function ExitFlags(inputs: seq<string>): (exits: seq<bool>)
    ensures |exits| == |inputs|
  {
    seq(|inputs|, j requires 0 <= j < |inputs| => IsExit(Trim(inputs[j])))
  }

  /** How many input lines the terminal loop reads, given which of them are `/exit`: up
      to and including the first one, or all of them when there is none. */
  function LinesRead(exits: seq<bool>): (n: nat)
    ensures n <= |exits|
  {
    if exits == [] then 0
    else if exits[0] then 1
    else 1 + LinesRead(exits[1..])
  }

  /** The loop stops after exactly the first `/exit`: every line before it is read and
      handled, whatever it does, and nothing after it. */
  lemma {:induction false} LinesReadExit(before: seq<bool>, after: seq<bool>)
    requires forall j :: 0 <= j < |before| ==> !before[j]
    ensures LinesRead(before + [true] + after) == |before| + 1
    decreases |before|
  {
    var s := before + [true] + after;
    if before == [] {
      assert s[0];
    } else {
      assert s[0] == before[0];
      assert s[1..] == before[1..] + [true] + after;
      LinesReadExit(before[1..], after);
    }
  }

  /** Without an `/exit`, every line is read. */
  lemma {:induction false} NoExitReadsAll(exits: seq<bool>)
    requires forall j :: 0 <= j < |exits| ==> !exits[j]
    ensures LinesRead(exits) == |exits|
  {
    if exits != [] {
      NoExitReadsAll(exits[1..]);
    }
  }

  /** A line the loop reaches (one before `LinesRead`) is the last one read when it is
      an `/exit`, and otherwise the next line, if any, is reached too. */
  lemma {:induction false} LinesReadAt(exits: seq<bool>, k: nat)
    requires k < |exits| && k < LinesRead(exits)
    ensures exits[k] ==> LinesRead(exits) == k + 1
    ensures !exits[k] && k + 1 < |exits| ==> k + 1 < LinesRead(exits)
    decreases k
  {
    if k == 0 {
      if !exits[0] && 1 < |exits| {
        assert exits[1..] != [];
      }
    } else {
      assert !exits[0];
      LinesReadAt(exits[1..], k - 1);
      assert exits[1..][k - 1] == exits[k];
    }
  }

  /** `TTY`: the terminal chat with its command handler. */
  class Tty {
    const commands: CommandHandler
    /** The texts of the summariser chat, which `handleHistory` writes out in full. */
    const summariser: Summariser := DefaultSummariser

    constructor(commands: CommandHandler)
      ensures this.commands == commands
    {
      this.commands := commands;
    }

    /** `handleHistory(story)`: when the story has a last message, a new chat with the
        summariser prompt, the story's histories (added one by one) and the request to
        summarise that message is sent, and the answer becomes one more history of the
        story. Nothing else of the story changes. `summary` is what the model answered. */
    method HandleHistory(story: RichChat.Chat, world: World)
      returns (o: Outcome, ghost summary: Result<string>, ghost events: seq<Event>)
      modifies story, world
      ensures world.files == old(world.files) && world.rows == old(world.rows) && story.calls == old(story.calls)
      ensures world.trace == old(world.trace) + events
      ensures HistoryHandled(summariser, old(story.State()), story.State(), events, o, summary)
    {
      summary := Err("");
      if |story.messages| == 0 {
        return Pass, summary, [];
      }
      var last := story.messages[|story.messages| - 1];
      var history := new RichChat.Chat();
      history.prompt := summariser.prompt;
      var hs := story.histories;
      var i := 0;
      while i < |hs|
        modifies history
        invariant 0 <= i <= |hs|
        invariant history.State() == RichChat.ChatState(summariser.prompt, "", hs[..i], None, [])
      {
        history.AddHistory(hs[i]);
        assert hs[..i + 1] == hs[..i] + [hs[i]];
        i := i + 1;
      }
      assert hs[..i] == hs;
      history.AddUserMsg(summariser.lead + last.content);
      assert history.State() == SummaryChat(summariser, hs, last.content);
      var request := ToCompletionRequest(history.State());
      var response := world.Complete(request);
      summary := response;
      events := [Completion(request)];
      if response.Err? {
        return Fail(response.error), summary, events;
      }
      story.AddHistory(response.value);
      o := Pass;
    }

    /** `handleRequest(chat)`: see `RequestHandled`. `events` are the events it added. */
    method HandleRequest(chat: RichChat.Chat, world: World)
      returns (o: Outcome, ghost answer: Result<string>, ghost summary: Result<string>, ghost events: seq<Event>)
      modifies chat, world
      ensures world.files == old(world.files) && world.rows == old(world.rows) && chat.calls == old(chat.calls)
      ensures world.trace == old(world.trace) + events
      ensures RequestHandled(summariser, old(chat.State()), chat.State(), events, o, answer, summary)
    {
      summary := Err("");
      ghost var before := chat.State();
      var request := ToCompletionRequest(chat.State());
      var response := world.Complete(request);
      answer := response;
      events := [Completion(request)];
      if response.Err? {
        return Fail(response.error), answer, summary, events;
      }
      chat.AddAssistantMsg(response.value);
      ghost var answered := chat.State();
      ghost var rest;
      o, summary, rest := HandleAnswer(chat, world);
      Answered(summariser, before, chat.State(), rest, o, answer, summary);
      AppendTwo(old(world.trace), events, rest);
      events := events + rest;
    }

    /** The rest of `handleRequest` once the answer is added: `handleHistory`, then the
        repaint when it succeeded. */
    method HandleAnswer(chat: RichChat.Chat, world: World)
      returns (o: Outcome, ghost summary: Result<string>, ghost events: seq<Event>)
      requires |chat.messages| > 0
      modifies chat, world
      ensures world.files == old(world.files) && world.rows == old(world.rows) && chat.calls == old(chat.calls)
      ensures world.trace == old(world.trace) + events
      ensures AnswerHandled(summariser, old(chat.State()), chat.State(), events, o, summary)
    {
      ghost var before := chat.State();
      o, summary, events := HandleHistory(chat, world);
      Summarised(summariser, before, chat.State(), events, o, summary);
      if o.Fail? {
        return;
      }
      ghost var lines := Terminal.Lines(chat.messages);
      Terminal.Repaint(chat.messages, world);
      AppendThree(old(world.trace), events, [ScreenCleared], lines);
      events := events + [ScreenCleared] + lines;
    }


    /** `start(chat)` reading the lines `inputs`: the provider is pinged first (a failed
        ping ends it before any line is read); then each trimmed line is either added as a
        user message and sent, or handled as a command in a new context, and an error is
        written and the loop goes on. The loop stops after the first `/exit`, or when the
        input runs out; `read` is how many lines were read. */
    method Start(chat: RichChat.Chat, inputs: seq<string>, world: World) returns (o: Outcome, read: nat)
      modifies chat, world
      ensures world.rows == old(world.rows)
      ensures |world.trace| > |old(world.trace)| && world.trace[..|old(world.trace)| + 1] == old(world.trace) + [Pinged]
      ensures o.Fail? ==> read == 0 && world.trace == old(world.trace) + [Pinged] && chat.State() == old(chat.State())
      ensures o.Pass? ==> read == LinesRead(ExitFlags(inputs))
    {
      o := world.Ping();
      if o.Fail? {
        return o, 0;
      }
      ghost var t1 := world.trace;
      read := Loop(chat, inputs, world);
      assert world.trace[..|t1|] == t1;
    }

    /** The loop of `start` after the ping: it reads lines up to and including the first
        `/exit`, or all of them when there is none. */
    method Loop(chat: RichChat.Chat, inputs: seq<string>, world: World) returns (read: nat)
      modifies chat, world
      ensures read == LinesRead(ExitFlags(inputs))
      ensures world.rows == old(world.rows)
      ensures Extends(old(world.trace), world.trace)
    {
      ghost var exits := ExitFlags(inputs);
      read := 0;
      while read < |inputs|
        invariant 0 <= read <= LinesRead(exits)
        invariant read < |inputs| ==> read < LinesRead(exits)
        invariant world.rows == old(world.rows)
        invariant Extends(old(world.trace), world.trace)
      {
        ghost var t2 := world.trace;
        var stop := Turn(chat, inputs, read, world);
        ExtendsTrans(old(world.trace), t2, world.trace);
        LinesReadAt(exits, read);
        read := read + 1;
        if stop {
          break;
        }
      }
    }

    /** The turn of the loop on the line at `read`: the line is handled as `Step` says,
        and the loop stops exactly when that line is `/exit`. */
    method Turn(chat: RichChat.Chat, inputs: seq<string>, read: nat, world: World) returns (stop: bool)
      requires read < |inputs|
      modifies chat, world
      ensures stop == ExitFlags(inputs)[read]
      ensures world.rows == old(world.rows)
      ensures Extends(old(world.trace), world.trace)
    {
      ghost var r, events, answer, summary;
      stop, r, events, answer, summary := Step(chat, inputs[read], world);
    }

    /** One turn of the loop on the line `line`: the trimmed line is added as a user
        message and sent, as `RequestHandled` says, or handled as a command in a new
        context, as `Handled` says; either gives the outcome `r` and the events `events`.
        A failure's message is then written out. `exit` is the new context's `isDone`:
        whether the line was `/exit`. */
    method Step(chat: RichChat.Chat, line: string, world: World)
      returns (exit: bool, ghost r: Outcome, ghost events: seq<Event>, ghost answer: Result<string>,
               ghost summary: Result<string>)
      modifies chat, world
      ensures exit == IsExit(Trim(line))
      ensures world.rows == old(world.rows)
      ensures world.trace == old(world.trace) + events + (if r.Fail? then [Printed(r.error)] else [])
      ensures Extends(old(world.trace), world.trace)
      ensures !StartsWith(Trim(line), "/") ==>
        world.files == old(world.files) && chat.calls == old(chat.calls)
        && RequestHandled(summariser, old(chat.State()).(messages := old(chat.messages) + [Message(User, Trim(line))]),
                          chat.State(), events, r, answer, summary)
      ensures StartsWith(Trim(line), "/") ==>
        Handled(commands.sessionsFolder, commands.promptsFolder, Trim(line), old(Snap(chat, world)), Snap(chat, world),
                events, r)
    {
      var input := Trim(line);
      var o;
      answer, summary := Err(""), Err("");
      if !StartsWith(input, "/") {
        o, answer, summary, events := Say(chat, input, world);
        PlainLineNotExit(input);
        exit := false;
      } else {
        o, exit, events := Command(chat, input, world);
      }
      r := o;
      ghost var handled := Snap(chat, world);
      Report(o, world);
      assert Snap(chat, world) == handled;
      ghost var tail := if r.Fail? then [Printed(r.error)] else [];
      AppendTwo(old(world.trace), events, tail);
      ExtendsAppend(old(world.trace), events + tail);
    }

    /** The `catch` of a turn: a failure's message is written out. */
    method Report(o: Outcome, world: World)
      modifies world
      ensures world.rows == old(world.rows) && world.files == old(world.files)
      ensures world.trace == old(world.trace) + (if o.Fail? then [Printed(o.error)] else [])
    {
      if o.Fail? {
        world.Print(o.error);
      } else {
        assert world.trace == world.trace + [];
      }
    }

    /** A line that is not a command: it is added as a user message and the chat is
        sent, as `handleRequest` does. */
    method Say(chat: RichChat.Chat, input: string, world: World)
      returns (o: Outcome, ghost answer: Result<string>, ghost summary: Result<string>, ghost events: seq<Event>)
      modifies chat, world
      ensures world.rows == old(world.rows) && world.files == old(world.files) && chat.calls == old(chat.calls)
      ensures world.trace == old(world.trace) + events
      ensures RequestHandled(summariser, old(chat.State()).(messages := old(chat.messages) + [Message(User, input)]),
                             chat.State(), events, o, answer, summary)
      ensures |events| >= 1
              && events[0] == Completion(ToCompletionRequest(old(chat.State()).(messages := old(chat.messages) + [Message(User, input)])))
    {
      chat.AddUserMsg(input);
      o, answer, summary, events := HandleRequest(chat, world);
    }

    /** A command line, handled in a new context as `Handled` says; `exit` is that
        context's `isDone`. */
    method Command(chat: RichChat.Chat, input: string, world: World) returns (o: Outcome, exit: bool, ghost events: seq<Event>)
      modifies chat, world
      ensures exit == IsExit(input)
      ensures world.rows == old(world.rows)
      ensures world.trace == old(world.trace) + events
      ensures Handled(commands.sessionsFolder, commands.promptsFolder, input, old(Snap(chat, world)), Snap(chat, world),
                      events, o)
    {
      var ctx := new TtyContext(chat, this);
      o := commands.Handle(input, ctx, world);
      exit := ctx.isDone;
      events := world.trace[|old(world.trace)|..];
      assert world.trace == old(world.trace) + events;
    }
  }
}
