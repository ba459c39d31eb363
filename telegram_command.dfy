/** The command interpreter of the Telegram workers: a message that starts with a slash is
    read as `/verb args` and changes the conversation or answers with a reply. A thrown
    error is a failed outcome; the worker turns it into an error reply. */
module TelegramCommand {
  import opened Wrappers
  import opened Messages
  import opened Text
  import opened Effects
  import CommandSyntax
  import PromptFiles
  import DebugView
  import RichChat
  import TelegramClient

  datatype Action = ExitAction | UndoAction | RetryAction | PromptsAction | HistoryAction
                  | ResetAction | DebugAction | StoryAction | ModelAction | UnknownAction

  /** The `switch (prefix)` of `handle`, with its aliases; verbs are case-sensitive. */
  function ActionOf(verb: string): (a: Action)
    ensures a == UnknownAction <==> verb !in {"exit", "undo", "retry", "p", "prompts", "prompt", "h", "history",
                                               "reset", "debug", "s", "story", "m", "model", "models"}
  {
    if verb == "exit" then ExitAction
    else if verb == "undo" then UndoAction
    else if verb == "retry" then RetryAction
    else if verb == "p" || verb == "prompts" || verb == "prompt" then PromptsAction
    else if verb == "h" || verb == "history" then HistoryAction
    else if verb == "reset" then ResetAction
    else if verb == "debug" then DebugAction
    else if verb == "s" || verb == "story" then StoryAction
    else if verb == "m" || verb == "model" || verb == "models" then ModelAction
    else UnknownAction
  }

  /** Each short form does what its long form does. */
  lemma {:induction false} Aliases()
    ensures ActionOf("p") == ActionOf("prompt") == ActionOf("prompts") == PromptsAction
    ensures ActionOf("h") == ActionOf("history") == HistoryAction
    ensures ActionOf("s") == ActionOf("story") == StoryAction
    ensures ActionOf("m") == ActionOf("model") == ActionOf("models") == ModelAction
  {
  }

  /** Verbs are matched as written: another case is an unknown command. */
  lemma {:induction false} CaseSensitive()
    ensures ActionOf("Exit") == ActionOf("HISTORY") == UnknownAction
  {
  }

  datatype ResetTarget = ResetAll | ResetHistories | ResetStory | ResetPrompt | ResetMessages | ResetNone

  /** What `/reset args` clears: everything for blank arguments, otherwise the first of
      "history", "story", "prompt" and "messages" that starts with the arguments as
      written, and nothing when none does. */
  function ResetTargetOf(args: string): ResetTarget {
    if |Trim(args)| == 0 then ResetAll
    else if StartsWith("history", args) then ResetHistories
    else if StartsWith("story", args) then ResetStory
    else if StartsWith("prompt", args) then ResetPrompt
    else if StartsWith("messages", args) then ResetMessages
    else ResetNone
  }

  /** The field a reset word names. */
  function ResetWordTarget(word: string): ResetTarget {
    if word == "history" then ResetHistories
    else if word == "story" then ResetStory
    else if word == "prompt" then ResetPrompt
    else if word == "messages" then ResetMessages
    else ResetNone
  }

  /** Every abbreviation of a reset word, down to its first letter, resets that field:
      the four words start with different letters. */
  lemma {:induction false} ResetAbbreviation(word: string, k: nat)
    requires word == "history" || word == "story" || word == "prompt" || word == "messages"
    requires 1 <= k <= |word|
    ensures ResetTargetOf(word[..k]) == ResetWordTarget(word)
  {
    var a := word[..k];
    assert a[0] == word[0] && !IsWs(a[0]);
    TrimKeepsFirst(a);
  }

  /** A reset word followed by a space resets nothing: no reset word contains a space. */
  lemma {:induction false} ResetTrailingSpace(word: string, k: nat)
    requires word == "history" || word == "story" || word == "prompt" || word == "messages"
    requires 1 <= k <= |word|
    ensures ResetTargetOf(word[..k] + " ") == ResetNone
  {
    var a := word[..k] + " ";
    assert a[0] == word[0] && !IsWs(a[0]);
    TrimKeepsFirst(a);
    assert a[k] == ' ';
    NotPrefixAtSpace("history", a, k);
    NotPrefixAtSpace("story", a, k);
    NotPrefixAtSpace("prompt", a, k);
    NotPrefixAtSpace("messages", a, k);
  }

  lemma {:induction false} NotPrefixAtSpace(w: string, a: string, k: nat)
    requires k < |a| && a[k] == ' ' && forall i :: 0 <= i < |w| ==> w[i] != ' '
    ensures !StartsWith(w, a)
  {
  }

  /** What the worker hands the interpreter: the conversation, whether the conversation
      loop should stop, and the bot's configuration. */
  class Context {
    var done: bool
    const chat: RichChat.Chat
    const env: TelegramClient.BotEnv

    constructor(chat: RichChat.Chat, env: TelegramClient.BotEnv)
      ensures !done && this.chat == chat && this.env == env
    {
      done := false;
      this.chat := chat;
      this.env := env;
    }
  }

  /** What loading the prompt file at `path` did: the events it caused, the chat state
      after it and its outcome. A missing file leaves the chat as it was; a present one
      becomes the prompt, even when the reply after it fails. */
  predicate PromptLoaded(path: string, files: map<string, string>, before: RichChat.ChatState,
                         after: RichChat.ChatState, events: seq<Event>, o: Outcome)
  {
    if path !in files then
      o == Fail("File not found") && events == [FileRead(path)] && after == before
    else
      (o.Pass? || o == Fail("File not found"))
      && events == [FileRead(path), Replied("Prompt loaded.")] && after == before.(prompt := files[path])
  }

  /** The bot's own prompts folder, or the application's one, `root`, joined with the
      bot's namespace when the bot has none. */
  function PromptsFolder(root: string, env: TelegramClient.BotEnv): string {
    if env.promptsFolder != "" then env.promptsFolder else PathJoin(root, env.namespace)
  }

  /** What `/retry` did: nothing without a user message; otherwise one undo, the
      "Retrying" reply and, when that reply passed, one call of `sendRequest` handed a
      chat that ends with the last user message. */
  predicate RetryDone(before: Side, after: Side, events: seq<Event>, o: Outcome) {
    after.files == before.files
    && var i := FindLastUser(before.chat.messages);
    if i == -1 then
      o == Pass && events == [] && after == before
    else
      after.calls == before.calls + [RichChat.UndoCall]
      && ((events == [Replied("Retrying")] && o.Fail?)
          || (|events| == 2 && events[0] == Replied("Retrying")
              && events[1].CalledOn? && events[1].callback == SendRequest
              && var sent := events[1].chat.messages;
                 |sent| > 0 && sent[|sent| - 1] == Message(User, before.chat.messages[i].content)))
  }

  /** What `/prompts args` did once the folder `folder` was listed, given the prompt
      names in folder order: no prompt file, or no argument, replies a notice or the
      numbered names; otherwise the chosen prompt is loaded, or the choice's error
      returned with nothing more done. */
  predicate PromptChosen(folder: string, names: seq<string>, args: string, before: Side, after: Side,
                         events: seq<Event>, o: Outcome)
  {
    after.files == before.files && after.calls == before.calls
    && if names == [] then
         events == [Replied("No prompt available.")] && after.chat == before.chat
       else if args == "" then
         events == [Replied(CommandSyntax.Listing(names))] && after.chat == before.chat
       else
         var choice := PromptFiles.ChoosePrompt(names, args, false);
         if choice.Err? then
           o == Fail(choice.error) && events == [] && after.chat == before.chat
         else
           PromptLoaded(PathJoin(folder, choice.value + ".txt"), before.files, before.chat, after.chat, events, o)
  }

  /** What `/prompts args` did with the bot's prompts folder `folder`: it made and listed
      the folder; a failed listing fails with nothing more done; otherwise the prompt
      files are answered as `PromptChosen` says. */
  predicate PromptsDone(folder: string, args: string, before: Side, after: Side, events: seq<Event>, o: Outcome) {
    |events| >= 2 && events[0] == DirMade(folder) && events[1].Listed? && events[1].folder == folder
    && var listed := events[1].entries;
    if listed.Err? then
      o == Fail(listed.error) && |events| == 2 && after == before
    else
      PromptChosen(folder, PromptFiles.PromptNames(listed.value), args, before, after, events[2..], o)
  }

  /** `/prompts` as the program is wired: the file IO the interpreter is given implements
      only `read` and `write`, so its first call, `mkdir`, throws and nothing is listed,
      replied or loaded. */
  predicate PromptsDoneAsWritten(before: Side, after: Side, events: seq<Event>, o: Outcome) {
    o.Fail? && events == [] && after == before
  }

  /** As written, `/prompts` never lists the folder nor replies, where the intended
      handler always lists it. */
  lemma {:induction false} PromptsAsWrittenSilent(folder: string, args: string, before: Side, after: Side,
                                                  events: seq<Event>, o: Outcome, chosen: Side,
                                                  intended: seq<Event>, o2: Outcome)
    requires PromptsDoneAsWritten(before, after, events, o)
    requires PromptsDone(folder, args, before, chosen, intended, o2)
    ensures o.Fail? && after == before && events == []
    ensures |intended| >= 2 && intended[1].Listed? && intended != events
  {
  }

  /** What `/history` did: "History is empty", or "History:" and then, when that reply
      passed, the summaries one per line. Nothing else changes. */
  predicate HistoryDone(before: Side, after: Side, events: seq<Event>, o: Outcome) {
    after == before
    && if before.chat.histories == [] then events == [Replied("History is empty")]
       else (events == [Replied("History:")] && o.Fail?)
            || events == [Replied("History:"), Replied(Join(before.chat.histories, "\n"))]
  }

  /** What `/model args` did: it asked the provider for its models; a failed answer
      fails; otherwise one reply (no models, the numbered list, an invalid choice, or the
      selection), and only a valid choice changes the model. */
  predicate ModelDone(args: string, before: Side, after: Side, events: seq<Event>, o: Outcome) {
    after.files == before.files && after.calls == before.calls
    && |events| >= 1 && events[0].ModelsListed?
    && var answer := events[0].models;
    if answer.Err? then
      o == Fail(answer.error) && |events| == 1 && after.chat == before.chat
    else
      var models := answer.value.GetOr([]);
      var choice := PromptFiles.ChooseModel(models, args);
      events[1..] == [Replied(
        if models == [] then "No models available."
        else if args == "" then CommandSyntax.Listing(models)
        else if choice.None? then "Invalid models selected"
        else "Model selected.")]
      && after.chat == (if models != [] && args != "" && choice.Some? then before.chat.(model := Some(choice.value))
                        else before.chat)
  }

  /** What `/reset args` did: it cleared what `ResetTargetOf(args)` names and replied
      so, or did nothing at all. */
  predicate ResetDone(args: string, before: Side, after: Side, events: seq<Event>, o: Outcome) {
    after.files == before.files
    && match ResetTargetOf(args)
       case ResetAll => after.calls == before.calls + [RichChat.ClearCall] && events == [Replied("Chat reset")]
       case ResetHistories =>
         after.calls == before.calls && after.chat == before.chat.(histories := []) && events == [Replied("History reset")]
       case ResetStory =>
         after.calls == before.calls && after.chat == before.chat.(story := "") && events == [Replied("Story reset")]
       case ResetPrompt =>
         after.calls == before.calls && after.chat == before.chat.(prompt := "") && events == [Replied("Prompt reset")]
       case ResetMessages =>
         after.calls == before.calls + [RichChat.ClearMessagesCall] && events == [Replied("Messages reset")]
       case ResetNone => o == Pass && after == before && events == []
  }

  /** What the `switch` of `handle` did for `action`, given the bot's prompts folder.
      `/undo` undoes and says so; `/story` sets a non-empty argument as the story;
      `/debug` replies the chat with its model; an unknown verb replies "Invalid
      command"; `/exit` changes nothing here. No command touches the files. */
  predicate Dispatched(folder: string, action: Action, args: string,
                       before: Side, after: Side, events: seq<Event>, o: Outcome)
  {
    match action
    case ExitAction => o == Pass && events == [] && after == before
    case UndoAction =>
      after.calls == before.calls + [RichChat.UndoCall] && after.files == before.files
      && events == [Replied("Message undone.")]
    case RetryAction => RetryDone(before, after, events, o)
    case PromptsAction => PromptsDone(folder, args, before, after, events, o)
    case HistoryAction => HistoryDone(before, after, events, o)
    case ResetAction => ResetDone(args, before, after, events, o)
    case DebugAction => after == before && events == [Replied(DebugView.DebugText(before.chat, true))]
    case StoryAction =>
      o == Pass && events == [] && after == before.(chat := if args == "" then before.chat else before.chat.(story := args))
    case ModelAction => ModelDone(args, before, after, events, o)
    case UnknownAction => events == [Replied("Invalid command")] && after == before
  }

  /** What `handle(command, context)` did: input that is not a command fails with
      "Invalid input" and nothing done; a command is dispatched on its verb. */
  predicate Handled(folder: string, command: string, before: Side, after: Side, events: seq<Event>, o: Outcome) {
    match CommandSyntax.ParseCommand(command)
    case None => o == Fail("Invalid input") && events == [] && after == before
    case Some(c) => Dispatched(folder, ActionOf(c.verb), c.args, before, after, events, o)
  }

  /** Whether `handle` asks the conversation loop to stop. */
  predicate Exits(command: string) {
    CommandSyntax.ParseCommand(command).Some? && ActionOf(CommandSyntax.ParseCommand(command).value.verb) == ExitAction
  }

  /** No command touches the files. */
  lemma {:induction false} HandledKeepsFiles(folder: string, command: string, before: Side, after: Side,
                                             events: seq<Event>, o: Outcome)
    requires Handled(folder, command, before, after, events, o)
    ensures after.files == before.files
  {
    match CommandSyntax.ParseCommand(command)
    case None =>
    case Some(c) =>
      match ActionOf(c.verb)
      case ResetAction =>
        match ResetTargetOf(c.args) {
          case ResetAll =>
          case _ =>
        }
      case _ =>
  }

  /** The reply that ends each `/reset` branch is its only event; with the change the
      branch made, `ResetDone` holds. */
  lemma {:induction false} ResetReplied(args: string, before: Side, after: Side, t0: seq<Event>, t1: seq<Event>,
                                        text: string, o: Outcome)
    requires t1 == t0 + [Replied(text)] && after.files == before.files
    requires match ResetTargetOf(args)
             case ResetAll => text == "Chat reset" && after.calls == before.calls + [RichChat.ClearCall]
             case ResetHistories => text == "History reset" && after.calls == before.calls
                                    && after.chat == before.chat.(histories := [])
             case ResetStory => text == "Story reset" && after.calls == before.calls
                                && after.chat == before.chat.(story := "")
             case ResetPrompt => text == "Prompt reset" && after.calls == before.calls
                                 && after.chat == before.chat.(prompt := "")
             case ResetMessages => text == "Messages reset" && after.calls == before.calls + [RichChat.ClearMessagesCall]
             case ResetNone => false
    ensures ResetDone(args, before, after, t1[|t0|..], o)
  {
    assert t1[|t0|..] == [Replied(text)];
  }

  class Interpreter {
    /** The application-wide prompts folder. */
    const promptsRoot: string

    constructor(promptsRoot: string)
      ensures this.promptsRoot == promptsRoot
    {
      this.promptsRoot := promptsRoot;
    }

    /** `handle(command, context)`: as `Handled` says for the bot's prompts folder, and
        `/exit` sets `done`. */
    method Handle(command: string, ctx: Context, world: World) returns (o: Outcome)
      modifies ctx, ctx.chat, world
      ensures world.rows == old(world.rows) && Extends(old(world.trace), world.trace)
      ensures Handled(PromptsFolder(promptsRoot, ctx.env), command, old(Snap(ctx.chat, world)), Snap(ctx.chat, world),
                      world.trace[|old(world.trace)|..], o)
      ensures ctx.done == (old(ctx.done) || Exits(command))
    {
      var parsed := CommandSyntax.ParseCommand(command);
      if parsed.None? {
        return Fail("Invalid input");
      }
      o := Dispatch(ActionOf(parsed.value.verb), parsed.value.args, ctx, world);
    }

    /** The `switch (prefix)` of `handle`, once the verb is known. */
    method Dispatch(action: Action, args: string, ctx: Context, world: World) returns (o: Outcome)
      modifies ctx, ctx.chat, world
      ensures world.rows == old(world.rows) && Extends(old(world.trace), world.trace)
      ensures Dispatched(PromptsFolder(promptsRoot, ctx.env), action, args, old(Snap(ctx.chat, world)), Snap(ctx.chat, world),
                         world.trace[|old(world.trace)|..], o)
      ensures ctx.done == (old(ctx.done) || action == ExitAction)
    {
      match action
      case ExitAction =>
        ctx.done := true;
        o := Pass;
      case UndoAction =>
        ctx.chat.Undo();
        o := world.Reply("Message undone.");
        assert world.trace[|old(world.trace)|..] == [Replied("Message undone.")];
      case RetryAction =>
        o := Retry(ctx, world);
      case PromptsAction =>
        o := Prompts(ctx, world, args);
      case HistoryAction =>
        o := History(ctx, world);
      case ResetAction =>
        o := Reset(ctx, world, args);
      case DebugAction =>
        o := Debug(ctx, world);
      case StoryAction =>
        Story(ctx, args);
        o := Pass;
      case ModelAction =>
        o := Model(ctx, world, args);
      case UnknownAction =>
        o := world.Reply("Invalid command");
        assert world.trace[|old(world.trace)|..] == [Replied("Invalid command")];
    }

    /** `/retry`: the last user message is asked again. The chat is undone, the message
        added back, "Retrying" replied and the chat handed to `sendRequest`; nothing
        happens when there is no user message. */
    method Retry(ctx: Context, world: World) returns (o: Outcome)
      modifies ctx.chat, world
      ensures world.rows == old(world.rows) && Extends(old(world.trace), world.trace)
      ensures RetryDone(old(Snap(ctx.chat, world)), Snap(ctx.chat, world), world.trace[|old(world.trace)|..], o)
    {
      var messages := ctx.chat.messages;
      var index := FindLastUser(messages);
      if index == -1 {
        return Pass;
      }
      var lastMsg := messages[index];
      ctx.chat.Undo();
      ctx.chat.AddUserMsg(lastMsg.content);
      o := world.Reply("Retrying");
      if o.Fail? {
        assert world.trace[|old(world.trace)|..] == [Replied("Retrying")];
        return;
      }
      ghost var handed := ctx.chat.State();
      o := world.CallOn(SendRequest, ctx.chat);
      assert world.trace[|old(world.trace)|..] == [Replied("Retrying"), CalledOn(SendRequest, handed)];
    }

    /** `/prompts args`: the prompt files of the bot's folder (created when missing) are
        listed, numbered from 0, for no argument; otherwise the one the argument chooses
        (an offset or a name) becomes the prompt. */
    method Prompts(ctx: Context, world: World, args: string) returns (o: Outcome)
      modifies ctx.chat, world
      ensures world.rows == old(world.rows) && Extends(old(world.trace), world.trace)
      ensures PromptsDone(PromptsFolder(promptsRoot, ctx.env), args, old(Snap(ctx.chat, world)), Snap(ctx.chat, world),
                          world.trace[|old(world.trace)|..], o)
    {
      var folder := PromptsFolder(promptsRoot, ctx.env);
      world.MakeDir(folder);
      var entries := world.List(folder);
      ghost var head := [DirMade(folder), Listed(folder, entries)];
      if entries.Err? {
        assert world.trace[|old(world.trace)|..] == head;
        return Fail(entries.error);
      }
      o := Choose(ctx, world, folder, PromptFiles.PromptNames(entries.value), args);
      TraceAfter(old(world.trace), head, world.trace);
    }

    /** The rest of `/prompts`, given the prompt names in folder order. */
    method Choose(ctx: Context, world: World, folder: string, names: seq<string>, args: string) returns (o: Outcome)
      modifies ctx.chat, world
      ensures world.rows == old(world.rows) && Extends(old(world.trace), world.trace)
      ensures PromptChosen(folder, names, args, old(Snap(ctx.chat, world)), Snap(ctx.chat, world),
                           world.trace[|old(world.trace)|..], o)
    {
      if |names| == 0 {
        o := world.Reply("No prompt available.");
        assert world.trace[|old(world.trace)|..] == [Replied("No prompt available.")];
        return;
      }
      if args == "" {
        var text := CommandSyntax.PrintArray(names);
        o := world.Reply(text);
        assert world.trace[|old(world.trace)|..] == [Replied(text)];
        return;
      }
      var choice := PromptFiles.ChoosePrompt(names, args, false);
      if choice.Err? {
        return Fail(choice.error);
      }
      o := LoadPrompt(ctx, world, PathJoin(folder, choice.value + ".txt"));
    }

    /** The `try` block of `/prompts`: the file is read into the prompt and "Prompt
        loaded." replied; any failure becomes "File not found". */
    method LoadPrompt(ctx: Context, world: World, path: string) returns (o: Outcome)
      modifies ctx.chat, world
      ensures world.files == old(world.files) && world.rows == old(world.rows) && ctx.chat.calls == old(ctx.chat.calls)
      ensures |world.trace| >= |old(world.trace)|  && world.trace[..|old(world.trace)|] == old(world.trace)
      ensures PromptLoaded(path, old(world.files), old(ctx.chat.State()), ctx.chat.State(), world.trace[|old(world.trace)|..], o)
    {
      var content := world.Read(path);
      if content.Err? {
        return Fail("File not found");
      }
      ctx.chat.prompt := content.value;
      o := world.Reply("Prompt loaded.");
      if o.Fail? {
        o := Fail("File not found");
      }
    }

    /** `/history`: the story summaries, one per line, or "History is empty". */
    method History(ctx: Context, world: World) returns (o: Outcome)
      modifies world
      ensures world.rows == old(world.rows) && Extends(old(world.trace), world.trace)
      ensures HistoryDone(old(Snap(ctx.chat, world)), Snap(ctx.chat, world), world.trace[|old(world.trace)|..], o)
    {
      var histories := ctx.chat.histories;
      if |histories| == 0 {
        o := world.Reply("History is empty");
      } else {
        o := world.Reply("History:");
        if o.Fail? {
          return;
        }
        o := world.Reply(Join(histories, "\n"));
      }
    }

    /** `/story args`: a non-empty argument becomes the story setting. */
    method Story(ctx: Context, args: string)
      modifies ctx.chat
      ensures ctx.chat.State() == (if args == "" then old(ctx.chat.State()) else old(ctx.chat.State()).(story := args))
      ensures ctx.chat.calls == old(ctx.chat.calls)
    {
      if |args| == 0 {
        return;
      }
      ctx.chat.story := args;
    }

    /** `/model args`: the provider's models are listed, numbered from 0, for no argument;
        otherwise the one the argument chooses becomes the chat's model. */
    method Model(ctx: Context, world: World, args: string) returns (o: Outcome)
      modifies ctx.chat, world
      ensures world.rows == old(world.rows) && Extends(old(world.trace), world.trace)
      ensures ModelDone(args, old(Snap(ctx.chat, world)), Snap(ctx.chat, world), world.trace[|old(world.trace)|..], o)
    {
      var r := world.GetModels();
      assert world.trace[|old(world.trace)|..] == [ModelsListed(r)];
      if r.Err? {
        return Fail(r.error);
      }
      var line;
      if r.value.None? || |r.value.value| == 0 {
        line := "No models available.";
      } else if |args| == 0 {
        line := CommandSyntax.PrintArray(r.value.value);
      } else {
        var selected := PromptFiles.ChooseModel(r.value.value, args);
        if selected.None? {
          line := "Invalid models selected";
        } else {
          ctx.chat.model := Some(selected.value);
          line := "Model selected.";
        }
      }
      o := world.Reply(line);
      assert world.trace[|old(world.trace)|..] == [ModelsListed(r), Replied(line)];
    }

    /** `/debug`: the prompt, the story, the shortened messages and the model. */
    method Debug(ctx: Context, world: World) returns (o: Outcome)
      modifies world
      ensures world.rows == old(world.rows) && Extends(old(world.trace), world.trace)
      ensures old(Snap(ctx.chat, world)) == Snap(ctx.chat, world)
      ensures world.trace[|old(world.trace)|..] == [Replied(DebugView.DebugText(ctx.chat.State(), true))]
    {
      o := world.Reply(DebugView.DebugText(ctx.chat.State(), true));
      assert world.trace[|old(world.trace)|..] == [Replied(DebugView.DebugText(ctx.chat.State(), true))];
    }

    /** `/reset args`: clears what `ResetTargetOf(args)` names and says so. */
    method Reset(ctx: Context, world: World, args: string) returns (o: Outcome)
      modifies ctx.chat, world
      ensures world.rows == old(world.rows) && Extends(old(world.trace), world.trace)
      ensures ResetDone(args, old(Snap(ctx.chat, world)), Snap(ctx.chat, world), world.trace[|old(world.trace)|..], o)
    {
      ghost var before := Snap(ctx.chat, world);
      if |Trim(args)| == 0 {
        ctx.chat.Clear();
        o := world.Reply("Chat reset");
        ResetReplied(args, before, Snap(ctx.chat, world), old(world.trace), world.trace, "Chat reset", o);
      } else if StartsWith("history", args) {
        ctx.chat.histories := [];
        o := world.Reply("History reset");
        ResetReplied(args, before, Snap(ctx.chat, world), old(world.trace), world.trace, "History reset", o);
      } else if StartsWith("story", args) {
        ctx.chat.story := "";
        o := world.Reply("Story reset");
        ResetReplied(args, before, Snap(ctx.chat, world), old(world.trace), world.trace, "Story reset", o);
      } else if StartsWith("prompt", args) {
        ctx.chat.prompt := "";
        o := world.Reply("Prompt reset");
        ResetReplied(args, before, Snap(ctx.chat, world), old(world.trace), world.trace, "Prompt reset", o);
      } else if StartsWith("messages", args) {
        ctx.chat.ClearMessages();
        o := world.Reply("Messages reset");
        ResetReplied(args, before, Snap(ctx.chat, world), old(world.trace), world.trace, "Messages reset", o);
      } else {
        o := Pass;
        assert world.trace[|old(world.trace)|..] == [];
      }
    }
  }
}
