/** The command interpreter of the terminal chat: a line that starts with a slash is read
    as `/verb args`; the answers are written to the terminal, and a thrown error is a
    failed outcome that the terminal loop writes out. */
module TtyCommand {
  import opened Wrappers
  import opened Messages
  import opened Text
  import opened Effects
  import CommandSyntax
  import PromptFiles
  import DebugView
  import RichChat
  import Terminal

  datatype Action = ExitAction | SaveAction | LoadAction | UndoAction | RetryAction | PromptsAction
                  | HistoryAction | ResetAction | DebugAction | StoryAction | ModelAction | UnknownAction

  /** The `switch (prefix)` of `handle`, with its aliases; verbs are case-sensitive. */
  function ActionOf(verb: string): (a: Action)
    ensures a == UnknownAction <==> verb !in {"exit", "save", "load", "undo", "retry", "p", "prompts", "prompt",
                                               "h", "history", "reset", "debug", "s", "story", "m", "model", "models"}
  {
    if verb == "exit" then ExitAction
    else if verb == "save" then SaveAction
    else if verb == "load" then LoadAction
    else if verb == "undo" then UndoAction
    else if verb == "retry" then RetryAction
    else if verb == "p" || verb == "prompts" || verb == "prompt" then PromptsAction
    else if verb == "h" || verb == "history" then HistoryAction
    else if verb == "reset" then ResetAction
    else if verb == "debug" then DebugAction
    else if verb == "s" || verb == "story" then StoryAction
    else if verb == "m" || verb == "model" || verb == "models" then ModelAction
    else UnknownAction
  }

  /** What the terminal hands the interpreter: the conversation and whether the loop
      should stop. */
  class Context {
    var done: bool
    const chat: RichChat.Chat

    constructor(chat: RichChat.Chat)
      ensures !done && this.chat == chat
    {
      done := false;
      this.chat := chat;
    }
  }

  /** What loading the prompt file at `path` did: a missing file fails with "File not
      found" and leaves the chat as it was; a present one becomes the prompt and "Prompt
      loaded." is written. */
  predicate PromptLoaded(path: string, files: map<string, string>, before: RichChat.ChatState,
                         after: RichChat.ChatState, events: seq<Event>, o: Outcome)
  {
    if path !in files then
      o == Fail("File not found") && events == [FileRead(path)] && after == before
    else
      o == Pass && events == [FileRead(path), Printed("Prompt loaded.")] && after == before.(prompt := files[path])
  }

  /** What `save(context, args)` did with the sessions folder `folder`: a name `/save`
      refuses fails with nothing done; otherwise the folder is made, the chat's document
      written to the session's path and, when that passed, "Chat saved" written. */
  predicate SaveDone(folder: string, args: string, before: Side, after: Side, events: seq<Event>, o: Outcome) {
    after.chat == before.chat && after.calls == before.calls
    && if CommandSyntax.SaveName(args).Err? then
         o == Fail("Invalid file name") && events == [] && after.files == before.files
       else
         var path := CommandSyntax.SessionPath(folder, CommandSyntax.SaveName(args).value);
         var doc := RichChat.DehydrateState(before.chat);
         if o.Pass? then
           after.files == before.files[path := doc]
           && events == [DirMade(folder), FileWritten(path, doc), Printed("Chat saved")]
         else
           after.files == before.files && events == [DirMade(folder), FileWritten(path, doc)]
  }

  /** What `load(context, args)` did: a name `/load` refuses fails with nothing done;
      otherwise the session's file is read; the chat becomes the state its text hydrates
      to and "Chat loaded" is written, or it stays as it was when the file is missing or
      does not hydrate. */
  predicate LoadDone(folder: string, args: string, before: Side, after: Side, events: seq<Event>, o: Outcome) {
    after.files == before.files && after.calls == before.calls
    && if CommandSyntax.LoadName(args).None? then
         o == Fail("Invalid sessions id") && events == [] && after.chat == before.chat
       else
         var path := CommandSyntax.SessionPath(folder, CommandSyntax.LoadName(args).value);
         if path !in before.files then o.Fail? && after.chat == before.chat && events == [FileRead(path)]
         else
           var read := RichChat.HydrateText(before.files[path]);
           if read.Ok? then o == Pass && after.chat == read.value && events == [FileRead(path), Printed("Chat loaded")]
           else o == Fail(read.error) && after.chat == before.chat && events == [FileRead(path)]
  }

  /** What `retry(context)` did: nothing without a user message; otherwise one undo and
      one call of `sendRequest`, handed a chat that ends with the last user message. */
  predicate RetryDone(before: Side, after: Side, events: seq<Event>, o: Outcome) {
    after.files == before.files
    && var i := FindLastUser(before.chat.messages);
    if i == -1 then
      o == Pass && events == [] && after == before
    else
      after.calls == before.calls + [RichChat.UndoCall]
      && |events| == 1 && events[0].CalledOn? && events[0].callback == SendRequest
      && var handed := events[0].chat.messages;
         |handed| > 0 && handed[|handed| - 1] == Message(User, before.chat.messages[i].content)
  }

  /** What `prompts(context, args)` did with the prompts folder `folder`: it made and
      listed the folder; a failed listing fails; no prompt file, or no argument, prints
      a notice or the numbered names; otherwise the chosen prompt is loaded, or the
      choice's error returned. */
  predicate PromptsDone(folder: string, args: string, before: Side, after: Side, events: seq<Event>, o: Outcome) {
    after.files == before.files && after.calls == before.calls
    && |events| >= 2 && events[0] == DirMade(folder) && events[1].Listed? && events[1].folder == folder
    && var listed := events[1].entries;
    if listed.Err? then
      o == Fail(listed.error) && |events| == 2 && after.chat == before.chat
    else
      var names := PromptFiles.PromptNames(listed.value);
      if names == [] then
        o == Pass && events[2..] == [Printed("No prompt available.")] && after.chat == before.chat
      else if args == "" then
        o == Pass && events[2..] == [Printed(CommandSyntax.Listing(names))] && after.chat == before.chat
      else
        var choice := PromptFiles.ChoosePrompt(names, args, false);
        if choice.Err? then
          o == Fail(choice.error) && |events| == 2 && after.chat == before.chat
        else
          PromptLoaded(PathJoin(folder, choice.value + ".txt"), before.files, before.chat, after.chat, events[2..], o)
  }

  /** `save` as the program is wired: the file IO the terminal is given implements only
      `read` and `write`, so the `mkdir` call throws once a name is accepted, before
      anything is written or printed. */
  predicate SaveDoneAsWritten(args: string, before: Side, after: Side, events: seq<Event>, o: Outcome) {
    after == before && events == []
    && if CommandSyntax.SaveName(args).Err? then o == Fail("Invalid file name") else o.Fail?
  }

  /** As written, `/save` with a name it accepts keeps no session, where the intended
      handler writes the chat's document to the session's path. */
  lemma {:induction false} SaveAsWrittenKeepsNothing(folder: string, args: string, before: Side,
                                                     after: Side, events: seq<Event>, o: Outcome,
                                                     saved: Side, intended: seq<Event>)
    requires CommandSyntax.SaveName(args).Ok?
    requires SaveDoneAsWritten(args, before, after, events, o)
    requires SaveDone(folder, args, before, saved, intended, Pass)
    ensures o.Fail? && after.files == before.files && events == []
    ensures var path := CommandSyntax.SessionPath(folder, CommandSyntax.SaveName(args).value);
            path in saved.files && saved.files[path] == RichChat.DehydrateState(before.chat)
    ensures intended[0] == DirMade(folder) && intended != events
  {
  }

  /** A name `/save` refuses fails the same way as written and as intended. */
  lemma {:induction false} BadNameAsWrittenSame(folder: string, args: string, before: Side,
                                                after: Side, events: seq<Event>, o: Outcome)
    requires CommandSyntax.SaveName(args).Err?
    ensures SaveDoneAsWritten(args, before, after, events, o) <==> SaveDone(folder, args, before, after, events, o)
  {
  }

  /** `prompts` as the program is wired: its first call, `mkdir`, throws, so nothing is
      listed, printed or loaded. */
  predicate PromptsDoneAsWritten(before: Side, after: Side, events: seq<Event>, o: Outcome) {
    o.Fail? && events == [] && after == before
  }

  /** As written, `/prompts` never lists the folder, where the intended handler always does. */
  lemma {:induction false} PromptsAsWrittenSilent(folder: string, args: string, before: Side, after: Side,
                                                  events: seq<Event>, o: Outcome, chosen: Side,
                                                  intended: seq<Event>, o2: Outcome)
    requires PromptsDoneAsWritten(before, after, events, o)
    requires PromptsDone(folder, args, before, chosen, intended, o2)
    ensures o.Fail? && after == before && events == []
    ensures |intended| >= 2 && intended[1].Listed? && intended != events
  {
  }

  /** What `model(context, args)` did: it asked the provider for its models; a failed
      answer fails; otherwise one line is printed (no models, the numbered list, an
      invalid choice, or the selection) and only a valid choice changes the model. */
  predicate ModelDone(args: string, before: Side, after: Side, events: seq<Event>, o: Outcome) {
    after.files == before.files && after.calls == before.calls
    && |events| >= 1 && events[0].ModelsListed?
    && var answer := events[0].models;
    if answer.Err? then
      o == Fail(answer.error) && |events| == 1 && after.chat == before.chat
    else
      var models := answer.value.GetOr([]);
      var choice := PromptFiles.ChooseModel(models, args);
      o == Pass
      && events[1..] == [Printed(
           if models == [] then "No models available."
           else if args == "" then CommandSyntax.Listing(models)
           else if choice.None? then "Invalid models selected"
           else "Model selected.")]
      && after.chat == (if models != [] && args != "" && choice.Some? then before.chat.(model := Some(choice.value))
                        else before.chat)
  }

  /** What the `switch` of `handle` did for `action`, given the sessions and prompts
      folders. `/undo` undoes and repaints the screen from the chat left; `/reset`
      clears the chat and the screen; `/story` sets a non-empty argument as the story;
      `/history` prints the summaries; `/debug` prints the chat without its model; an
      unknown verb prints "Invalid command"; `/exit` changes nothing here. */
  predicate Dispatched(sessions: string, prompts: string, action: Action, args: string,
                       before: Side, after: Side, events: seq<Event>, o: Outcome)
  {
    match action
    case ExitAction => o == Pass && events == [] && after == before
    case SaveAction => SaveDone(sessions, args, before, after, events, o)
    case LoadAction => LoadDone(sessions, args, before, after, events, o)
    case UndoAction =>
      o == Pass && after.calls == before.calls + [RichChat.UndoCall] && after.files == before.files
      && events == [ScreenCleared] + Terminal.Lines(after.chat.messages)
    case RetryAction => RetryDone(before, after, events, o)
    case PromptsAction => PromptsDone(prompts, args, before, after, events, o)
    case HistoryAction =>
      o == Pass && after == before
      && events == (if before.chat.histories == [] then [Printed("History is empty")]
                    else [Printed("History:"), Printed(Join(before.chat.histories, "\n"))])
    case ResetAction =>
      o == Pass && after.calls == before.calls + [RichChat.ClearCall] && after.files == before.files
      && events == [ScreenCleared, Printed("Chat reset")]
    case DebugAction => o == Pass && after == before && events == [Printed(DebugView.DebugText(before.chat, false))]
    case StoryAction =>
      o == Pass && events == [] && after == before.(chat := if args == "" then before.chat else before.chat.(story := args))
    case ModelAction => ModelDone(args, before, after, events, o)
    case UnknownAction => o == Pass && events == [Printed("Invalid command")] && after == before
  }

  /** What `handle(command, context)` did: input that is not a command fails with
      "Invalid input" and nothing done; a command is dispatched on its verb. */
  predicate Handled(sessions: string, prompts: string, command: string,
                    before: Side, after: Side, events: seq<Event>, o: Outcome)
  {
    match CommandSyntax.ParseCommand(command)
    case None => o == Fail("Invalid input") && events == [] && after == before
    case Some(c) => Dispatched(sessions, prompts, ActionOf(c.verb), c.args, before, after, events, o)
  }

  /** Whether `handle` asks the terminal loop to stop. */
  predicate Exits(command: string) {
    CommandSyntax.ParseCommand(command).Some? && ActionOf(CommandSyntax.ParseCommand(command).value.verb) == ExitAction
  }

  class Interpreter {
    const sessionsFolder: string
    const promptsFolder: string

    constructor(sessionsFolder: string, promptsFolder: string)
      ensures this.sessionsFolder == sessionsFolder && this.promptsFolder == promptsFolder
    {
      this.sessionsFolder := sessionsFolder;
      this.promptsFolder := promptsFolder;
    }

    /** `handle(command, context)`: as `Handled` says, and `/exit` sets `done`. */
    method Handle(command: string, ctx: Context, world: World) returns (o: Outcome)
      modifies ctx, ctx.chat, world
      ensures world.rows == old(world.rows) && Extends(old(world.trace), world.trace)
      ensures Handled(sessionsFolder, promptsFolder, command, old(Snap(ctx.chat, world)), Snap(ctx.chat, world),
                      world.trace[|old(world.trace)|..], o)
      ensures ctx.done == (old(ctx.done) || Exits(command))
    {
      var parsed := CommandSyntax.ParseCommand(command);
      if parsed.None? {
        return Fail("Invalid input");
      }
      o := Dispatch(ActionOf(parsed.value.verb), parsed.value.args, ctx, world);
    }

    /** The `switch (prefix)` of `handle`, once the verb is known. */
    method Dispatch(action: Action, args: string, ctx: Context, world: World) returns (o: Outcome)
      modifies ctx, ctx.chat, world
      ensures world.rows == old(world.rows) && Extends(old(world.trace), world.trace)
      ensures Dispatched(sessionsFolder, promptsFolder, action, args, old(Snap(ctx.chat, world)), Snap(ctx.chat, world),
                         world.trace[|old(world.trace)|..], o)
      ensures ctx.done == (old(ctx.done) || action == ExitAction)
    {
      match action
      case ExitAction =>
        ctx.done := true;
        o := Pass;
      case SaveAction =>
        o := Save(ctx, world, args);
      case LoadAction =>
        o := Load(ctx, world, args);
      case UndoAction =>
        Undo(ctx, world);
        o := Pass;
      case RetryAction =>
        o := Retry(ctx, world);
      case PromptsAction =>
        o := Prompts(ctx, world, args);
      case HistoryAction =>
        History(ctx, world);
        o := Pass;
      case ResetAction =>
        Reset(ctx, world);
        o := Pass;
      case DebugAction =>
        Debug(ctx, world);
        o := Pass;
      case StoryAction =>
        Story(ctx, args);
        o := Pass;
      case ModelAction =>
        o := Model(ctx, world, args);
      case UnknownAction =>
        world.Print("Invalid command");
        o := Pass;
        assert world.trace[|old(world.trace)|..] == [Printed("Invalid command")];
    }

    /** `/undo`: the chat is undone and the screen repainted from what is left. */
    method Undo(ctx: Context, world: World)
      modifies ctx.chat, world
      ensures world.rows == old(world.rows) && world.files == old(world.files)
      ensures ctx.chat.calls == old(ctx.chat.calls) + [RichChat.UndoCall]
      ensures Extends(old(world.trace), world.trace)
      ensures world.trace[|old(world.trace)|..] == [ScreenCleared] + Terminal.Lines(ctx.chat.messages)
    {
      ctx.chat.Undo();
      Terminal.Repaint(ctx.chat.messages, world);
    }

    /** `/reset`: the chat is cleared, then the screen, and "Chat reset" printed. */
    method Reset(ctx: Context, world: World)
      modifies ctx.chat, world
      ensures world.rows == old(world.rows) && world.files == old(world.files)
      ensures ctx.chat.calls == old(ctx.chat.calls) + [RichChat.ClearCall]
      ensures Extends(old(world.trace), world.trace)
      ensures world.trace[|old(world.trace)|..] == [ScreenCleared, Printed("Chat reset")]
    {
      ctx.chat.Clear();
      world.ClearScreen();
      world.Print("Chat reset");
    }

    /** `save(context, args)`: the dehydrated chat is written to `<sessions>/<name>.json`
        after the folder is made, and "Chat saved" written after the file. The name is
        "last_session" for no argument, otherwise the argument, which may only hold
        letters, digits and spaces. */
    method Save(ctx: Context, world: World, args: string) returns (o: Outcome)
      modifies world
      ensures world.rows == old(world.rows) && Extends(old(world.trace), world.trace)
      ensures SaveDone(sessionsFolder, args, old(Snap(ctx.chat, world)), Snap(ctx.chat, world),
                       world.trace[|old(world.trace)|..], o)
    {
      var name := CommandSyntax.SaveName(args);
      if name.Err? {
        return Fail(name.error);
      }
      var json := ctx.chat.Dehydrate();
      var path := CommandSyntax.SessionPath(sessionsFolder, name.value);
      world.MakeDir(sessionsFolder);
      o := world.Write(path, json);
      if o.Fail? {
        assert world.trace[|old(world.trace)|..] == [DirMade(sessionsFolder), FileWritten(path, json)];
        return;
      }
      world.Print("Chat saved");
      assert world.trace[|old(world.trace)|..] == [DirMade(sessionsFolder), FileWritten(path, json), Printed("Chat saved")];
    }

    /** `load(context, args)`: the chat is hydrated from `<sessions>/<name>.json`, where
        the name is "last_session" for no argument and otherwise the argument, which may
        only hold letters and digits; "Chat loaded" is written after. */
    method Load(ctx: Context, world: World, args: string) returns (o: Outcome)
      modifies ctx.chat, world
      ensures world.rows == old(world.rows) && Extends(old(world.trace), world.trace)
      ensures LoadDone(sessionsFolder, args, old(Snap(ctx.chat, world)), Snap(ctx.chat, world),
                       world.trace[|old(world.trace)|..], o)
    {
      var name := CommandSyntax.LoadName(args);
      if name.None? {
        return Fail("Invalid sessions id");
      }
      var path := CommandSyntax.SessionPath(sessionsFolder, name.value);
      var content := world.Read(path);
      if content.Err? {
        assert world.trace[|old(world.trace)|..] == [FileRead(path)];
        return Fail(content.error);
      }
      o := ctx.chat.Hydrate(content.value);
      if o.Fail? {
        assert world.trace[|old(world.trace)|..] == [FileRead(path)];
        return;
      }
      world.Print("Chat loaded");
      assert world.trace[|old(world.trace)|..] == [FileRead(path), Printed("Chat loaded")];
    }

    /** `retry(context)`: the last user message is asked again. The chat is undone, the
        message added back and the chat handed to `sendRequest`; nothing happens when
        there is no user message. */
    method Retry(ctx: Context, world: World) returns (o: Outcome)
      modifies ctx.chat, world
      ensures world.rows == old(world.rows) && Extends(old(world.trace), world.trace)
      ensures RetryDone(old(Snap(ctx.chat, world)), Snap(ctx.chat, world), world.trace[|old(world.trace)|..], o)
    {
      var messages := ctx.chat.messages;
      var index := FindLastUser(messages);
      if index == -1 {
        return Pass;
      }
      var lastMsg := messages[index];
      ctx.chat.Undo();
      ctx.chat.AddUserMsg(lastMsg.content);
      ghost var handed := ctx.chat.State();
      o := world.CallOn(SendRequest, ctx.chat);
      assert world.trace[|old(world.trace)|..] == [CalledOn(SendRequest, handed)];
    }

    /** `prompts(context, args)`: the prompts folder is made and listed; the prompt files,
        unsorted and numbered from 0, are printed for no argument; otherwise the one the
        argument chooses (an offset from 0 or a name) becomes the prompt. */
    method Prompts(ctx: Context, world: World, args: string) returns (o: Outcome)
      modifies ctx.chat, world
      ensures world.rows == old(world.rows) && Extends(old(world.trace), world.trace)
      ensures PromptsDone(promptsFolder, args, old(Snap(ctx.chat, world)), Snap(ctx.chat, world),
                          world.trace[|old(world.trace)|..], o)
    {
      world.MakeDir(promptsFolder);
      var entries := world.List(promptsFolder);
      ghost var head := [DirMade(promptsFolder), Listed(promptsFolder, entries)];
      assert world.trace == old(world.trace) + head;
      if entries.Err? {
        return Fail(entries.error);
      }
      var files := PromptFiles.PromptNames(entries.value);
      if |files| == 0 {
        world.Print("No prompt available.");
        assert world.trace[|old(world.trace)|..] == head + [Printed("No prompt available.")];
        return Pass;
      }
      if args == "" {
        var text := CommandSyntax.PrintArray(files);
        world.Print(text);
        assert world.trace[|old(world.trace)|..] == head + [Printed(text)];
        return Pass;
      }
      var choice := PromptFiles.ChoosePrompt(files, args, false);
      if choice.Err? {
        return Fail(choice.error);
      }
      o := LoadPrompt(ctx, world, PathJoin(promptsFolder, choice.value + ".txt"));
      TraceAfter(old(world.trace), head, world.trace);
    }
    /** The `try` block of `prompts`: the file is read into the prompt and "Prompt
        loaded." written; a failed read becomes "File not found". */
    method LoadPrompt(ctx: Context, world: World, path: string) returns (o: Outcome)
      modifies ctx.chat, world
      ensures world.files == old(world.files) && world.rows == old(world.rows) && ctx.chat.calls == old(ctx.chat.calls)
      ensures |world.trace| >= |old(world.trace)| && world.trace[..|old(world.trace)|] == old(world.trace)
      ensures PromptLoaded(path, old(world.files), old(ctx.chat.State()), ctx.chat.State(), world.trace[|old(world.trace)|..], o)
    {
      var content := world.Read(path);
      if content.Err? {
        return Fail("File not found");
      }
      ctx.chat.prompt := content.value;
      world.Print("Prompt loaded.");
      o := Pass;
    }

    /** `history(context)`: "History is empty", or "History:" and then the story
        summaries, one per line. */
    method History(ctx: Context, world: World)
      modifies world
      ensures world.files == old(world.files) && world.rows == old(world.rows)
      ensures world.trace == old(world.trace) + (if ctx.chat.histories == [] then [Printed("History is empty")]
                                                 else [Printed("History:"), Printed(Join(ctx.chat.histories, "\n"))])
    {
      var histories := ctx.chat.histories;
      if |histories| == 0 {
        world.Print("History is empty");
      } else {
        world.Print("History:");
        world.Print(Join(histories, "\n"));
      }
    }

    /** `story(context, args)`: a non-empty argument becomes the story setting. */
    method Story(ctx: Context, args: string)
      modifies ctx.chat
      ensures ctx.chat.State() == (if args == "" then old(ctx.chat.State()) else old(ctx.chat.State()).(story := args))
      ensures ctx.chat.calls == old(ctx.chat.calls)
    {
      if |args| == 0 {
        return;
      }
      ctx.chat.story := args;
    }

    /** `model(context, args)`: the provider's models are listed, numbered from 0, for no
        argument; otherwise the one the argument chooses becomes the chat's model. */
    method Model(ctx: Context, world: World, args: string) returns (o: Outcome)
      modifies ctx.chat, world
      ensures world.rows == old(world.rows) && Extends(old(world.trace), world.trace)
      ensures ModelDone(args, old(Snap(ctx.chat, world)), Snap(ctx.chat, world), world.trace[|old(world.trace)|..], o)
    {
      var r := world.GetModels();
      assert world.trace[|old(world.trace)|..] == [ModelsListed(r)];
      if r.Err? {
        return Fail(r.error);
      }
      o := Pass;
      if r.value.None? || |r.value.value| == 0 {
        world.Print("No models available.");
        assert world.trace[|old(world.trace)|..] == [ModelsListed(r), Printed("No models available.")];
        return;
      }
      var models := r.value.value;
      if |args| == 0 {
        var text := CommandSyntax.PrintArray(models);
        world.Print(text);
        assert world.trace[|old(world.trace)|..] == [ModelsListed(r), Printed(text)];
        return;
      }
      var selected := PromptFiles.ChooseModel(models, args);
      if selected.None? {
        world.Print("Invalid models selected");
        assert world.trace[|old(world.trace)|..] == [ModelsListed(r), Printed("Invalid models selected")];
        return;
      }
      ctx.chat.model := Some(selected.value);
      world.Print("Model selected.");
      assert world.trace[|old(world.trace)|..] == [ModelsListed(r), Printed("Model selected.")];
    }

    /** `debug(context)`: the prompt, the story and the shortened messages; no model. */
    method Debug(ctx: Context, world: World)
      modifies world
      ensures world.files == old(world.files) && world.rows == old(world.rows)
      ensures world.trace == old(world.trace) + [Printed(DebugView.DebugText(ctx.chat.State(), false))]
    {
      world.Print(DebugView.DebugText(ctx.chat.State(), false));
    }
  }
}
