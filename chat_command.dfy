/** The slash-command service of the queue worker: `/save` and
    `/load` of whole sessions, `/prompts` from a folder numbered from 1, `/retry`,
    `/history`, `/reset`, `/debug` and `/exit`. What the host does for `write`, `retry`
    and `repaint` is the context's business: the service only calls them. Its `reset` is
    the one the queue worker, the service's only host, gives it: the conversation's stored
    entity is removed before the chat is cleared. */
module ChatCommand {
  import opened Wrappers
  import opened Text
  import opened Messages
  import opened Effects
  import opened ChatEntities
  import RichChat
  import CommandSyntax
  import PromptFiles
  import DebugView

  datatype Action = ExitAction | SaveAction | LoadAction | UndoAction | RetryAction | PromptsAction
                  | HistoryAction | ResetAction | DebugAction | UnknownAction

  /** The `switch (prefix)` of `handle`; verbs are case-sensitive. */
  function ActionOf(verb: string): (a: Action)
    ensures a == UnknownAction <==> verb !in {"exit", "save", "load", "undo", "retry", "p", "prompts", "prompt",
                                               "h", "history", "reset", "debug"}
    ensures a == PromptsAction <==> verb in {"p", "prompts", "prompt"}
    ensures a == HistoryAction <==> verb in {"h", "history"}
  {
    if verb == "exit" then ExitAction
    else if verb == "save" then SaveAction
    else if verb == "load" then LoadAction
    else if verb == "undo" then UndoAction
    else if verb == "retry" then RetryAction
    else if verb == "p" || verb == "prompts" || verb == "prompt" then PromptsAction
    else if verb == "h" || verb == "history" then HistoryAction
    else if verb == "reset" then ResetAction
    else if verb == "debug" then DebugAction
    else UnknownAction
  }

  /** A session saved under a name `/load` accepts is read back by `/load` with the same
      argument as the chat it was saved from. */
  lemma {:induction false} SavedSessionLoads(folder: string, args: string, s: RichChat.ChatState, files: map<string, string>)
    requires CommandSyntax.LoadName(args).Some?
    ensures CommandSyntax.SaveName(args).Ok?
    ensures var written := files[CommandSyntax.SessionPath(folder, CommandSyntax.SaveName(args).value) := RichChat.DehydrateState(s)];
      var path := CommandSyntax.SessionPath(folder, CommandSyntax.LoadName(args).value);
      path in written && RichChat.HydrateText(written[path]) == Ok(s)
  {
    CommandSyntax.LoadNameSaved(args);
    RichChat.HydrateDehydrate(s);
  }

  /** `ChatCommandContext`: the conversation, whether the host's loop should stop, and the
      stored entity of the conversation, which `reset` removes. */
  class Context {
    var done: bool
    const chat: RichChat.Chat
    const entity: ChatEntity

    constructor(chat: RichChat.Chat, entity: ChatEntity)
      ensures !done && this.chat == chat && this.entity == entity
    {
      done := false;
      this.chat := chat;
      this.entity := entity;
    }

    /** The context's `reset`, as the queue worker defines it: the entity is removed from
        the store, and only when that succeeds is the chat cleared. */
    method Reset(world: World) returns (o: Outcome)
      modifies chat, world
      ensures world.files == old(world.files)
      ensures world.trace == old(world.trace) + [Removed(entity.remoteId)]
      ensures o.Pass? ==> world.rows == old(world.rows) - {entity.remoteId}
                          && chat.calls == old(chat.calls) + [RichChat.ClearCall]
      ensures o.Fail? ==> world.rows == old(world.rows) && chat.calls == old(chat.calls)
                          && chat.State() == old(chat.State())
    {
      o := world.Remove(entity);
      if o.Pass? {
        chat.Clear();
      }
    }
  }

  /** What loading the prompt file at `path` did: the events it caused, the chat state
      after it and its outcome. A missing file leaves the chat as it was; a present one
      becomes the prompt, even when writing "Prompt loaded." after it fails. */
  predicate PromptLoaded(path: string, files: map<string, string>, before: RichChat.ChatState,
                         after: RichChat.ChatState, events: seq<Event>, o: Outcome)
  {
    if path !in files then
      o == Fail("File not found") && events == [FileRead(path)] && after == before
    else
      (o.Pass? || o == Fail("File not found"))
      && events == [FileRead(path), Wrote("Prompt loaded.")] && after == before.(prompt := files[path])
  }

  /** What `save(context, args)` did with the sessions folder `folder`: a name `/save`
      refuses fails with nothing done; otherwise the chat's document is written to the
      session's path, and the files hold it when the write passed. The chat is not
      touched. */
  predicate SaveDone(folder: string, args: string, before: Side, after: Side, events: seq<Event>, o: Outcome) {
    after.chat == before.chat && after.calls == before.calls
    && if CommandSyntax.SaveName(args).Err? then
         o == Fail("Invalid file name") && events == [] && after.files == before.files
       else
         var path := CommandSyntax.SessionPath(folder, CommandSyntax.SaveName(args).value);
         var doc := RichChat.DehydrateState(before.chat);
         events == [FileWritten(path, doc)]
         && after.files == (if o.Pass? then before.files[path := doc] else before.files)
  }

  /** What `load(context, args)` did: a name `/load` refuses fails with nothing done;
      otherwise the session's file is read, and the chat becomes the state its text
      hydrates to, or stays as it was when the file is missing or does not hydrate. */
  predicate LoadDone(folder: string, args: string, before: Side, after: Side, events: seq<Event>, o: Outcome) {
    after.files == before.files && after.calls == before.calls
    && if CommandSyntax.LoadName(args).None? then
         o == Fail("Invalid sessions id") && events == [] && after.chat == before.chat
       else
         var path := CommandSyntax.SessionPath(folder, CommandSyntax.LoadName(args).value);
         events == [FileRead(path)]
         && if path !in before.files then o.Fail? && after.chat == before.chat
            else
              var read := RichChat.HydrateText(before.files[path]);
              if read.Ok? then o == Pass && after.chat == read.value
              else o == Fail(read.error) && after.chat == before.chat
  }

  /** What `retry(context)` did: nothing without a user message; otherwise one undo and
      one call of the context's `retry`, handed a chat that ends with the last user
      message. */
  predicate RetryDone(before: Side, after: Side, events: seq<Event>, o: Outcome) {
    after.files == before.files
    && var i := FindLastUser(before.chat.messages);
    if i == -1 then
      o == Pass && events == [] && after == before
    else
      after.calls == before.calls + [RichChat.UndoCall]
      && |events| == 1 && events[0].CalledOn? && events[0].callback == Callback.Retry
      && var handed := events[0].chat.messages;
         |handed| > 0 && handed[|handed| - 1] == Message(User, before.chat.messages[i].content)
  }

  /** What `prompts(context, args)` did once the folder `folder` was listed, given the
      sorted prompt names: no argument writes them one per line; otherwise the chosen
      prompt is loaded, or the choice's error returned with nothing more done. */
  predicate PromptChosen(folder: string, names: seq<string>, args: string, before: Side, after: Side,
                         events: seq<Event>, o: Outcome)
  {
    after.files == before.files && after.calls == before.calls
    && if args == "" then
         o == Pass && events == [Wrote(Join(names, "\n"))] && after.chat == before.chat
       else
         var choice := PromptFiles.ChoosePrompt(names, args, true);
         if choice.Err? then
           o == Fail(choice.error) && events == [] && after.chat == before.chat
         else
           PromptLoaded(PathJoin(folder, choice.value + ".txt"), before.files, before.chat, after.chat, events, o)
  }

  /** What `prompts(context, args)` did with the prompts folder `folder`: it listed the
      folder first; a failed listing fails with nothing more done; otherwise the prompt
      files, sorted and without their extension, are answered as `PromptChosen` says. */
  predicate PromptsDone(folder: string, args: string, before: Side, after: Side, events: seq<Event>, o: Outcome) {
    |events| >= 1 && events[0].Listed? && events[0].folder == folder
    && var listed := events[0].entries;
    if listed.Err? then
      o == Fail(listed.error) && |events| == 1 && after == before
    else
      PromptChosen(folder, PromptFiles.SortedPromptNames(listed.value), args, before, after, events[1..], o)
  }

  /** What `history(context)` did: "History is empty", or "History:" and then, when that
      write passed, the summaries one per line. Nothing else changes. */
  predicate HistoryDone(before: Side, after: Side, events: seq<Event>, o: Outcome) {
    after == before
    && if before.chat.histories == [] then events == [Wrote("History is empty")]
       else (events == [Wrote("History:")] && o.Fail?)
            || events == [Wrote("History:"), Wrote(Join(before.chat.histories, "\n"))]
  }

  /** The handler's own events, without the confirmation written after it passed. */
  function Own(events: seq<Event>, o: Outcome): seq<Event> {
    if o.Pass? && |events| >= 1 then events[..|events| - 1] else events
  }

  /** A passing handler's events end with the confirmation `text`. */
  predicate Confirmed(text: string, events: seq<Event>, o: Outcome) {
    o.Pass? ==> |events| >= 1 && events[|events| - 1] == Wrote(text)
  }

  /** The events a handler added, followed by the confirmation written when it passed,
      are confirmed and have the handler's events as their own. */
  lemma {:induction false} ConfirmedOwn(t0: seq<Event>, t1: seq<Event>, t2: seq<Event>, text: string, o: Outcome)
    requires Extends(t0, t1) && t2 == t1 + (if o.Pass? then [Wrote(text)] else [])
    ensures Extends(t0, t2)
    ensures Confirmed(text, t2[|t0|..], o) && Own(t2[|t0|..], o) == t1[|t0|..]
  {
    assert t2[|t0|..] == t1[|t0|..] + (if o.Pass? then [Wrote(text)] else []);
  }

  /** What the `switch` of `handle` did for `action`, given the sessions and prompts
      folders. `/save` and `/load` write their confirmation after passing, `/reset` after
      the context's `reset` passed; `/undo` undoes and repaints; `/debug` writes the
      chat's document as a JSON string; `/exit` changes nothing here; an unknown verb
      writes "Invalid command". */
  predicate Dispatched(sessions: string, prompts: string, key: int, action: Action, args: string,
                       before: Side, after: Side, events: seq<Event>, o: Outcome)
  {
    match action
    case ExitAction => o == Pass && events == [] && after == before
    case SaveAction => Confirmed("Chat saved", events, o) && SaveDone(sessions, args, before, after, Own(events, o), o)
    case LoadAction => Confirmed("Chat loaded", events, o) && LoadDone(sessions, args, before, after, Own(events, o), o)
    case UndoAction =>
      o == Pass && events == [Called(Repaint)]
      && after.calls == before.calls + [RichChat.UndoCall] && after.files == before.files
    case RetryAction => RetryDone(before, after, events, o)
    case PromptsAction => PromptsDone(prompts, args, before, after, events, o)
    case HistoryAction => HistoryDone(before, after, events, o)
    case ResetAction =>
      after.files == before.files
      && ((o.Fail? && events == [Removed(key)] && after == before)
          || (o == Pass && events == [Removed(key), Wrote("Chat reset")]
              && after.calls == before.calls + [RichChat.ClearCall]))
    case DebugAction =>
      o == Pass && events == [Wrote(DebugView.QuotedDocument(RichChat.DehydrateState(before.chat)))] && after == before
    case UnknownAction => o == Pass && events == [Wrote("Invalid command")] && after == before
  }

  /** What `handle(command, context)` did, with `key` the remote id of the context's
      entity: input that is not a command fails with "Invalid input" and nothing done; a
      command is dispatched on its verb. */
  predicate Handled(sessions: string, prompts: string, key: int, command: string,
                    before: Side, after: Side, events: seq<Event>, o: Outcome)
  {
    match CommandSyntax.ParseCommand(command)
    case None => o == Fail("Invalid input") && events == [] && after == before
    case Some(c) => Dispatched(sessions, prompts, key, ActionOf(c.verb), c.args, before, after, events, o)
  }

  /** Whether `command` is a `/reset`, the one command that changes the store. */
  predicate Resets(command: string) {
    CommandSyntax.ParseCommand(command).Some? && ActionOf(CommandSyntax.ParseCommand(command).value.verb) == ResetAction
  }

  /** The store after a command: a `/reset` that passed removed the entity under `key`;
      every other command leaves the store as it was. */
  function StoreAfter(reset: bool, key: int, rows: map<int, ChatEntity>, o: Outcome): (r: map<int, ChatEntity>)
    ensures key !in r <==> (key !in rows || (reset && o.Pass?))
    ensures forall k :: k != key ==> (k in r <==> k in rows) && (k in r ==> r[k] == rows[k])
  {
    if reset && o.Pass? then rows - {key} else rows
  }

  /** Whether `handle` asks the host's loop to stop. */
  predicate Exits(command: string) {
    CommandSyntax.ParseCommand(command).Some? && ActionOf(CommandSyntax.ParseCommand(command).value.verb) == ExitAction
  }

  class Service {
    const sessionsFolder: string
    const promptsFolder: string

    constructor(sessionsFolder: string, promptsFolder: string)
      ensures this.sessionsFolder == sessionsFolder && this.promptsFolder == promptsFolder
    {
      this.sessionsFolder := sessionsFolder;
      this.promptsFolder := promptsFolder;
    }

    /** `handle(command, context)`: as `Handled` says, and `/exit` sets `done`. The
        confirmations after `/save`, `/load` and `/reset`, like the unknown-verb and
        `/debug` texts, are written without waiting, so their failure is not the
        command's. */
    method Handle(command: string, ctx: Context, world: World) returns (o: Outcome)
      modifies ctx, ctx.chat, world
      ensures world.rows == StoreAfter(Resets(command), ctx.entity.remoteId, old(world.rows), o)
      ensures Extends(old(world.trace), world.trace)
      ensures Handled(sessionsFolder, promptsFolder, ctx.entity.remoteId, command, old(Snap(ctx.chat, world)), Snap(ctx.chat, world),
                      world.trace[|old(world.trace)|..], o)
      ensures ctx.done == (old(ctx.done) || Exits(command))
    {
      var parsed := CommandSyntax.ParseCommand(command);
      if parsed.None? {
        return Fail("Invalid input");
      }
      o := Dispatch(ActionOf(parsed.value.verb), parsed.value.args, ctx, world);
    }

    /** The `switch (prefix)` of `handle`, once the verb is known. */
    method Dispatch(action: Action, args: string, ctx: Context, world: World) returns (o: Outcome)
      modifies ctx, ctx.chat, world
      ensures world.rows == StoreAfter(action == ResetAction, ctx.entity.remoteId, old(world.rows), o)
      ensures Extends(old(world.trace), world.trace)
      ensures Dispatched(sessionsFolder, promptsFolder, ctx.entity.remoteId, action, args, old(Snap(ctx.chat, world)), Snap(ctx.chat, world),
                         world.trace[|old(world.trace)|..], o)
      ensures ctx.done == (old(ctx.done) || action == ExitAction)
    {
      match action
      case ExitAction =>
        ctx.done := true;
        o := Pass;
      case SaveAction =>
        o := Save(ctx, world, args);
        ghost var t1 := world.trace;
        ConfirmIfPassed("Chat saved", o, world);
        ConfirmedOwn(old(world.trace), t1, world.trace, "Chat saved", o);
      case LoadAction =>
        o := Load(ctx, world, args);
        ghost var t1 := world.trace;
        ConfirmIfPassed("Chat loaded", o, world);
        ConfirmedOwn(old(world.trace), t1, world.trace, "Chat loaded", o);
      case UndoAction =>
        ctx.chat.Undo();
        world.Call(Repaint);
        o := Pass;
        assert world.trace[|old(world.trace)|..] == [Called(Repaint)];
      case RetryAction =>
        o := Retry(ctx, world);
      case PromptsAction =>
        o := Prompts(ctx, world, args);
      case HistoryAction =>
        o := History(ctx, world);
      case ResetAction =>
        o := Reset(ctx, world);
      case DebugAction =>
        var ignored := world.ContextWrite(DebugView.QuotedDocument(ctx.chat.Dehydrate()));
        o := Pass;
        assert world.trace[|old(world.trace)|..] == [Wrote(DebugView.QuotedDocument(ctx.chat.Dehydrate()))];
      case UnknownAction =>
        var ignored := world.ContextWrite("Invalid command");
        o := Pass;
        assert world.trace[|old(world.trace)|..] == [Wrote("Invalid command")];
    }

    /** `/reset`: the context's `reset` runs, and "Chat reset" is written without waiting
        once it passed. */
    method Reset(ctx: Context, world: World) returns (o: Outcome)
      modifies ctx.chat, world
      ensures world.files == old(world.files)
      ensures world.rows == StoreAfter(true, ctx.entity.remoteId, old(world.rows), o)
      ensures Extends(old(world.trace), world.trace)
      ensures world.trace[|old(world.trace)|..]
           == [Removed(ctx.entity.remoteId)] + (if o.Pass? then [Wrote("Chat reset")] else [])
      ensures o.Pass? ==> ctx.chat.calls == old(ctx.chat.calls) + [RichChat.ClearCall]
      ensures o.Fail? ==> ctx.chat.calls == old(ctx.chat.calls) && ctx.chat.State() == old(ctx.chat.State())
    {
      o := ctx.Reset(world);
      ConfirmIfPassed("Chat reset", o, world);
    }

    /** Writes `text` without waiting when `o` passed: the events before it are the
        handler's own. */
    method ConfirmIfPassed(text: string, o: Outcome, world: World)
      modifies world
      ensures world.rows == old(world.rows) && world.files == old(world.files)
      ensures world.trace == old(world.trace) + (if o.Pass? then [Wrote(text)] else [])
    {
      if o.Pass? {
        var ignored := world.ContextWrite(text);
      }
    }

    /** `save(context, args)`: the dehydrated chat is written to `<sessions>/<name>.json`,
        where the name is "last_session" for no argument and otherwise the argument, which
        may only hold letters, digits and spaces. */
    method Save(ctx: Context, world: World, args: string) returns (o: Outcome)
      modifies world
      ensures world.rows == old(world.rows) && Extends(old(world.trace), world.trace)
      ensures SaveDone(sessionsFolder, args, old(Snap(ctx.chat, world)), Snap(ctx.chat, world),
                       world.trace[|old(world.trace)|..], o)
    {
      var name := CommandSyntax.SaveName(args);
      if name.Err? {
        return Fail(name.error);
      }
      var json := ctx.chat.Dehydrate();
      o := world.Write(CommandSyntax.SessionPath(sessionsFolder, name.value), json);
      assert world.trace[|old(world.trace)|..] == [FileWritten(CommandSyntax.SessionPath(sessionsFolder, name.value), json)];
    }

    /** `load(context, args)`: the chat is hydrated from `<sessions>/<name>.json`, where
        the name is "last_session" for no argument and otherwise the argument, which may
        only hold letters and digits. */
    method Load(ctx: Context, world: World, args: string) returns (o: Outcome)
      modifies ctx.chat, world
      ensures world.rows == old(world.rows) && Extends(old(world.trace), world.trace)
      ensures LoadDone(sessionsFolder, args, old(Snap(ctx.chat, world)), Snap(ctx.chat, world),
                       world.trace[|old(world.trace)|..], o)
    {
      var name := CommandSyntax.LoadName(args);
      if name.None? {
        return Fail("Invalid sessions id");
      }
      var content := world.Read(CommandSyntax.SessionPath(sessionsFolder, name.value));
      assert world.trace[|old(world.trace)|..] == [FileRead(CommandSyntax.SessionPath(sessionsFolder, name.value))];
      if content.Err? {
        return Fail(content.error);
      }
      o := ctx.chat.Hydrate(content.value);
    }

    /** `retry(context)`: the last user message is asked again. The chat is undone, the
        message added back and the context's `retry` called; nothing happens when there is
        no user message. */
    method Retry(ctx: Context, world: World) returns (o: Outcome)
      modifies ctx.chat, world
      ensures world.rows == old(world.rows) && Extends(old(world.trace), world.trace)
      ensures RetryDone(old(Snap(ctx.chat, world)), Snap(ctx.chat, world), world.trace[|old(world.trace)|..], o)
    {
      var messages := ctx.chat.messages;
      var index := FindLastUser(messages);
      if index == -1 {
        return Pass;
      }
      var lastMsg := messages[index];
      ctx.chat.Undo();
      ctx.chat.AddUserMsg(lastMsg.content);
      ghost var handed := ctx.chat.State();
      o := world.CallOn(Callback.Retry, ctx.chat);
      assert world.trace[|old(world.trace)|..] == [CalledOn(Callback.Retry, handed)];
    }

    /** `prompts(context, args)`: the prompt files of the prompts folder, sorted and
        without their extension, are written one per line for no argument; otherwise the
        one the argument chooses (a number counted from 1, or a name) becomes the
        prompt. */
    method Prompts(ctx: Context, world: World, args: string) returns (o: Outcome)
      modifies ctx.chat, world
      ensures world.rows == old(world.rows) && Extends(old(world.trace), world.trace)
      ensures PromptsDone(promptsFolder, args, old(Snap(ctx.chat, world)), Snap(ctx.chat, world),
                          world.trace[|old(world.trace)|..], o)
    {
      var entries := world.List(promptsFolder);
      ghost var head := [Listed(promptsFolder, entries)];
      if entries.Err? {
        assert world.trace[|old(world.trace)|..] == head;
        return Fail(entries.error);
      }
      o := Choose(ctx, world, PromptFiles.SortedPromptNames(entries.value), args);
      TraceAfter(old(world.trace), head, world.trace);
    }

    /** The rest of `prompts`, given the sorted prompt names. */
    method Choose(ctx: Context, world: World, names: seq<string>, args: string) returns (o: Outcome)
      modifies ctx.chat, world
      ensures world.rows == old(world.rows) && Extends(old(world.trace), world.trace)
      ensures PromptChosen(promptsFolder, names, args, old(Snap(ctx.chat, world)), Snap(ctx.chat, world),
                           world.trace[|old(world.trace)|..], o)
    {
      if args == "" {
        var ignored := world.ContextWrite(Join(names, "\n"));
        assert world.trace[|old(world.trace)|..] == [Wrote(Join(names, "\n"))];
        return Pass;
      }
      var choice := PromptFiles.ChoosePrompt(names, args, true);
      if choice.Err? {
        return Fail(choice.error);
      }
      o := LoadPrompt(ctx, world, PathJoin(promptsFolder, choice.value + ".txt"));
    }

    /** The `try` block of `prompts`: the file is read into the prompt and "Prompt
        loaded." written; any failure becomes "File not found". */
    method LoadPrompt(ctx: Context, world: World, path: string) returns (o: Outcome)
      modifies ctx.chat, world
      ensures world.files == old(world.files) && world.rows == old(world.rows) && ctx.chat.calls == old(ctx.chat.calls)
      ensures Extends(old(world.trace), world.trace)
      ensures PromptLoaded(path, old(world.files), old(ctx.chat.State()), ctx.chat.State(), world.trace[|old(world.trace)|..], o)
    {
      var content := world.Read(path);
      if content.Err? {
        return Fail("File not found");
      }
      ctx.chat.prompt := content.value;
      o := world.ContextWrite("Prompt loaded.");
      if o.Fail? {
        o := Fail("File not found");
      }
    }

    /** `history(context)`: "History:" and the story summaries, one per line, or "History
        is empty"; both writes are awaited. */
    method History(ctx: Context, world: World) returns (o: Outcome)
      modifies world
      ensures world.rows == old(world.rows) && Extends(old(world.trace), world.trace)
      ensures HistoryDone(old(Snap(ctx.chat, world)), Snap(ctx.chat, world), world.trace[|old(world.trace)|..], o)
    {
      var histories := ctx.chat.histories;
      if |histories| == 0 {
        o := world.ContextWrite("History is empty");
      } else {
        o := world.ContextWrite("History:");
        if o.Fail? {
          return;
        }
        o := world.ContextWrite(Join(histories, "\n"));
      }
    }
  }
}
