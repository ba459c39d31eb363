/** The slash-command stack of `core/chat/cmd`: a table from "/verb" to a handler, and
    the five handlers of the default table (`/undo`, `/save`, `/load`, `/exit`,
    `/retry`), which work on the conversation of chat.ts and on files under `session`. */
module CmdStack {
  import opened Wrappers
  import opened Messages
  import opened Effects
  import opened Text
  import CommandSyntax
  import NumberText
  import CoreChat

  datatype Handler = UndoHandler | SaveHandler | LoadHandler | ExitHandler | RetryHandler

  /** The table of the exported stack, keyed by the slash and the verb. */
  function DefaultTable(): (t: map<string, Handler>)
    ensures t.Keys == {"/undo", "/save", "/load", "/exit", "/retry"}
  {
    map["/undo" := UndoHandler, "/save" := SaveHandler, "/load" := LoadHandler,
        "/exit" := ExitHandler, "/retry" := RetryHandler]
  }

  /** The table is looked up with the slash and the verb, and the verb is the letters
      after the slash: a command reaches a handler of the default table exactly when its
      verb is one of the five. */
  lemma {:induction false} DefaultKey(cmd: string)
    requires CommandSyntax.ParseCommand(cmd).Some?
    ensures var c := CommandSyntax.ParseCommand(cmd).value;
      CommandSyntax.HandlerKey(c) in DefaultTable() <==> c.verb in {"undo", "save", "load", "exit", "retry"}
  {
    var c := CommandSyntax.ParseCommand(cmd).value;
    var k := CommandSyntax.HandlerKey(c);
    assert k == "/" + c.verb && k[1..] == c.verb;
    var keys := DefaultTable().Keys;
    if k in keys {
      if k == "/undo" { assert c.verb == "/undo"[1..] == "undo"; }
      else if k == "/save" { assert c.verb == "/save"[1..] == "save"; }
      else if k == "/load" { assert c.verb == "/load"[1..] == "load"; }
      else if k == "/exit" { assert c.verb == "/exit"[1..] == "exit"; }
      else { assert c.verb == "/retry"[1..] == "retry"; }
    } else {
      assert "/" + "undo" == "/undo" && "/" + "save" == "/save" && "/" + "load" == "/load";
      assert "/" + "exit" == "/exit" && "/" + "retry" == "/retry";
    }
  }

  /** A digit ends the verb: "/cmd2" looks up "/cmd" with the argument "2", so a key
      holding a digit is never reached. */
  lemma {:induction false} DigitEndsVerb()
    ensures CommandSyntax.ParseCommand("/cmd2") == Some(CommandSyntax.Command("cmd", "2"))
  {
    CommandSyntax.ParseCommandLine("cmd", 0, "2", "");
    assert "/" + "cmd" + CommandSyntax.Spaces(0) + "2" + "" == "/cmd2";
  }

  /** The folder the handlers keep sessions in, under the application's variable-data
      folder. */
  const SessionFolder := "session"

  /** The sessions folder under the variable-data folder `varPath`. */
  function SessionsIn(varPath: string): string {
    PathJoin(varPath, SessionFolder)
  }

  /** `parseInt(args) || 2`: NaN and 0 are falsy, so both give 2. */
  function UndoCount(args: string): int {
    match NumberText.ParseInt(args)
    case None => 2
    case Some(n) => if n == 0 then 2 else n
  }

  /** Without a number, or with 0, `/undo` drops two messages. */
  lemma {:induction false} UndoCountDefault()
    ensures UndoCount("") == 2
    ensures UndoCount("0") == 2
  {
    NumberText.ParseIntNaN("");
    NumberText.ParseIntOfNat("", 0);
    assert "" + NumberText.NatToString(0) == "0";
  }

  /** A positive number written in the arguments is the count. */
  lemma {:induction false} UndoCountOf(n: nat)
    requires n >= 1
    ensures UndoCount(NumberText.NatToString(n)) == n
  {
    NumberText.ParseIntOfNat("", n);
    assert "" + NumberText.NatToString(n) == NumberText.NatToString(n);
  }

  /** A negative number is the count too, which `/undo` then refuses. */
  lemma {:induction false} UndoCountNegative(n: nat)
    requires n >= 1
    ensures UndoCount("-" + NumberText.NatToString(n)) == -(n as int) < 0
  {
    NumberText.ParseIntOfNegative("", n);
    assert "" + ("-" + NumberText.NatToString(n)) == "-" + NumberText.NatToString(n);
  }

  /** The conversation as a pair of its prompt and its messages. */
  type Snapshot = (string, seq<Message>)

  /** What the handler `h` did with the arguments `args`, from the conversation `before`
      and the files `files` to the conversation `after` and the files `written`, given the
      events it added and its outcome. `/save` and `/load` work on `<varPath>/session`.
      `/exit` and `/retry` only call the context's `exit` and `retry`. */
  ghost predicate Handled(h: Handler, varPath: string, args: string, before: Snapshot, after: Snapshot,
                          files: map<string, string>, written: map<string, string>,
                          events: seq<Event>, o: Outcome)
  {
    match h
    case UndoHandler => written == files && Undone(args, before, after, events, o)
    case SaveHandler => after == before && SavedAs(SessionsIn(varPath), args, before, files, written, events, o, [])
    case LoadHandler =>
      written == files && LoadedAs(SessionsIn(varPath), "Invalid session id", args, before, after, files, events, o, Print)
    case ExitHandler => o == Pass && after == before && written == files && events == [Called(Exit)]
    case RetryHandler => after == before && written == files && events == [Called(Retry)]
  }

  /** `/undo` drops the last `UndoCount(args)` messages and calls `print`, or refuses a
      count that is not positive. */
  ghost predicate Undone(args: string, before: Snapshot, after: Snapshot, events: seq<Event>, o: Outcome) {
    var n := UndoCount(args);
    (n <= 0 ==> o == Fail("Invalid undo count") && after == before && events == [])
    && (n >= 1 ==>
          o == Pass && events == [Called(Print)]
          && after == (before.0, before.1[..if n <= |before.1| then |before.1| - n else 0]))
  }

  /** `/save` writes the dehydrated conversation to `<folder>/<name>.json`; `next` are the
      events that follow a successful write. */
  ghost predicate SavedAs(folder: string, args: string, before: Snapshot, files: map<string, string>,
                          written: map<string, string>, events: seq<Event>, o: Outcome, next: seq<Event>)
  {
    (CommandSyntax.SaveName(args).Err? ==>
       o == Fail("Invalid file name") && events == [] && written == files)
    && (CommandSyntax.SaveName(args).Ok? ==>
          var path := CommandSyntax.SessionPath(folder, CommandSyntax.SaveName(args).value);
          var doc := CoreChat.DehydrateState(before.0, before.1);
          (o.Pass? ==> written == files[path := doc] && events == [FileWritten(path, doc)] + next)
          && (o.Fail? ==> written == files && events == [FileWritten(path, doc)]))
  }

  /** `/load` refuses arguments that are not a session name with `refusal`; otherwise it
      reads `<folder>/<name>.json`, hydrates the conversation from it and calls `follow`.
      A missing file or a document that does not parse stops it first. */
  ghost predicate LoadedAs(folder: string, refusal: string, args: string, before: Snapshot, after: Snapshot,
                           files: map<string, string>, events: seq<Event>, o: Outcome, follow: Callback)
  {
    (CommandSyntax.LoadName(args).None? ==> o == Fail(refusal) && after == before && events == [])
    && (CommandSyntax.LoadName(args).Some? ==>
          var path := CommandSyntax.SessionPath(folder, CommandSyntax.LoadName(args).value);
          (path !in files ==> o.Fail? && after == before && events == [FileRead(path)])
          && (path in files ==>
                var read := CoreChat.HydrateText(files[path]);
                (read.Err? ==> o == Fail(read.error) && after == before && events == [FileRead(path)])
                && (read.Ok? ==> o == Pass && after == read.value && events == [FileRead(path), Called(follow)])))
  }

  /** A conversation saved in `folder` with arguments `/load` accepts is loaded back whole
      from that folder with the same arguments, whatever the conversation was in between. */
  lemma {:induction false} SavedLoads(folder: string, refusal: string, args: string, s: Snapshot, other: Snapshot,
                                      loaded: Snapshot, f0: map<string, string>, f1: map<string, string>,
                                      e1: seq<Event>, e2: seq<Event>, next: seq<Event>, o2: Outcome, follow: Callback)
    requires CommandSyntax.LoadName(args).Some?
    requires SavedAs(folder, args, s, f0, f1, e1, Pass, next)
    requires LoadedAs(folder, refusal, args, other, loaded, f1, e2, o2, follow)
    ensures o2 == Pass && loaded == s
    ensures e2 == [FileRead(CommandSyntax.SessionPath(folder, CommandSyntax.SaveName(args).value)), Called(follow)]
  {
    CommandSyntax.LoadNameSaved(args);
    CoreChat.HydrateDehydrate(s.0, s.1);
  }

  /** The handlers of the default table: what `/save` wrote, `/load` reads back, from
      `<varPath>/session/<name>.json`. */
  lemma {:induction false} SaveThenLoad(varPath: string, args: string, s: Snapshot, other: Snapshot, loaded: Snapshot,
                                        f0: map<string, string>, f1: map<string, string>,
                                        e1: seq<Event>, e2: seq<Event>, o2: Outcome)
    requires CommandSyntax.LoadName(args).Some?
    requires Handled(SaveHandler, varPath, args, s, s, f0, f1, e1, Pass)
    requires Handled(LoadHandler, varPath, args, other, loaded, f1, f1, e2, o2)
    ensures o2 == Pass && loaded == s
    ensures e2 == [FileRead(CommandSyntax.SessionPath(SessionsIn(varPath), CommandSyntax.SaveName(args).value)),
                   Called(Print)]
  {
    SavedLoads(SessionsIn(varPath), "Invalid session id", args, s, other, loaded, f0, f1, e1, e2, [], o2, Print);
  }

  /** `/save` and `/load` as written: they hand the file reader and writer the path as the
      array of its parts, which the local implementation passes on to the file system;
      the file system refuses a path that is not a string. So a name either handler
      accepts fails there, with no file touched and the conversation unchanged. */
  ghost predicate HandledAsWritten(h: Handler, args: string, before: Snapshot, after: Snapshot,
                                   files: map<string, string>, written: map<string, string>,
                                   events: seq<Event>, o: Outcome)
    requires h == SaveHandler || h == LoadHandler
  {
    after == before && written == files && events == [] && o.Fail?
    && (h == SaveHandler && CommandSyntax.SaveName(args).Err? ==> o == Fail("Invalid file name"))
    && (h == LoadHandler && CommandSyntax.LoadName(args).None? ==> o == Fail("Invalid session id"))
  }

  /** As written, `/save` followed by `/load` with the same accepted name restores
      nothing: both fail, the files stay as they were and the conversation is whatever it
      had become, where the corrected handlers restore the saved conversation
      (`SaveThenLoad`). */
  lemma {:induction false} SaveThenLoadAsWritten(args: string, s: Snapshot, other: Snapshot, loaded: Snapshot,
                                                 f0: map<string, string>, f1: map<string, string>,
                                                 e1: seq<Event>, e2: seq<Event>, o1: Outcome, o2: Outcome)
    requires CommandSyntax.LoadName(args).Some?
    requires HandledAsWritten(SaveHandler, args, s, s, f0, f1, e1, o1)
    requires HandledAsWritten(LoadHandler, args, other, loaded, f1, f1, e2, o2)
    ensures o1.Fail? && o2.Fail? && f1 == f0 && loaded == other
    ensures s != other ==> loaded != s
  {
  }

  /** The conversation a handler works on, and the host's callbacks `print`, `exit` and
      `retry`, which are recorded as they are called. */
  class CmdContext {
    const chat: CoreChat.Chat

    constructor(chat: CoreChat.Chat)
      ensures this.chat == chat
    {
      this.chat := chat;
    }
  }

  /** `CmdHandlerStack`: the table it was built with. */
  class CmdHandlerStack {
    const handlers: map<string, Handler>
    /** The variable-data folder of the handlers' file reader and writer. */
    const varPath: string

    constructor(handlers: map<string, Handler>, varPath: string)
      ensures this.handlers == handlers && this.varPath == varPath
    {
      this.handlers := handlers;
      this.varPath := varPath;
    }

    /** `handle(cmd, context)`: the command is a slash, letters and, after any spaces,
        the arguments; the handler under "/" and the letters gets the arguments. Nothing
        is done for input that is not a command, or whose key is not in the table. */
    method Handle(cmd: string, ctx: CmdContext, world: World) returns (o: Outcome, ghost events: seq<Event>)
      modifies ctx.chat, world
      ensures world.rows == old(world.rows) && world.trace == old(world.trace) + events
      ensures CommandSyntax.ParseCommand(cmd).None? ==>
        o == Fail("Invalid input") && events == [] && world.files == old(world.files)
        && (ctx.chat.prompt, ctx.chat.messages) == old((ctx.chat.prompt, ctx.chat.messages))
      ensures CommandSyntax.ParseCommand(cmd).Some? && CommandSyntax.HandlerKey(CommandSyntax.ParseCommand(cmd).value) !in handlers ==>
        o == Fail("Invalid command") && events == [] && world.files == old(world.files)
        && (ctx.chat.prompt, ctx.chat.messages) == old((ctx.chat.prompt, ctx.chat.messages))
      ensures CommandSyntax.ParseCommand(cmd).Some? && CommandSyntax.HandlerKey(CommandSyntax.ParseCommand(cmd).value) in handlers ==>
        var c := CommandSyntax.ParseCommand(cmd).value;
        Handled(handlers[CommandSyntax.HandlerKey(c)], varPath, c.args, old((ctx.chat.prompt, ctx.chat.messages)),
                (ctx.chat.prompt, ctx.chat.messages), old(world.files), world.files, events, o)
    {
      events := [];
      var parsed := CommandSyntax.ParseCommand(cmd);
      if parsed.None? {
        return Fail("Invalid input"), events;
      }
      var key := CommandSyntax.HandlerKey(parsed.value);
      if key !in handlers {
        return Fail("Invalid command"), events;
      }
      o, events := Run(handlers[key], varPath, parsed.value.args, ctx, world);
    }
  }

  /** `handler.handle(affix, context)` for the handler `h`. */
  method Run(h: Handler, varPath: string, args: string, ctx: CmdContext, world: World)
    returns (o: Outcome, ghost events: seq<Event>)
    modifies ctx.chat, world
    ensures world.rows == old(world.rows) && world.trace == old(world.trace) + events
    ensures Handled(h, varPath, args, old((ctx.chat.prompt, ctx.chat.messages)), (ctx.chat.prompt, ctx.chat.messages),
                    old(world.files), world.files, events, o)
  {
    match h
    case UndoHandler => o, events := Undo(args, ctx, world);
    case SaveHandler => o, events := Save(varPath, args, ctx, world);
    case LoadHandler => o, events := Load(varPath, args, ctx, world);
    case ExitHandler =>
      world.Call(Exit);
      o, events := Pass, [Called(Exit)];
    case RetryHandler =>
      o := world.CallAsync(Retry);
      events := [Called(Retry)];
  }

  /** `UndoHandler.handle`. */
  method Undo(args: string, ctx: CmdContext, world: World) returns (o: Outcome, ghost events: seq<Event>)
    modifies ctx.chat, world
    ensures world.rows == old(world.rows) && world.trace == old(world.trace) + events
    ensures world.files == old(world.files)
    ensures Undone(args, old((ctx.chat.prompt, ctx.chat.messages)), (ctx.chat.prompt, ctx.chat.messages), events, o)
  {
    var count := UndoCount(args);
    if count <= 0 {
      return Fail("Invalid undo count"), [];
    }
    o := ctx.chat.Undo(count);
    world.Call(Print);
    events := [Called(Print)];
  }

  /** `SaveHandler.handle`, writing to `<varPath>/session/<name>.json`. */
  method Save(varPath: string, args: string, ctx: CmdContext, world: World) returns (o: Outcome, ghost events: seq<Event>)
    modifies world
    ensures world.rows == old(world.rows) && world.trace == old(world.trace) + events
    ensures SavedAs(SessionsIn(varPath), args, (ctx.chat.prompt, ctx.chat.messages), old(world.files), world.files, events, o, [])
  {
    var name := CommandSyntax.SaveName(args);
    if name.Err? {
      return Fail(name.error), [];
    }
    var json := ctx.chat.Dehydrate();
    var path := CommandSyntax.SessionPath(SessionsIn(varPath), name.value);
    o := world.Write(path, json);
    events := [FileWritten(path, json)];
  }

  /** `LoadHandler.handle`, reading `<varPath>/session/<name>.json`. */
  method Load(varPath: string, args: string, ctx: CmdContext, world: World) returns (o: Outcome, ghost events: seq<Event>)
    modifies ctx.chat, world
    ensures world.rows == old(world.rows) && world.trace == old(world.trace) + events
    ensures world.files == old(world.files)
    ensures LoadedAs(SessionsIn(varPath), "Invalid session id", args, old((ctx.chat.prompt, ctx.chat.messages)),
                     (ctx.chat.prompt, ctx.chat.messages), old(world.files), events, o, Print)
  {
    var name := CommandSyntax.LoadName(args);
    if name.None? {
      return Fail("Invalid session id"), [];
    }
    var path := CommandSyntax.SessionPath(SessionsIn(varPath), name.value);
    var content := world.Read(path);
    events := [FileRead(path)];
    if content.Err? {
      return Fail(content.error), events;
    }
    o := ctx.chat.Hydrate(content.value);
    if o.Fail? {
      return;
    }
    world.Call(Print);
    events := events + [Called(Print)];
  }

  /** The stack the module exports, over the variable-data folder `varPath`. */
  method DefaultStack(varPath: string) returns (stack: CmdHandlerStack)
    ensures fresh(stack) && stack.handlers == DefaultTable() && stack.varPath == varPath
  {
    stack := new CmdHandlerStack(DefaultTable(), varPath);
  }
}
