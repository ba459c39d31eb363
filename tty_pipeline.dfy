/** The handlers of the terminal pipeline in `core/tty/handler`: the input handler that
    turns a line into a user message or a command, the completion handler that asks the
    model when a request is pending, and the ping handler that pings the provider once.
    Each works on a pipeline context holding the conversation of chat.ts; the context's
    `request()` and `next()` are recorded as they are called. */
module TtyPipeline {
  import opened Wrappers
  import opened Messages
  import opened Text
  import opened Effects
  import CommandSyntax
  import CoreChat
  import RichChat
  import TtyCore
  import CmdStack

  type Snapshot = CmdStack.Snapshot

  /** `toCompletionRequest` of the completion handler: a system message with the prompt,
      even an empty one, then the messages in order. */
  function PipelineRequest(prompt: string, ms: seq<Message>): seq<Message> {
    [Message(System, prompt)] + ms
  }

  /** Unlike the TTY's own request, the pipeline's always leads with the prompt and never
      sends the histories: for a chat without histories the two agree exactly when the
      prompt is set, and an empty prompt adds one empty system message in front. */
  lemma {:induction false} PipelineRequestVsTty(s: RichChat.ChatState)
    requires s.histories == []
    ensures s.prompt != "" ==> PipelineRequest(s.prompt, s.messages) == TtyCore.ToCompletionRequest(s)
    ensures s.prompt == "" ==>
      PipelineRequest(s.prompt, s.messages) == [Message(System, "")] + TtyCore.ToCompletionRequest(s)
    ensures |PipelineRequest(s.prompt, s.messages)| == 1 + |s.messages|
  {
    var r := TtyCore.ToCompletionRequest(s);
    assert r[|r| - |s.messages|..] == s.messages;
  }

  /** What `retry(context)` does to the conversation `before`: with `i` the index of the
      last user message, the messages after it are undone and its content added back as a
      user message, and a request is made; nothing happens without a user message. */
  ghost predicate Retried(before: Snapshot, after: Snapshot, events: seq<Event>) {
    var i := FindLastUser(before.1);
    (i == -1 ==> after == before && events == [])
    && (i >= 0 ==> after == (before.0, before.1[..i + 1]) && events == [Called(Request)])
  }

  /** A retried conversation ends with its last user message, so a second `retry` asks
      the same again and changes nothing more. */
  lemma {:induction false} RetryIdempotent(before: Snapshot, mid: Snapshot, after: Snapshot,
                                           e1: seq<Event>, e2: seq<Event>)
    requires Retried(before, mid, e1) && Retried(mid, after, e2)
    ensures after == mid && e2 == e1
  {
    var i := FindLastUser(before.1);
    if i >= 0 {
      var ms := before.1[..i + 1];
      assert ms[|ms| - 1] == before.1[i];
      assert FindLastUser(ms) == i;
      assert mid.1[..i + 1] == ms;
    }
  }

  /** What `InputHandler.handle` did with the line `input`, from the conversation
      `before` and the files `files` to `after` and `written`, given the events it added,
      its outcome, and the context's `isDone` before and after:
      - a line that does not start with "/" is added as a user message, then `request()`
        and `next()` are called;
      - a command is a slash, letters, any spaces and its arguments ("Invalid input"
        otherwise): `exit` calls `done()`; `save` and `load` keep sessions in `folder` and
        call `next()` once they succeed; `undo` drops two messages and calls `next()`;
        `retry` retries and calls `next()`; any other verb is "Invalid command". */
  ghost predicate InputHandled(folder: string, input: string, before: Snapshot, after: Snapshot,
                               files: map<string, string>, written: map<string, string>,
                               events: seq<Event>, o: Outcome, doneBefore: bool, doneAfter: bool)
  {
    if !StartsWith(input, "/") then
      o == Pass && after == (before.0, before.1 + [Message(User, input)]) && written == files
      && events == [Called(Request), Called(Next)] && doneAfter == doneBefore
    else match CommandSyntax.ParseCommand(input)
      case None =>
        o == Fail("Invalid input") && after == before && written == files && events == [] && doneAfter == doneBefore
      case Some(c) =>
        CommandHandled(folder, c, before, after, files, written, events, o, doneBefore, doneAfter)
  }

  /** What the input handler did with the command `c`. */
  ghost predicate CommandHandled(folder: string, c: CommandSyntax.Command, before: Snapshot, after: Snapshot,
                                 files: map<string, string>, written: map<string, string>,
                                 events: seq<Event>, o: Outcome, doneBefore: bool, doneAfter: bool)
  {
    if c.verb == "exit" then
      o == Pass && after == before && written == files && events == [] && doneAfter
    else if c.verb == "save" then
      after == before && doneAfter == doneBefore
      && CmdStack.SavedAs(folder, c.args, before, files, written, events, o, [Called(Next)])
    else if c.verb == "load" then
      written == files && doneAfter == doneBefore
      && CmdStack.LoadedAs(folder, "Invalid sessions id", c.args, before, after, files, events, o, Next)
    else if c.verb == "undo" then
      o == Pass && written == files && doneAfter == doneBefore && events == [Called(Next)]
      && after == (before.0, before.1[..if 2 <= |before.1| then |before.1| - 2 else 0])
    else if c.verb == "retry" then
      o == Pass && written == files && doneAfter == doneBefore
      && |events| >= 1 && events[|events| - 1] == Called(Next) && Retried(before, after, events[..|events| - 1])
    else
      o == Fail("Invalid command") && after == before && written == files && events == [] && doneAfter == doneBefore
  }

  /** `/save` and then `/load` with the same name, which `/load` accepts, bring the
      saved conversation back. */
  lemma {:induction false} SaveThenLoadInput(folder: string, args: string, s: Snapshot, other: Snapshot,
                                             loaded: Snapshot, f0: map<string, string>, f1: map<string, string>,
                                             e1: seq<Event>, e2: seq<Event>, o2: Outcome, d: bool)
    requires CommandSyntax.LoadName(args).Some?
    requires CommandHandled(folder, CommandSyntax.Command("save", args), s, s, f0, f1, e1, Pass, d, d)
    requires CommandHandled(folder, CommandSyntax.Command("load", args), other, loaded, f1, f1, e2, o2, d, d)
    ensures o2 == Pass && loaded == s
  {
    CmdStack.SavedLoads(folder, "Invalid sessions id", args, s, other, loaded, f0, f1, e1, e2, [Called(Next)], o2, Next);
  }

  /** A line said and then `/undo` take the conversation back to what it was without
      the line's message and the one before it. */
  lemma {:induction false} SayThenUndo(folder: string, line: string, args: string, before: Snapshot, mid: Snapshot,
                                       after: Snapshot, f0: map<string, string>, f1: map<string, string>,
                                       f2: map<string, string>, e1: seq<Event>, e2: seq<Event>,
                                       o1: Outcome, o2: Outcome, d: bool)
    requires !StartsWith(line, "/")
    requires InputHandled(folder, line, before, mid, f0, f1, e1, o1, d, d)
    requires CommandHandled(folder, CommandSyntax.Command("undo", args), mid, after, f1, f2, e2, o2, d, d)
    ensures after == (before.0, before.1[..if 1 <= |before.1| then |before.1| - 1 else 0])
    ensures e1 + e2 == [Called(Request), Called(Next), Called(Next)]
  {
    if |before.1| >= 1 {
      assert mid.1[..|mid.1| - 2] == before.1[..|before.1| - 1];
    }
  }

  /** The context a pipeline handler gets: the conversation, whether a request is
      pending, and `isDone`, which only `done()` sets. */
  class PipelineContext {
    const chat: CoreChat.Chat
    const hasRequest: bool
    var isDone: bool

    constructor(chat: CoreChat.Chat, hasRequest: bool)
      ensures this.chat == chat && this.hasRequest == hasRequest && !isDone
    {
      this.chat := chat;
      this.hasRequest := hasRequest;
      isDone := false;
    }

    method Done()
      modifies this
      ensures isDone
    {
      isDone := true;
    }
  }

  /** `InputHandler`, with the sessions folder of the environment. The line it reads from
      the terminal is the parameter `input`. */
  class InputHandler {
    const sessionsFolder: string

    constructor(sessionsFolder: string)
      ensures this.sessionsFolder == sessionsFolder
    {
      this.sessionsFolder := sessionsFolder;
    }

    /** `handle(context)`: see `InputHandled`. */
    method Handle(input: string, ctx: PipelineContext, world: World) returns (o: Outcome, ghost events: seq<Event>)
      modifies ctx, ctx.chat, world
      ensures world.rows == old(world.rows) && world.trace == old(world.trace) + events
      ensures InputHandled(sessionsFolder, input, old((ctx.chat.prompt, ctx.chat.messages)),
                           (ctx.chat.prompt, ctx.chat.messages), old(world.files), world.files,
                           events, o, old(ctx.isDone), ctx.isDone)
    {
      if !StartsWith(input, "/") {
        ctx.chat.AddUserMsg(input);
        world.Call(Request);
        world.Call(Next);
        return Pass, [Called(Request), Called(Next)];
      }
      var parsed := CommandSyntax.ParseCommand(input);
      if parsed.None? {
        return Fail("Invalid input"), [];
      }
      o, events := Command(parsed.value, ctx, world);
    }

    /** The `switch (prefix)` of `handle`: see `CommandHandled`. */
    method Command(c: CommandSyntax.Command, ctx: PipelineContext, world: World) returns (o: Outcome, ghost events: seq<Event>)
      modifies ctx, ctx.chat, world
      ensures world.rows == old(world.rows) && world.trace == old(world.trace) + events
      ensures CommandHandled(sessionsFolder, c, old((ctx.chat.prompt, ctx.chat.messages)),
                             (ctx.chat.prompt, ctx.chat.messages), old(world.files), world.files,
                             events, o, old(ctx.isDone), ctx.isDone)
    {
      if c.verb == "exit" {
        ctx.Done();
        o, events := Pass, [];
      } else if c.verb == "save" {
        o, events := Save(ctx, c.args, world);
      } else if c.verb == "load" {
        o, events := Load(ctx, c.args, world);
      } else if c.verb == "undo" {
        o := ctx.chat.Undo(2);
        world.Call(Next);
        events := [Called(Next)];
      } else if c.verb == "retry" {
        events := Retry(ctx, world);
        world.Call(Next);
        events := events + [Called(Next)];
        o := Pass;
      } else {
        o, events := Fail("Invalid command"), [];
      }
    }

    /** `save(context, args)`. */
    method Save(ctx: PipelineContext, args: string, world: World) returns (o: Outcome, ghost events: seq<Event>)
      modifies world
      ensures world.rows == old(world.rows) && world.trace == old(world.trace) + events
      ensures CmdStack.SavedAs(sessionsFolder, args, (ctx.chat.prompt, ctx.chat.messages), old(world.files),
                               world.files, events, o, [Called(Next)])
    {
      var name := CommandSyntax.SaveName(args);
      if name.Err? {
        return Fail(name.error), [];
      }
      var json := ctx.chat.Dehydrate();
      var path := CommandSyntax.SessionPath(sessionsFolder, name.value);
      o := world.Write(path, json);
      events := [FileWritten(path, json)];
      if o.Pass? {
        world.Call(Next);
        events := events + [Called(Next)];
      }
    }

    /** `load(context, args)`. */
    method Load(ctx: PipelineContext, args: string, world: World) returns (o: Outcome, ghost events: seq<Event>)
      modifies ctx.chat, world
      ensures world.rows == old(world.rows) && world.files == old(world.files)
      ensures world.trace == old(world.trace) + events
      ensures CmdStack.LoadedAs(sessionsFolder, "Invalid sessions id", args, old((ctx.chat.prompt, ctx.chat.messages)),
                                (ctx.chat.prompt, ctx.chat.messages), old(world.files), events, o, Next)
    {
      var name := CommandSyntax.LoadName(args);
      if name.None? {
        return Fail("Invalid sessions id"), [];
      }
      var path := CommandSyntax.SessionPath(sessionsFolder, name.value);
      var content := world.Read(path);
      events := [FileRead(path)];
      if content.Err? {
        return Fail(content.error), events;
      }
      o := ctx.chat.Hydrate(content.value);
      if o.Fail? {
        return;
      }
      world.Call(Next);
      events := events + [Called(Next)];
    }

    /** `retry(context)`: see `Retried`. */
    method Retry(ctx: PipelineContext, world: World) returns (ghost events: seq<Event>)
      modifies ctx.chat, world
      ensures world.rows == old(world.rows) && world.files == old(world.files)
      ensures world.trace == old(world.trace) + events
      ensures Retried(old((ctx.chat.prompt, ctx.chat.messages)), (ctx.chat.prompt, ctx.chat.messages), events)
    {
      var messages := ctx.chat.messages;
      var index := FindLastUser(messages);
      if index == -1 {
        return [];
      }
      var lastMsg := messages[index];
      var _ := ctx.chat.Undo(|messages| - index);
      ctx.chat.AddUserMsg(lastMsg.content);
      assert messages[..index] + [Message(User, lastMsg.content)] == messages[..index + 1];
      world.Call(Request);
      events := [Called(Request)];
    }
  }

  /** `CompletionHandler.handle(context)`: without a pending request only `next()` is
      called; otherwise the conversation is sent as `PipelineRequest` builds it and the
      answer, when there is one, is added as an assistant message, and `next()` is not
      called. */
  method Complete(ctx: PipelineContext, world: World) returns (o: Outcome, ghost answer: Result<string>, ghost events: seq<Event>)
    modifies ctx.chat, world
    ensures world.rows == old(world.rows) && world.files == old(world.files)
    ensures world.trace == old(world.trace) + events
    ensures ctx.chat.prompt == old(ctx.chat.prompt)
    ensures !ctx.hasRequest ==> o == Pass && events == [Called(Next)] && ctx.chat.messages == old(ctx.chat.messages)
    ensures ctx.hasRequest ==>
      events == [Completion(PipelineRequest(old(ctx.chat.prompt), old(ctx.chat.messages)))]
      && (answer.Err? ==> o == Fail(answer.error) && ctx.chat.messages == old(ctx.chat.messages))
      && (answer.Ok? ==> o == Pass && ctx.chat.messages == old(ctx.chat.messages) + [Message(Assistant, answer.value)])
  {
    answer := Err("");
    if !ctx.hasRequest {
      world.Call(Next);
      return Pass, answer, [Called(Next)];
    }
    var request := PipelineRequest(ctx.chat.prompt, ctx.chat.messages);
    var response := world.Complete(request);
    answer := response;
    events := [Completion(request)];
    if response.Err? {
      return Fail(response.error), answer, events;
    }
    ctx.chat.AddAssistantMsg(response.value);
    o := Pass;
  }

  /** `PingHandler`: pings the provider on the first `handle` that gets an answer, and
      only passes the context on after that. */
  class PingHandler {
    var isDone: bool

    constructor()
      ensures !isDone
    {
      isDone := false;
    }

    /** `handle(context)`: once a ping has succeeded, `next()` is all it does; before
        that it pings, and only a successful ping sets `isDone` and calls `next()`. */
    method Handle(world: World) returns (o: Outcome, ghost events: seq<Event>)
      modifies this, world
      ensures world.rows == old(world.rows) && world.files == old(world.files)
      ensures world.trace == old(world.trace) + events
      ensures old(isDone) ==> o == Pass && isDone && events == [Called(Next)]
      ensures !old(isDone) && o.Pass? ==> isDone && events == [Pinged, Called(Next)]
      ensures !old(isDone) && o.Fail? ==> !isDone && events == [Pinged]
    {
      if isDone {
        world.Call(Next);
        return Pass, [Called(Next)];
      }
      o := world.Ping();
      if o.Fail? {
        return o, [Pinged];
      }
      isDone := true;
      world.Call(Next);
      events := [Pinged, Called(Next)];
    }
  }
}
