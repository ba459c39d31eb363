/** The worker that handles one queued Telegram update: it loads (or creates) the stored
    conversation, routes the text to the model or to the command interpreter, replies,
    and always writes the conversation back with its lock released and acknowledges the
    queue message. */
module TelegramWorker {
  import opened Wrappers
  import opened Text
  import opened Messages
  import opened ChatEntities
  import opened Effects
  import Json
  import RichChat
  import LlmClient
  import TelegramClient
  import TelegramCommand
  import MessageQueue
  import CommandSyntax

  /** The queue message: the bot's namespace, the Telegram chat id and the update's text. */
  datatype WorkerMessage = WorkerMessage(namespace: string, chatId: int, text: string)

  const EmptyContent := "**Error: LLM engine return empty content**"

  /** The lock a conversation created by the worker holds, in seconds. */
  const NewChatSeconds := 60

  /** The first bot whose namespace is exactly `key`. */
  function FirstBot(bots: seq<TelegramClient.BotEnv>, key: string): (r: Option<TelegramClient.BotEnv>)
    ensures r.None? <==> forall i :: 0 <= i < |bots| ==> bots[i].namespace != key
    ensures r.Some? ==> r.value.namespace == key && r.value in bots
  {
    if bots == [] then None
    else if bots[0].namespace == key then Some(bots[0])
    else
      var r := FirstBot(bots[1..], key);
      assert forall i :: 1 <= i < |bots| ==> bots[i] == bots[1..][i - 1];
      r
  }

  /** `getBotEnv` exactly as written: the error message interpolates the failed search's
      result, which is always `undefined` there. */
  function GetBotEnvAsWritten(bots: seq<TelegramClient.BotEnv>, namespace: string): Result<TelegramClient.BotEnv> {
    match FirstBot(bots, ToLower(namespace))
    case None => Err("Cannot find provider by name undefined")
    case Some(b) => Ok(b)
  }

  /** As written, every unknown namespace gives the same message, which names none. */
  lemma {:induction false} MissingBotAsWritten(bots: seq<TelegramClient.BotEnv>, a: string, b: string)
    requires FirstBot(bots, ToLower(a)).None? && FirstBot(bots, ToLower(b)).None?
    ensures GetBotEnvAsWritten(bots, a) == GetBotEnvAsWritten(bots, b) == Err("Cannot find provider by name undefined")
  {
  }

  function MissingBot(namespace: string): string {
    "Cannot find provider by name " + namespace
  }

  /** `getBotEnv`: the bot whose namespace equals the message's namespace lower-cased
      (the bot's own namespace is not lower-cased). The error names the namespace. */
  function GetBotEnv(bots: seq<TelegramClient.BotEnv>, namespace: string): (r: Result<TelegramClient.BotEnv>)
    ensures r.Ok? <==> exists i :: 0 <= i < |bots| && bots[i].namespace == ToLower(namespace)
    ensures r.Ok? ==> r.value.namespace == ToLower(namespace) && r.value in bots
    ensures r.Err? ==> r.error == MissingBot(namespace)
    ensures r.Ok? <==> GetBotEnvAsWritten(bots, namespace).Ok?
  {
    match FirstBot(bots, ToLower(namespace))
    case None => Err(MissingBot(namespace))
    case Some(b) => Ok(b)
  }

  /** Two unknown namespaces give two different messages. */
  lemma {:induction false} MissingBotNamed(bots: seq<TelegramClient.BotEnv>, a: string, b: string)
    requires GetBotEnv(bots, a).Err? && GetBotEnv(bots, b).Err? && a != b
    ensures GetBotEnv(bots, a).error != GetBotEnv(bots, b).error
  {
    var n := |"Cannot find provider by name "|;
    assert MissingBot(a)[n..] == a && MissingBot(b)[n..] == b;
  }

  /** A namespace the worker accepts is one `sendMessage` accepts too, so the worker's
      replies are not refused for their namespace. */
  lemma {:induction false} AcceptedNamespaceReplies(bots: seq<TelegramClient.BotEnv>, namespace: string)
    requires GetBotEnv(bots, namespace).Ok?
    ensures TelegramClient.FindBot(bots, namespace).Some?
  {
    var b := GetBotEnv(bots, namespace).value;
    var i :| 0 <= i < |bots| && bots[i] == b;
    UpperOfLower(namespace);
    assert TelegramClient.SameNamespace(bots[i].namespace, namespace);
    TelegramClient.FindBotFirst(bots, namespace);
  }

  /** The entity a conversation seen for the first time gets: a 60-second lock and an
      empty chat. */
  function NewEntity(chatId: int, now: int): ChatEntity {
    GetNewChat(chatId, Some(NewChatSeconds), Some(EmptyChat), now)
  }

  /** The entity the worker goes on with: the stored one when it has a document,
      otherwise a new one. */
  function LoadedEntity(chatId: int, stored: Option<ChatEntity>, now: int): ChatEntity {
    if stored.Some? && stored.value.json.Some? then stored.value else NewEntity(chatId, now)
  }

  function Stored(rows: map<int, ChatEntity>, chatId: int): Option<ChatEntity> {
    if chatId in rows then Some(rows[chatId]) else None
  }

  /** The entity written back once the update is handled: the chat's document and a
      released lock. */
  function Released(e: ChatEntity, s: RichChat.ChatState): ChatEntity {
    e.(json := Some(RichChat.Document(s)), lock := Some(Lock(None)))
  }

  /** The entity written back holds the chat as the worker left it, and its conversation
      admits the next update at any time. */
  lemma {:induction false} ReleasedAdmitsNext(e: ChatEntity, s: RichChat.ChatState, t: int)
    ensures Released(e, s).json == Json.Parse(RichChat.DehydrateState(s))
    ensures RichChat.HydrateText(Json.Encode(Released(e, s).json.value)) == Ok(s)
    ensures MessageQueue.IsLockValid(Released(e, s).lock, t)
    ensures Released(e, s).remoteId == e.remoteId
  {
    RichChat.DocumentText(s, RichChat.Document(s));
    RichChat.HydrateDocument(s);
  }

  /** A conversation the worker creates is held for 60 seconds, and starts empty. */
  lemma {:induction false} NewEntityHeld(chatId: int, now: int, t: int)
    ensures !MessageQueue.IsLockValid(NewEntity(chatId, now).lock, t) <==> t <= now + NewChatSeconds
    ensures RichChat.HydrateValue(NewEntity(chatId, now).json.value) == Ok(EmptyChat)
  {
    NewChatHydrates(chatId, Some(NewChatSeconds), Some(EmptyChat), now);
  }

  /** `getEntityAndChat` as written: `getNewChat` is handed one options object where it
      takes the remote id followed by the options, so the options default and the lock
      gets no expiry, and the entity's remote id is that object, not the chat id. `key`
      stands for whatever the entity is stored under then. */
  function NewEntityAsWritten(key: int, now: int): (e: ChatEntity)
    ensures e.remoteId == key
  {
    GetNewChat(key, None, None, now)
  }

  /** As written, a conversation the worker creates is not held at all (a second update
      for it is admitted at once, where the intended entity holds it until 60 seconds
      later), and it is not stored under its chat id. */
  lemma {:induction false} NewEntityAsWrittenReleased(key: int, chatId: int, now: int, t: int)
    requires key != chatId
    ensures MessageQueue.IsLockValid(NewEntityAsWritten(key, now).lock, t)
    ensures !MessageQueue.IsLockValid(NewEntity(chatId, now).lock, now)
    ensures Stored(map[key := NewEntityAsWritten(key, now)], chatId).None?
  {
    NewChatTtl(key, None, now, 0);
    NewEntityHeld(chatId, now, now);
  }

  /** What loading the conversation did to the store: the lookup, followed by the save of
      a new entity when none with a document was stored (or the lookup failed). */
  predicate EntityLoaded(chatId: int, now: int, before: map<int, ChatEntity>, after: map<int, ChatEntity>,
                         events: seq<Event>)
  {
    var stored := Stored(before, chatId);
    (events == [Found(chatId)] && after == before)
    || (events == [Found(chatId), Saved(NewEntity(chatId, now))]
        && (stored.None? || stored.value.json.None?)
        && (after == before || after == before[chatId := NewEntity(chatId, now)]))
  }

  /** The events of a load that succeeded: the lookup, then the save of the new entity
      unless a stored one had a document. */
  function LoadEvents(chatId: int, now: int, stored: Option<ChatEntity>): seq<Event> {
    if stored.Some? && stored.value.json.Some? then [Found(chatId)] else [Found(chatId), Saved(NewEntity(chatId, now))]
  }

  /** The store after a load that succeeded. */
  function LoadedRows(chatId: int, now: int, rows: map<int, ChatEntity>): map<int, ChatEntity> {
    var stored := Stored(rows, chatId);
    if stored.Some? && stored.value.json.Some? then rows else rows[chatId := NewEntity(chatId, now)]
  }

  /** What handling a parsed message did, from the store `before` and the files `files`.
      When the conversation could not be loaded, the events are those of loading it and
      none is a reply: such errors are only logged. Otherwise the loaded entity is the
      stored one with a document or a new one, and the chat starts as its document says;
      the events are the load's, then what routing the text did (`handled`, ending in
      `inner`), the error reply, and the save that writes the final chat back with the
      lock released; the store is the loaded one, with at most that save. */
  predicate Processed(bots: seq<TelegramClient.BotEnv>, root: string, m: WorkerMessage, now: int,
                      files: map<string, string>, before: map<int, ChatEntity>, after: map<int, ChatEntity>,
                      events: seq<Event>, loaded: Option<ChatEntity>, final: Side,
                      handled: seq<Event>, inner: Outcome)
  {
    if loaded.None? then
      EntityLoaded(m.chatId, now, before, after, events)
      && forall i :: 0 <= i < |events| ==> !events[i].Replied?
    else
      var e := loaded.value;
      LoadedAround(m, now, before, after, events, e, final, handled, inner)
      && Routed(bots, root, m, Side(RichChat.HydrateValue(e.json.value).value, [], files), final, handled, inner)
  }

  /** What `Processed` says of a loaded conversation `e` around the routing of its text. */
  predicate LoadedAround(m: WorkerMessage, now: int, before: map<int, ChatEntity>, after: map<int, ChatEntity>,
                         events: seq<Event>, e: ChatEntity, final: Side, handled: seq<Event>, inner: Outcome)
  {
    var mid := LoadedRows(m.chatId, now, before);
    e == LoadedEntity(m.chatId, Stored(before, m.chatId), now)
    && e.json.Some? && RichChat.HydrateValue(e.json.value).Ok?
    && events == LoadEvents(m.chatId, now, Stored(before, m.chatId)) + handled + ErrorReplies(inner)
                 + ReleaseSaves(e, final.chat)
    && (after == mid || after == mid[e.remoteId := Released(e, final.chat)])
  }

  /** What `sendRequest` did, from the chat state `before`: the completion request for
      that state, then either nothing more (the request failed), the empty-content notice
      with the chat unchanged, or a reply with the answer after the answer was added to
      the chat as an assistant message. */
  predicate RequestSent(before: RichChat.ChatState, after: RichChat.ChatState, events: seq<Event>, o: Outcome) {
    |events| >= 1 && events[0] == Completion(LlmClient.ToCompletionRequest(before))
    && ((|events| == 1 && after == before && o.Fail?)
        || (|events| == 2 && events[1] == Replied(EmptyContent) && after == before)
        || (|events| == 2 && events[1].Replied? && events[1].text != ""
            && after == before.(messages := before.messages + [Message(Assistant, events[1].text)])))
  }

  /** What the `try` block of `handleWithEntityAndChat` did, given the configured bots
      and the application's prompts folder `root`: an unknown namespace fails before
      anything happens; text that does not start with "/" is added as a user message and
      sent to the model; a command is handled by the interpreter as
      `TelegramCommand.Handled` says for the bot's prompts folder. */
  predicate Routed(bots: seq<TelegramClient.BotEnv>, root: string, m: WorkerMessage, before: Side, after: Side,
                   events: seq<Event>, o: Outcome)
  {
    match GetBotEnv(bots, m.namespace)
    case Err(_) => o == Fail(MissingBot(m.namespace)) && events == [] && after == before
    case Ok(bot) =>
      if !StartsWith(m.text, "/") then
        after.files == before.files && after.calls == before.calls
        && RequestSent(before.chat.(messages := before.chat.messages + [Message(User, m.text)]), after.chat, events, o)
      else
        TelegramCommand.Handled(TelegramCommand.PromptsFolder(root, bot), m.text, before, after, events, o)
  }

  /** The reply `handleWithEntityAndChat` sends for an error. */
  function ErrorReplies(inner: Outcome): seq<Event> {
    if inner.Fail? then [Replied("Error: " + inner.error)] else []
  }

  /** The save that releases the lock, when the entity has one. */
  function ReleaseSaves(e: ChatEntity, s: RichChat.ChatState): seq<Event> {
    if e.lock.Some? then [Saved(Released(e, s))] else []
  }

  /** A conversation that was loaded, and whose routed text did `handled`, was processed
      as `Processed` says. */
  lemma {:induction false} LoadedProcessed(bots: seq<TelegramClient.BotEnv>, root: string, m: WorkerMessage, now: int,
                                           files: map<string, string>, before: map<int, ChatEntity>,
                                           after: map<int, ChatEntity>, load: seq<Event>, rest: seq<Event>,
                                           e: ChatEntity, start: Side, final: Side, handled: seq<Event>,
                                           inner: Outcome)
    requires e == LoadedEntity(m.chatId, Stored(before, m.chatId), now) && e.json.Some?
    requires RichChat.HydrateValue(e.json.value) == Ok(start.chat) && start == Side(start.chat, [], files)
    requires load == LoadEvents(m.chatId, now, Stored(before, m.chatId))
    requires rest == handled + ErrorReplies(inner) + ReleaseSaves(e, final.chat)
    requires var mid := LoadedRows(m.chatId, now, before);
             after == mid || after == mid[e.remoteId := Released(e, final.chat)]
    requires Routed(bots, root, m, start, final, handled, inner)
    ensures Processed(bots, root, m, now, files, before, after, load + rest, Some(e), final, handled, inner)
  {
    LoadedAroundHolds(m, now, before, after, load, rest, e, final, handled, inner);
    assert Side(RichChat.HydrateValue(e.json.value).value, [], files) == start;
  }

  lemma {:induction false} LoadedAroundHolds(m: WorkerMessage, now: int, before: map<int, ChatEntity>,
                                             after: map<int, ChatEntity>, load: seq<Event>, rest: seq<Event>,
                                             e: ChatEntity, final: Side, handled: seq<Event>, inner: Outcome)
    requires e == LoadedEntity(m.chatId, Stored(before, m.chatId), now) && e.json.Some?
    requires RichChat.HydrateValue(e.json.value).Ok?
    requires load == LoadEvents(m.chatId, now, Stored(before, m.chatId))
    requires rest == handled + ErrorReplies(inner) + ReleaseSaves(e, final.chat)
    requires var mid := LoadedRows(m.chatId, now, before);
             after == mid || after == mid[e.remoteId := Released(e, final.chat)]
    ensures LoadedAround(m, now, before, after, load + rest, e, final, handled, inner)
  {
    assert load + rest == load + handled + ErrorReplies(inner) + ReleaseSaves(e, final.chat);
  }

  /** What `Processed` says of a loaded conversation, taken apart: the events are the
      load's followed by `rest`, and the text was routed from the stored chat. */
  lemma {:induction false} ProcessedLoaded(bots: seq<TelegramClient.BotEnv>, root: string, m: WorkerMessage, now: int,
                                           files: map<string, string>, before: map<int, ChatEntity>,
                                           after: map<int, ChatEntity>, events: seq<Event>,
                                           loaded: Option<ChatEntity>, final: Side, handled: seq<Event>,
                                           inner: Outcome)
    requires Processed(bots, root, m, now, files, before, after, events, loaded, final, handled, inner)
    requires loaded.Some?
    ensures loaded.value.json.Some? && RichChat.HydrateValue(loaded.value.json.value).Ok?
    ensures events == LoadEvents(m.chatId, now, Stored(before, m.chatId))
                      + (handled + ErrorReplies(inner) + ReleaseSaves(loaded.value, final.chat))
    ensures Routed(bots, root, m, Side(RichChat.HydrateValue(loaded.value.json.value).value, [], files), final,
                   handled, inner)
  {
    LoadedAroundEvents(m, now, before, after, events, loaded.value, final, handled, inner);
  }

  lemma {:induction false} LoadedAroundEvents(m: WorkerMessage, now: int, before: map<int, ChatEntity>,
                                              after: map<int, ChatEntity>, events: seq<Event>, e: ChatEntity,
                                              final: Side, handled: seq<Event>, inner: Outcome)
    requires LoadedAround(m, now, before, after, events, e, final, handled, inner)
    ensures e.json.Some? && RichChat.HydrateValue(e.json.value).Ok?
    ensures events == LoadEvents(m.chatId, now, Stored(before, m.chatId))
                      + (handled + ErrorReplies(inner) + ReleaseSaves(e, final.chat))
  {
    var load := LoadEvents(m.chatId, now, Stored(before, m.chatId));
    assert load + handled + ErrorReplies(inner) + ReleaseSaves(e, final.chat)
        == load + (handled + ErrorReplies(inner) + ReleaseSaves(e, final.chat));
  }

  /** A loaded conversation with a lock ends with the save of its final chat, and that
      save releases the conversation for any later update. */
  lemma {:induction false} ProcessedReleases(bots: seq<TelegramClient.BotEnv>, root: string, m: WorkerMessage, now: int,
                                             files: map<string, string>, before: map<int, ChatEntity>,
                                             after: map<int, ChatEntity>, events: seq<Event>,
                                             loaded: Option<ChatEntity>, final: Side, handled: seq<Event>,
                                             inner: Outcome, t: int)
    requires Processed(bots, root, m, now, files, before, after, events, loaded, final, handled, inner)
    requires loaded.Some? && loaded.value.lock.Some?
    ensures |events| >= 2 && events[0] == Found(m.chatId)
    ensures events[|events| - 1] == Saved(Released(loaded.value, final.chat))
    ensures MessageQueue.IsLockValid(events[|events| - 1].entity.lock, t)
  {
    ProcessedLoaded(bots, root, m, now, files, before, after, events, loaded, final, handled, inner);
    var load := LoadEvents(m.chatId, now, Stored(before, m.chatId));
    var rest := handled + ErrorReplies(inner) + ReleaseSaves(loaded.value, final.chat);
    assert events[|events| - 1] == rest[|rest| - 1];
    ReleasedAdmitsNext(loaded.value, final.chat, t);
  }

  /** Plain text for a known bot is added to the chat and asked of the model. */
  lemma {:induction false} RoutedPlain(bots: seq<TelegramClient.BotEnv>, root: string, m: WorkerMessage, before: Side,
                                       after: Side, events: seq<Event>, o: Outcome)
    requires Routed(bots, root, m, before, after, events, o)
    requires GetBotEnv(bots, m.namespace).Ok? && !StartsWith(m.text, "/")
    ensures RequestSent(before.chat.(messages := before.chat.messages + [Message(User, m.text)]), after.chat, events, o)
  {
  }

  /** Plain text in a loaded conversation, for a known bot, is asked of the model right
      after the load: the request is the stored chat with the text as a last user
      message, and the chat keeps that message. */
  lemma {:induction false} PlainTextAsked(bots: seq<TelegramClient.BotEnv>, root: string, m: WorkerMessage, now: int,
                                          files: map<string, string>, before: map<int, ChatEntity>,
                                          after: map<int, ChatEntity>, events: seq<Event>,
                                          loaded: Option<ChatEntity>, final: Side, handled: seq<Event>,
                                          inner: Outcome)
    requires Processed(bots, root, m, now, files, before, after, events, loaded, final, handled, inner)
    requires loaded.Some? && GetBotEnv(bots, m.namespace).Ok? && !StartsWith(m.text, "/")
    ensures var start := RichChat.HydrateValue(loaded.value.json.value).value;
            var asked := start.(messages := start.messages + [Message(User, m.text)]);
            var n := |LoadEvents(m.chatId, now, Stored(before, m.chatId))|;
            |events| > n && events[n] == Completion(LlmClient.ToCompletionRequest(asked))
            && |final.chat.messages| > |start.messages|
            && final.chat.messages[..|start.messages| + 1] == asked.messages
  {
    ProcessedLoaded(bots, root, m, now, files, before, after, events, loaded, final, handled, inner);
    var start := RichChat.HydrateValue(loaded.value.json.value).value;
    RoutedPlain(bots, root, m, Side(start, [], files), final, handled, inner);
    var asked := start.(messages := start.messages + [Message(User, m.text)]);
    var load := LoadEvents(m.chatId, now, Stored(before, m.chatId));
    var rest := handled + ErrorReplies(inner) + ReleaseSaves(loaded.value, final.chat);
    assert events[|load|] == rest[0] == handled[0];
    if final.chat != asked {
      assert final.chat.messages == asked.messages + [final.chat.messages[|asked.messages|]];
    }
  }

  class Worker {
    /** The configured bots (`TELEGRAM_BOTS`). */
    const bots: seq<TelegramClient.BotEnv>
    const commands: TelegramCommand.Interpreter

    constructor(bots: seq<TelegramClient.BotEnv>, commands: TelegramCommand.Interpreter)
      ensures this.bots == bots && this.commands == commands
    {
      this.bots := bots;
      this.commands := commands;
    }

    /** `handle(msg, context)`: `payload` is the parsed queue message, None when it is not
        valid JSON. Whatever happens, the message is acknowledged once, after everything
        else. `loaded` is the entity the worker went on with, `final` the chat as it left
        it, and `handled` and `inner` what routing the text did. */
    method Handle(payload: Option<WorkerMessage>, now: int, world: World, delivery: Delivery)
      returns (ghost loaded: Option<ChatEntity>, ghost final: Side, ghost handled: seq<Event>, ghost inner: Outcome)
      modifies world, delivery
      ensures delivery.acks == old(delivery.acks) + [|world.trace|]
      ensures world.files == old(world.files) && Extends(old(world.trace), world.trace)
      ensures payload.None? ==> world.trace == old(world.trace) && world.rows == old(world.rows) && loaded.None?
      ensures payload.Some? ==>
        Processed(bots, commands.promptsRoot, payload.value, now, old(world.files), old(world.rows), world.rows,
                  world.trace[|old(world.trace)|..], loaded, final, handled, inner)
    {
      loaded, final, handled, inner := None, Side(EmptyChat, [], world.files), [], Pass;
      if payload.Some? {
        loaded, final, handled, inner := Process(payload.value, now, world);
      }
      delivery.Ack(world);
    }

    /** The `try` block of `handle`, once the message is parsed. */
    method Process(m: WorkerMessage, now: int, world: World)
      returns (ghost loaded: Option<ChatEntity>, ghost final: Side, ghost handled: seq<Event>, ghost inner: Outcome)
      modifies world
      ensures world.files == old(world.files) && Extends(old(world.trace), world.trace)
      ensures Processed(bots, commands.promptsRoot, m, now, old(world.files), old(world.rows), world.rows,
                        world.trace[|old(world.trace)|..], loaded, final, handled, inner)
    {
      loaded, final, handled, inner := None, Side(EmptyChat, [], world.files), [], Pass;
      var o, entity, chat;
      ghost var loadEvents;
      o, entity, chat, loadEvents := GetEntityAndChat(m, now, world);
      if o.Pass? {
        loaded := Some(entity);
        ghost var start := Snap(chat, world);
        ghost var mid := world.rows;
        var r;
        r, inner, handled := HandleWithEntityAndChat(m, entity, chat, world);
        final := Snap(chat, world);
        ghost var rest := handled + ErrorReplies(inner) + ReleaseSaves(entity, final.chat);
        AppendTwo(old(world.trace), loadEvents, rest);
        assert world.trace[|old(world.trace)|..] == loadEvents + rest;
        LoadedProcessed(bots, commands.promptsRoot, m, now, old(world.files), old(world.rows), world.rows,
                        loadEvents, rest, entity, start, final, handled, inner);
      } else {
        assert world.trace[|old(world.trace)|..] == loadEvents;
      }
    }

    /** `getEntityAndChat`: the stored entity of the conversation when it has a document,
        otherwise a new one (60-second lock, empty chat) that is saved first; then a new
        chat hydrated from the entity's document. */
    method GetEntityAndChat(m: WorkerMessage, now: int, world: World)
      returns (o: Outcome, entity: ChatEntity, chat: RichChat.Chat, ghost events: seq<Event>)
      modifies world
      ensures fresh(chat) && chat.calls == []
      ensures world.files == old(world.files)
      ensures world.trace == old(world.trace) + events
      ensures EntityLoaded(m.chatId, now, old(world.rows), world.rows, events)
      ensures o.Pass? ==>
        entity == LoadedEntity(m.chatId, Stored(old(world.rows), m.chatId), now)
        && entity.json.Some? && RichChat.HydrateValue(entity.json.value) == Ok(chat.State())
      ensures o.Pass? ==>
        events == LoadEvents(m.chatId, now, Stored(old(world.rows), m.chatId))
        && world.rows == LoadedRows(m.chatId, now, old(world.rows))
      ensures world.rows != old(world.rows) ==> o.Pass? && world.rows == old(world.rows)[m.chatId := entity]
    {
      chat := new RichChat.Chat();
      o, entity, events := GetEntity(m, now, world);
      if o.Fail? {
        return;
      }
      NewChatHydrates(m.chatId, Some(NewChatSeconds), Some(EmptyChat), now);
      o := chat.HydrateStored(entity.json.value);
    }

    /** The store part of `getEntityAndChat`: the stored entity of the conversation when
        it has a document, otherwise a new one that is saved. */
    method GetEntity(m: WorkerMessage, now: int, world: World)
      returns (o: Outcome, entity: ChatEntity, ghost events: seq<Event>)
      modifies world
      ensures world.files == old(world.files) && world.trace == old(world.trace) + events
      ensures EntityLoaded(m.chatId, now, old(world.rows), world.rows, events)
      ensures o.Pass? ==>
        entity == LoadedEntity(m.chatId, Stored(old(world.rows), m.chatId), now) && entity.json.Some?
      ensures o.Pass? ==>
        events == LoadEvents(m.chatId, now, Stored(old(world.rows), m.chatId))
        && world.rows == LoadedRows(m.chatId, now, old(world.rows))
      ensures world.rows != old(world.rows) ==>
        o.Pass? && entity == NewEntity(m.chatId, now) && world.rows == old(world.rows)[m.chatId := entity]
    {
      var found := world.Find(m.chatId);
      events := [Found(m.chatId)];
      if found.Err? {
        return Fail(found.error), NewEntity(m.chatId, now), events;
      }
      if found.value.None? || found.value.value.json.None? {
        entity := NewEntity(m.chatId, now);
        o := world.Save(entity);
        events := events + [Saved(entity)];
      } else {
        entity := found.value.value;
        o := Pass;
      }
    }

    /** `handleWithEntityAndChat`: the text is routed as `Routed` says; an error is
        replied as "Error: " and its message. Whatever happened, the entity is then
        written back with the chat's document and its lock released. `inner` is the
        outcome of the routed step and `handled` the events it caused. */
    method HandleWithEntityAndChat(m: WorkerMessage, entity: ChatEntity, chat: RichChat.Chat, world: World)
      returns (o: Outcome, ghost inner: Outcome, ghost handled: seq<Event>)
      modifies chat, world
      ensures world.files == old(world.files)
      ensures world.trace == old(world.trace) + (handled + ErrorReplies(inner) + ReleaseSaves(entity, chat.State()))
      ensures Routed(bots, commands.promptsRoot, m, old(Snap(chat, world)), Snap(chat, world), handled, inner)
      ensures entity.lock.None? ==> o == Fail(NoLock) && world.rows == old(world.rows)
      ensures world.rows == old(world.rows) || world.rows == old(world.rows)[entity.remoteId := Released(entity, chat.State())]
      ensures o.Pass? ==> world.rows == old(world.rows)[entity.remoteId := Released(entity, chat.State())]
      ensures inner.Pass? && o.Fail? ==> world.rows == old(world.rows)
    {
      var result;
      result, handled := Route(m, chat, world);
      inner := result;
      ghost var t1 := world.trace;
      var caught := Pass;
      if result.Fail? {
        caught := world.Reply("Error: " + result.error);
      }
      assert world.trace == t1 + ErrorReplies(inner);
      var released := UpdateEntityAndReleaseLock(entity, chat, world);
      o := if released.Fail? then released else caught;
      AppendThree(old(world.trace), handled, ErrorReplies(inner), ReleaseSaves(entity, chat.State()));
    }

    /** The `try` block of `handleWithEntityAndChat`: the bot lookup, then the model or the
        command interpreter. */
    method Route(m: WorkerMessage, chat: RichChat.Chat, world: World) returns (o: Outcome, ghost events: seq<Event>)
      modifies chat, world
      ensures world.files == old(world.files) && world.rows == old(world.rows)
      ensures world.trace == old(world.trace) + events
      ensures Routed(bots, commands.promptsRoot, m, old(Snap(chat, world)), Snap(chat, world), events, o)
    {
      var bot := GetBotEnv(bots, m.namespace);
      if bot.Err? {
        return Fail(bot.error), [];
      } else if !StartsWith(m.text, "/") {
        chat.AddUserMsg(m.text);
        o, events := SendRequest(chat, world);
      } else {
        o, events := Interpret(m, chat, bot.value, world);
      }
    }

    /** `updateEntityAndReleaseLock`: the entity is saved with the chat's document and a
        released lock; an entity without a lock fails before anything is saved. */
    method UpdateEntityAndReleaseLock(entity: ChatEntity, chat: RichChat.Chat, world: World) returns (o: Outcome)
      modifies world
      ensures world.files == old(world.files)
      ensures world.trace == old(world.trace) + ReleaseSaves(entity, chat.State())
      ensures entity.lock.None? ==> o == Fail(NoLock) && world.rows == old(world.rows)
      ensures entity.lock.Some? && o.Pass? ==> world.rows == old(world.rows)[entity.remoteId := Released(entity, chat.State())]
      ensures entity.lock.Some? && o.Fail? ==> world.rows == old(world.rows)
    {
      if entity.lock.None? {
        return Fail(NoLock);
      }
      o := world.Save(Released(entity, chat.State()));
    }

    /** `sendRequest`: the chat is sent to the model; an empty answer is reported and not
        added, a non-empty one is added as an assistant message and then replied. */
    method SendRequest(chat: RichChat.Chat, world: World) returns (o: Outcome, ghost events: seq<Event>)
      modifies chat, world
      ensures world.files == old(world.files) && world.rows == old(world.rows) && chat.calls == old(chat.calls)
      ensures world.trace == old(world.trace) + events
      ensures RequestSent(old(chat.State()), chat.State(), events, o)
    {
      var request := LlmClient.ToCompletionRequest(chat.State());
      var response := world.Complete(request);
      if response.Err? {
        return Fail(response.error), [Completion(request)];
      }
      if response.value == "" {
        o := world.Reply(EmptyContent);
        return o, [Completion(request), Replied(EmptyContent)];
      }
      chat.AddAssistantMsg(response.value);
      o := world.Reply(response.value);
      events := [Completion(request), Replied(response.value)];
    }

    /** A command, for the interpreter with the bot's context, which handles it as
        `TelegramCommand.Handled` says for the bot's prompts folder. */
    method Interpret(m: WorkerMessage, chat: RichChat.Chat, bot: TelegramClient.BotEnv, world: World)
      returns (o: Outcome, ghost events: seq<Event>)
      modifies chat, world
      ensures world.files == old(world.files) && world.rows == old(world.rows)
      ensures world.trace == old(world.trace) + events
      ensures TelegramCommand.Handled(TelegramCommand.PromptsFolder(commands.promptsRoot, bot), m.text,
                                      old(Snap(chat, world)), Snap(chat, world), events, o)
    {
      ghost var t0 := world.trace;
      ghost var s0 := Snap(chat, world);
      var ctx := new TelegramCommand.Context(chat, bot);
      o := commands.Handle(m.text, ctx, world);
      events := world.trace[|t0|..];
      assert world.trace == t0 + events;
      TelegramCommand.HandledKeepsFiles(TelegramCommand.PromptsFolder(commands.promptsRoot, bot), m.text,
                                        s0, Snap(chat, world), events, o);
    }
  }
}
