/** The older worker of queued Telegram updates: it parses the update before anything else,
    loads (or creates) the stored conversation, routes the text to the model or to the
    slash-command service, and writes the conversation back only when all of that
    succeeded; an error is replied instead. The message is acknowledged once the update
    has been parsed. */
module QueueWorker {
  import opened Wrappers
  import opened Text
  import opened Messages
  import opened ChatEntities
  import opened Effects
  import Json
  import RichChat
  import LlmClient
  import ChatCommand
  import TelegramWorker

  /** The part of the webhook update the worker reads: `message.chat.id` and
      `message.text`. */
  datatype Update = Update(chatId: int, text: string)

  /** The entity the worker creates for a conversation without one: the document of an
      empty chat, and no lock. */
  function NewQueueEntity(chatId: int): (e: ChatEntity)
    ensures e.remoteId == chatId && e.lock.None?
    ensures e.json.Some? && RichChat.HydrateValue(e.json.value) == Ok(EmptyChat)
  {
    RichChat.HydrateDocument(EmptyChat);
    ChatEntity(chatId, Some(RichChat.Document(EmptyChat)), None)
  }

  /** The entity the worker goes on with: the stored one when it has a document,
      otherwise a new one. */
  function QueueLoaded(chatId: int, stored: Option<ChatEntity>): (e: ChatEntity)
    ensures e.json.Some?
  {
    if stored.Some? && stored.value.json.Some? then stored.value else NewQueueEntity(chatId)
  }

  /** The entity written back on success: the chat's document, the rest as loaded. */
  function Persisted(e: ChatEntity, s: RichChat.ChatState): ChatEntity {
    e.(json := Some(RichChat.Document(s)))
  }

  /** Writing a row twice under one key keeps only the second write. */
  lemma {:induction false} OverwriteSame(m: map<int, ChatEntity>, k: int, a: ChatEntity, b: ChatEntity)
    ensures m[k := a][k := b] == m[k := b]
  {
  }

  /** The store after the load and the routing is untouched, holds the new entity, or has
      lost the entity to a `/reset`; writing the entity back gives the store that writing
      it over the one before the load gives. */
  lemma {:induction false} RoutedRows(r0: map<int, ChatEntity>, r1: map<int, ChatEntity>, r2: map<int, ChatEntity>,
                                      chatId: int, entity: ChatEntity, reset: bool, o: Outcome, saved: ChatEntity)
    requires r1 == r0 || (entity == NewQueueEntity(chatId) && r1 == r0[chatId := entity])
    requires r2 == ChatCommand.StoreAfter(reset, entity.remoteId, r1, o)
    ensures r2 == r0 || r2 == r0[chatId := NewQueueEntity(chatId)] || r2 == r0 - {entity.remoteId}
    ensures r2[entity.remoteId := saved] == r0[entity.remoteId := saved]
  {
    if r1 != r0 {
      OverwriteSame(r0, chatId, entity, saved);
      if reset && o.Pass? {
        assert r2 == r0 - {chatId};
      }
    }
  }

  /** The entity written back reads as the chat the worker left, and keeps its lock. */
  lemma {:induction false} PersistedReads(e: ChatEntity, s: RichChat.ChatState)
    ensures Persisted(e, s).json == Json.Parse(RichChat.DehydrateState(s))
    ensures RichChat.HydrateText(Json.Encode(Persisted(e, s).json.value)) == Ok(s)
    ensures Persisted(e, s).lock == e.lock && Persisted(e, s).remoteId == e.remoteId
  {
    RichChat.DocumentText(s, RichChat.Document(s));
    RichChat.HydrateDocument(s);
  }

  /** What loading the conversation did to the store: the lookup, then the save of a new
      entity when none with a document was stored. */
  predicate QueueEntityLoaded(chatId: int, before: map<int, ChatEntity>, after: map<int, ChatEntity>,
                              events: seq<Event>)
  {
    var stored := TelegramWorker.Stored(before, chatId);
    (events == [Found(chatId)] && after == before)
    || (events == [Found(chatId), Saved(NewQueueEntity(chatId))]
        && (stored.None? || stored.value.json.None?)
        && (after == before || after == before[chatId := NewQueueEntity(chatId)]))
  }

  /** The events of a load that succeeded: the lookup, then the save of the new entity
      unless a stored one had a document. */
  function QueueLoadEvents(chatId: int, stored: Option<ChatEntity>): seq<Event> {
    if stored.Some? && stored.value.json.Some? then [Found(chatId)] else [Found(chatId), Saved(NewQueueEntity(chatId))]
  }

  /** What the routing part of the `try` block did, given the service's sessions and
      prompts folders and the remote id `key` of the loaded entity: text that does not
      start with "/" is added as a user message and sent to the model; other text is
      handled as `ChatCommand.Handled` says. */
  predicate QueueRouted(sessions: string, prompts: string, u: Update, key: int, before: Side, after: Side,
                        events: seq<Event>, o: Outcome)
  {
    if !StartsWith(u.text, "/") then
      after.files == before.files && after.calls == before.calls
      && TelegramWorker.RequestSent(before.chat.(messages := before.chat.messages + [Message(User, u.text)]),
                                    after.chat, events, o)
    else
      ChatCommand.Handled(sessions, prompts, key, u.text, before, after, events, o)
  }

  /** What handling a parsed update did, from the store `before` and the files `files`,
      when the `try` block ended with `attempt`. It starts with the lookup. On success the
      events are the load's, then what routing the text did from the stored chat
      (`routed`), which succeeded and left `final`, then the save that writes the final chat back into the
      loaded entity, and the store holds it. On failure the last event replies the error,
      and the store holds at most the new entity the worker created, never the chat, unless
      a `/reset` removed the loaded entity before a later step failed. */
  predicate QueueHandled(sessions: string, prompts: string, u: Update, files: map<string, string>,
                         before: map<int, ChatEntity>, after: map<int, ChatEntity>, events: seq<Event>,
                         attempt: Outcome, loaded: ChatEntity, final: Side, routed: seq<Event>)
  {
    |events| >= 2 && events[0] == Found(u.chatId)
    && loaded == QueueLoaded(u.chatId, TelegramWorker.Stored(before, u.chatId))
    && (attempt.Pass? ==>
          events == QueueLoadEvents(u.chatId, TelegramWorker.Stored(before, u.chatId)) + routed
                    + [Saved(Persisted(loaded, final.chat))]
          && RichChat.HydrateValue(loaded.json.value).Ok?
          && QueueRouted(sessions, prompts, u, loaded.remoteId, Side(RichChat.HydrateValue(loaded.json.value).value, [], files), final,
                         routed, Pass)
          && after == before[loaded.remoteId := Persisted(loaded, final.chat)])
    && (attempt.Fail? ==>
          events[|events| - 1] == Replied("Error: " + attempt.error)
          && (after == before || after == before[u.chatId := NewQueueEntity(u.chatId)]
              || after == before - {loaded.remoteId}))
  }

  /** After a successful update the store holds the conversation as the worker left it,
      under the loaded entity's remote id, with the lock it had. */
  lemma {:induction false} QueueHandledStores(sessions: string, prompts: string, u: Update, files: map<string, string>,
                                              before: map<int, ChatEntity>, after: map<int, ChatEntity>,
                                              events: seq<Event>, loaded: ChatEntity, final: Side,
                                              routed: seq<Event>)
    requires QueueHandled(sessions, prompts, u, files, before, after, events, Pass, loaded, final, routed)
    ensures loaded.remoteId in after && after[loaded.remoteId].json.Some?
    ensures RichChat.HydrateValue(after[loaded.remoteId].json.value) == Ok(final.chat)
    ensures after[loaded.remoteId].lock == loaded.lock
    ensures forall k :: k in before && k != loaded.remoteId ==> k in after && after[k] == before[k]
  {
    RichChat.HydrateDocument(final.chat);
  }

  /** Plain text is added to the chat and asked of the model. */
  lemma {:induction false} QueueRoutedPlain(sessions: string, prompts: string, u: Update, key: int, before: Side, after: Side,
                                            events: seq<Event>, o: Outcome)
    requires QueueRouted(sessions, prompts, u, key, before, after, events, o) && !StartsWith(u.text, "/")
    ensures TelegramWorker.RequestSent(before.chat.(messages := before.chat.messages + [Message(User, u.text)]),
                                       after.chat, events, o)
  {
  }

  /** Plain text is asked of the model right after the load: the request is the stored
      chat with the text as a last user message, and the chat written back keeps it. */
  lemma {:induction false} QueuePlainTextAsked(sessions: string, prompts: string, u: Update,
                                               files: map<string, string>, before: map<int, ChatEntity>,
                                               after: map<int, ChatEntity>, events: seq<Event>,
                                               loaded: ChatEntity, final: Side, routed: seq<Event>)
    requires QueueHandled(sessions, prompts, u, files, before, after, events, Pass, loaded, final, routed)
    requires !StartsWith(u.text, "/")
    ensures var start := RichChat.HydrateValue(loaded.json.value).value;
            var asked := start.(messages := start.messages + [Message(User, u.text)]);
            var n := |QueueLoadEvents(u.chatId, TelegramWorker.Stored(before, u.chatId))|;
            events[n] == Completion(LlmClient.ToCompletionRequest(asked))
            && |final.chat.messages| > |start.messages|
            && final.chat.messages[..|start.messages| + 1] == asked.messages
  {
    var start := RichChat.HydrateValue(loaded.json.value).value;
    var asked := start.(messages := start.messages + [Message(User, u.text)]);
    var n := |QueueLoadEvents(u.chatId, TelegramWorker.Stored(before, u.chatId))|;
    QueueRoutedPlain(sessions, prompts, u, loaded.remoteId, Side(start, [], files), final, routed, Pass);
    assert events[n] == routed[0] by {
      assert events == QueueLoadEvents(u.chatId, TelegramWorker.Stored(before, u.chatId)) + (routed + [Saved(Persisted(loaded, final.chat))]);
    }
    if final.chat != asked {
      assert final.chat.messages == asked.messages + [final.chat.messages[|asked.messages|]];
    }
  }

  class Worker {
    const commands: ChatCommand.Service

    constructor(commands: ChatCommand.Service)
      ensures this.commands == commands
    {
      this.commands := commands;
    }

    /** `handle(msg, context)`: `payload` is the parsed update, None when the message is
        not valid JSON. Parsing comes before the `try`: a message that does not parse is
        neither replied to nor acknowledged. Once it parses, the message is acknowledged
        once, after everything else; the outcome is the failure of the error reply, if
        any. */
    method Handle(payload: Option<Update>, world: World, delivery: Delivery)
      returns (o: Outcome, ghost attempt: Outcome, ghost loaded: ChatEntity, ghost final: Side, ghost routed: seq<Event>)
      modifies world, delivery
      ensures payload.None? ==>
        o == Fail(RichChat.InvalidJson) && delivery.acks == old(delivery.acks) && world.files == old(world.files)
        && world.trace == old(world.trace) && world.rows == old(world.rows)
      ensures payload.Some? ==>
        delivery.acks == old(delivery.acks) + [|world.trace|]
        && |world.trace| >= |old(world.trace)| && world.trace[..|old(world.trace)|] == old(world.trace)
        && QueueHandled(commands.sessionsFolder, commands.promptsFolder, payload.value, old(world.files), old(world.rows),
                        world.rows, world.trace[|old(world.trace)|..], attempt, loaded, final, routed)
        && (attempt.Pass? ==> o == Pass)
    {
      if payload.None? {
        return Fail(RichChat.InvalidJson), Pass, NewQueueEntity(0), Side(EmptyChat, [], world.files), [];
      }
      var u := payload.value;
      ghost var t0 := world.trace;
      ghost var r0 := world.rows;
      ghost var rest;
      o, attempt, loaded, final, routed, rest := Process(u, world);
      delivery.Ack(world);
    }

    /** The `try` and `catch` blocks of `handle`. */
    method Process(u: Update, world: World)
      returns (o: Outcome, ghost attempt: Outcome, ghost loaded: ChatEntity, ghost final: Side,
               ghost routed: seq<Event>, ghost events: seq<Event>)
      modifies world
      ensures world.trace == old(world.trace) + events
      ensures QueueHandled(commands.sessionsFolder, commands.promptsFolder, u, old(world.files), old(world.rows),
                           world.rows, events, attempt, loaded, final, routed)
      ensures attempt.Pass? ==> o == Pass
    {
      ghost var r0 := world.rows;
      ghost var tried;
      var result;
      result, loaded, final, routed, tried := Attempt(u, world);
      attempt := result;
      if result.Fail? {
        var reply := "Error: " + result.error;
        o := world.Reply(reply);
        AppendTwo(old(world.trace), tried, [Replied(reply)]);
        events := tried + [Replied(reply)];
        assert events[0] == tried[0] && events[|events| - 1] == Replied(reply);
      } else {
        o := Pass;
        events := tried;
      }
    }

    /** The `try` block of `handle`: load the conversation, route the text, then write the
        chat back. */
    method Attempt(u: Update, world: World)
      returns (o: Outcome, ghost loaded: ChatEntity, ghost final: Side, ghost routed: seq<Event>, ghost events: seq<Event>)
      modifies world
      ensures world.trace == old(world.trace) + events
      ensures |events| >= 1 && events[0] == Found(u.chatId)
      ensures loaded == QueueLoaded(u.chatId, TelegramWorker.Stored(old(world.rows), u.chatId))
      ensures o.Pass? ==>
        events == QueueLoadEvents(u.chatId, TelegramWorker.Stored(old(world.rows), u.chatId)) + routed
                  + [Saved(Persisted(loaded, final.chat))]
        && RichChat.HydrateValue(loaded.json.value).Ok?
        && QueueRouted(commands.sessionsFolder, commands.promptsFolder, u, loaded.remoteId,
                       Side(RichChat.HydrateValue(loaded.json.value).value, [], old(world.files)), final, routed, Pass)
        && world.rows == old(world.rows)[loaded.remoteId := Persisted(loaded, final.chat)]
      ensures o.Fail? ==> world.rows == old(world.rows) || world.rows == old(world.rows)[u.chatId := NewQueueEntity(u.chatId)]
                          || world.rows == old(world.rows) - {loaded.remoteId}
    {
      loaded := QueueLoaded(u.chatId, TelegramWorker.Stored(world.rows, u.chatId));
      final, routed := Side(EmptyChat, [], world.files), [];
      ghost var r0 := world.rows;
      var entity, chat;
      ghost var first;
      o, entity, chat, first := Load(u, world);
      if o.Fail? {
        return o, loaded, final, routed, first;
      }
      ghost var r1 := world.rows;
      o, routed := Route(u, entity, chat, world);
      RoutedRows(r0, r1, world.rows, u.chatId, entity, ChatCommand.Resets(u.text), o, Persisted(entity, chat.State()));
      if o.Fail? {
        AppendThree(old(world.trace), first, routed, []);
        assert first + routed + [] == first + routed;
        return o, loaded, final, routed, first + routed;
      }
      final := Snap(chat, world);
      o := world.Save(Persisted(entity, chat.State()));
      events := first + routed + [Saved(Persisted(entity, final.chat))];
      AppendThree(old(world.trace), first, routed, [Saved(Persisted(entity, final.chat))]);
      assert entity == loaded;
    }

    /** The loading part of the `try` block: the stored entity when it has a document, which
        is hydrated into a new chat; otherwise a new entity holding an empty chat, saved. */
    method Load(u: Update, world: World)
      returns (o: Outcome, entity: ChatEntity, chat: RichChat.Chat, ghost events: seq<Event>)
      modifies world
      ensures fresh(chat) && chat.calls == []
      ensures world.files == old(world.files)
      ensures world.trace == old(world.trace) + events
      ensures QueueEntityLoaded(u.chatId, old(world.rows), world.rows, events)
      ensures o.Pass? ==>
        entity == QueueLoaded(u.chatId, TelegramWorker.Stored(old(world.rows), u.chatId))
        && RichChat.HydrateValue(entity.json.value) == Ok(chat.State())
        && events == QueueLoadEvents(u.chatId, TelegramWorker.Stored(old(world.rows), u.chatId))
        && (world.rows == old(world.rows)
            || (entity == NewQueueEntity(u.chatId) && world.rows == old(world.rows)[u.chatId := entity]))
    {
      var found := world.Find(u.chatId);
      chat := new RichChat.Chat();
      entity := NewQueueEntity(u.chatId);
      if found.Err? {
        return Fail(found.error), entity, chat, [Found(u.chatId)];
      }
      if found.value.Some? && found.value.value.json.Some? {
        entity := found.value.value;
        o := chat.Hydrate(Json.Encode(entity.json.value));
        RichChat.DocumentText(chat.State(), entity.json.value);
        events := [Found(u.chatId)];
      } else {
        o := world.Save(entity);
        events := [Found(u.chatId), Saved(entity)];
      }
    }

    /** The routing part of the `try` block: text that does not start with "/" goes to
        `handleChat`, other text to the command service with this worker's context, whose
        `reset` removes `entity`. Only a `/reset` that passed changes the store. */
    method Route(u: Update, entity: ChatEntity, chat: RichChat.Chat, world: World) returns (o: Outcome, ghost events: seq<Event>)
      modifies chat, world
      ensures world.rows == ChatCommand.StoreAfter(ChatCommand.Resets(u.text), entity.remoteId, old(world.rows), o)
      ensures world.trace == old(world.trace) + events
      ensures QueueRouted(commands.sessionsFolder, commands.promptsFolder, u, entity.remoteId, old(Snap(chat, world)),
                          Snap(chat, world), events, o)
    {
      ghost var t0 := world.trace;
      if !StartsWith(u.text, "/") {
        o := HandleChat(u, chat, world);
        assert !ChatCommand.Resets(u.text) by {
          if |u.text| >= 1 {
            assert u.text[..1] == [u.text[0]];
          }
        }
      } else {
        var ctx := new ChatCommand.Context(chat, entity);
        o := commands.Handle(u.text, ctx, world);
      }
      events := world.trace[|t0|..];
      assert world.trace == t0 + events;
    }

    /** `handleChat(request, chat)`: the update's text is added as a user message and the
        chat sent to the model; an empty answer is reported and not added, a non-empty one
        is added as an assistant message and then replied. */
    method HandleChat(u: Update, chat: RichChat.Chat, world: World) returns (o: Outcome)
      modifies chat, world
      ensures world.files == old(world.files) && world.rows == old(world.rows) && chat.calls == old(chat.calls)
      ensures |world.trace| >= |old(world.trace)| && world.trace[..|old(world.trace)|] == old(world.trace)
      ensures TelegramWorker.RequestSent(old(chat.State()).(messages := old(chat.messages) + [Message(User, u.text)]),
                                         chat.State(), world.trace[|old(world.trace)|..], o)
    {
      ghost var t0 := world.trace;
      chat.AddUserMsg(u.text);
      var response := world.Complete(LlmClient.ToCompletionRequest(chat.State()));
      if response.Err? {
        assert world.trace[|t0|..] == [Completion(LlmClient.ToCompletionRequest(chat.State()))];
        return Fail(response.error);
      }
      if response.value == "" {
        o := world.Reply(TelegramWorker.EmptyContent);
        assert world.trace[|t0|..] == [Completion(LlmClient.ToCompletionRequest(chat.State())), Replied(TelegramWorker.EmptyContent)];
        return;
      }
      ghost var asked := chat.State();
      chat.AddAssistantMsg(response.value);
      o := world.Reply(response.value);
      assert world.trace[|t0|..] == [Completion(LlmClient.ToCompletionRequest(asked)), Replied(response.value)];
    }

    /** The `retry` of this worker's command context, as written: `handleChat` once more,
        which adds the update's text, the "/retry" command itself, as a further user
        message after the one the service put back. */
    method RetryContext(u: Update, chat: RichChat.Chat, world: World) returns (o: Outcome)
      modifies chat, world
      ensures world.files == old(world.files) && world.rows == old(world.rows) && chat.calls == old(chat.calls)
      ensures |world.trace| >= |old(world.trace)| && world.trace[..|old(world.trace)|] == old(world.trace)
      ensures TelegramWorker.RequestSent(old(chat.State()).(messages := old(chat.messages) + [Message(User, u.text)]),
                                         chat.State(), world.trace[|old(world.trace)|..], o)
    {
      o := HandleChat(u, chat, world);
    }

    /** The `retry` the service expects: the chat, which already ends with the message put
        back, is sent as it is, like the Telegram worker's `sendRequest`. */
    method RetryResend(chat: RichChat.Chat, world: World) returns (o: Outcome)
      modifies chat, world
      ensures world.files == old(world.files) && world.rows == old(world.rows) && chat.calls == old(chat.calls)
      ensures |world.trace| >= |old(world.trace)| && world.trace[..|old(world.trace)|] == old(world.trace)
      ensures TelegramWorker.RequestSent(old(chat.State()), chat.State(), world.trace[|old(world.trace)|..], o)
    {
      ghost var t0 := world.trace;
      var response := world.Complete(LlmClient.ToCompletionRequest(chat.State()));
      if response.Err? {
        assert world.trace[|t0|..] == [Completion(LlmClient.ToCompletionRequest(old(chat.State())))];
        return Fail(response.error);
      }
      if response.value == "" {
        o := world.Reply(TelegramWorker.EmptyContent);
        assert world.trace[|t0|..] == [Completion(LlmClient.ToCompletionRequest(old(chat.State()))), Replied(TelegramWorker.EmptyContent)];
        return;
      }
      chat.AddAssistantMsg(response.value);
      o := world.Reply(response.value);
      assert world.trace[|t0|..] == [Completion(LlmClient.ToCompletionRequest(old(chat.State()))), Replied(response.value)];
    }
  }

  /** As written, `/retry` asks the model with the command text as the last user
      message, right after the message `last` the service put back to be asked again. */
  lemma {:induction false} RetryAsksCommand(s: RichChat.ChatState, u: Update, last: Message, after: RichChat.ChatState,
                         events: seq<Event>, o: Outcome)
    requires s.messages != [] && s.messages[|s.messages| - 1] == last
    requires TelegramWorker.RequestSent(s.(messages := s.messages + [Message(User, u.text)]), after, events, o)
    ensures var r := events[0].request;
      |r| >= 2 && r[|r| - 1] == Message(User, u.text) && r[|r| - 2] == last
      && r[..|r| - 1] == LlmClient.ToCompletionRequest(s)
  {
    var q, m := LlmClient.ToCompletionRequest(s), Message(User, u.text);
    LlmClient.RequestAppend(s, m);
    var r := events[0].request;
    assert r == q + [m];
    assert q[|q| - 1] == q[LlmClient.PreambleLength(s)..][|s.messages| - 1] == last;
    assert r[..|r| - 1] == q;
  }

  /** The intended `/retry` asks the model with the chat as the service left it, which
      ends with the message put back. */
  lemma {:induction false} RetryResendAsksLast(s: RichChat.ChatState, after: RichChat.ChatState, events: seq<Event>, o: Outcome, last: Message)
    requires s.messages != [] && s.messages[|s.messages| - 1] == last
    requires TelegramWorker.RequestSent(s, after, events, o)
    ensures var r := events[0].request;
      r == LlmClient.ToCompletionRequest(s) && |r| >= 1 && r[|r| - 1] == last
  {
  }
}
