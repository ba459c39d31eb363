/** The webhook step that admits a Telegram update into the message queue: a conversation
    takes one message at a time, guarded by the lock of its stored entity. */
module MessageQueue {
  import opened Wrappers
  import opened ChatEntities
  import opened Effects

  /** How long, in seconds, an admitted message holds the conversation. */
  const LockSeconds := 60

  const Busy := "A message already in queue. Please wait"

  /** `isLockValid(lock)`: despite its name, true when the conversation is free: there is
      no lock, the lock has no expiry, or the expiry is strictly before `now`. */
  predicate IsLockValid(lock: Option<Lock>, now: int) {
    lock.None? || lock.value.expireAt.None? || lock.value.expireAt.value < now
  }

  /** A lock expiring exactly now still holds the conversation. */
  lemma {:induction false} ExpiryAtNowHolds(now: int)
    ensures !IsLockValid(Some(Lock(Some(now))), now)
    ensures IsLockValid(Some(Lock(Some(now))), now + 1)
  {
  }

  /** The entity after admitting a message at `now`: its lock expires 60 seconds later. */
  function Acquired(e: ChatEntity, now: int): (a: ChatEntity)
    ensures a.remoteId == e.remoteId && a.json == e.json
    ensures a.lock.Some? && !IsLockValid(a.lock, now)
  {
    e.(lock := Some(Lock(Some(now + LockSeconds))))
  }

  /** An admitted message holds the conversation for 60 seconds, and no longer: a second
      update is refused until the moment after the expiry. */
  lemma {:induction false} AcquiredHolds(e: ChatEntity, now: int, t: int)
    ensures IsLockValid(Acquired(e, now).lock, t) <==> t > now + LockSeconds
  {
  }

  /** The entity `initChat` creates has a released lock, so the first message of a
      conversation is admitted at any time. */
  lemma {:induction false} NewChatAdmitted(remoteId: int, now: int, t: int)
    ensures IsLockValid(GetNewChat(remoteId, None, None, now).lock, t)
  {
  }

  /** A message admitted at `now` is acknowledged by the worker releasing the lock, after
      which the next message is admitted. */
  lemma {:induction false} ReleasedAdmits(e: ChatEntity, t: int)
    ensures IsLockValid(Some(Lock(None)), t)
    ensures !IsLockValid(Acquired(e, t).lock, t)
  {
  }

  /** What the lock step of `publish` did with the conversation's entity `chat`: the
      events it caused, the store after it and its outcome. A held conversation is told
      to wait; a free one is saved with its lock taken and then published; an entity
      without a lock fails before anything happens. */
  predicate Admitted(chat: ChatEntity, queue: string, payload: string, now: int, events: seq<Event>,
                     before: map<int, ChatEntity>, after: map<int, ChatEntity>, o: Outcome)
  {
    if !IsLockValid(chat.lock, now) then
      events == [Replied(Busy)] && after == before
    else if chat.lock.None? then
      o == Fail(NoLock) && events == [] && after == before
    else
      var taken := Acquired(chat, now);
      (events == [Saved(taken)] && after == before && o.Fail?)
      || (events == [Saved(taken), Published(queue, payload)] && after == before[chat.remoteId := taken])
  }

  /** The lock step as written: the notice to a held conversation takes its chat id from
      `req.payload.message`, where the payload, as the lookup reads it, holds the update
      under `request`. Reading the id then throws before `sendMessage` is called, so a
      held conversation gets no notice and the call fails. */
  predicate AdmittedAsWritten(chat: ChatEntity, queue: string, payload: string, now: int, events: seq<Event>,
                              before: map<int, ChatEntity>, after: map<int, ChatEntity>, o: Outcome)
  {
    if !IsLockValid(chat.lock, now) then
      o.Fail? && events == [] && after == before
    else
      Admitted(chat, queue, payload, now, events, before, after, o)
  }

  /** As written, an update for a held conversation is dropped without a word: nothing is
      replied, saved or published, where the intended lock step tells the user to wait. */
  lemma {:induction false} HeldAsWrittenSilent(chat: ChatEntity, queue: string, payload: string, now: int,
                                               events: seq<Event>, before: map<int, ChatEntity>,
                                               after: map<int, ChatEntity>, o: Outcome,
                                               intended: seq<Event>, o2: Outcome)
    requires !IsLockValid(chat.lock, now)
    requires AdmittedAsWritten(chat, queue, payload, now, events, before, after, o)
    requires Admitted(chat, queue, payload, now, intended, before, after, o2)
    ensures o.Fail? && events == [] && after == before
    ensures intended == [Replied(Busy)] && intended != events
  {
  }

  /** Everywhere else the lock step as written is the intended one. */
  lemma {:induction false} FreeAsWrittenSame(chat: ChatEntity, queue: string, payload: string, now: int,
                                             events: seq<Event>, before: map<int, ChatEntity>,
                                             after: map<int, ChatEntity>, o: Outcome)
    requires IsLockValid(chat.lock, now)
    ensures AdmittedAsWritten(chat, queue, payload, now, events, before, after, o)
            <==> Admitted(chat, queue, payload, now, events, before, after, o)
  {
  }

  /** The lock step publishes at most once, as its last event, right after the store
      received the entity with the lock taken for 60 seconds. */
  lemma {:induction false} AdmittedPublishesLast(chat: ChatEntity, queue: string, payload: string, now: int, events: seq<Event>,
                              before: map<int, ChatEntity>, after: map<int, ChatEntity>, o: Outcome)
    requires Admitted(chat, queue, payload, now, events, before, after, o)
    ensures forall i :: 0 <= i < |events| - 1 ==> !events[i].Published?
    ensures events != [] && events[|events| - 1].Published? ==>
      (|events| == 2 && events[1] == Published(queue, payload)
       && events[0] == Saved(Acquired(chat, now)) && after[chat.remoteId] == Acquired(chat, now)
       && !IsLockValid(after[chat.remoteId].lock, now))
    ensures o.Pass? && IsLockValid(chat.lock, now) ==> events[|events| - 1] == Published(queue, payload)
  {
  }

  /** What `publish` did for a conversation without an entity: the new entity is stored
      with a released lock (`initChat`), and then the lock step runs on it. */
  predicate CreatedThenAdmitted(chatId: int, queue: string, payload: string, now: int, events: seq<Event>,
                                before: map<int, ChatEntity>, after: map<int, ChatEntity>, o: Outcome)
  {
    var created := GetNewChat(chatId, None, None, now);
    |events| >= 1 && events[0] == Saved(created)
    && ((|events| == 1 && after == before && o.Fail?)
        || Admitted(created, queue, payload, now, events[1..], before[chatId := created], after, o))
  }

  /** What `publish` did for the conversation `chatId`: the stored entity is looked up
      first; then the lock step runs on it, or on a new entity when there is none. A
      failed lookup ends the call. */
  predicate PublishDone(chatId: int, queue: string, payload: string, now: int, events: seq<Event>,
                        before: map<int, ChatEntity>, after: map<int, ChatEntity>, o: Outcome)
  {
    |events| >= 1 && events[0] == Found(chatId)
    && if |events| == 1 then o.Fail? && after == before
       else if chatId in before then Admitted(before[chatId], queue, payload, now, events[1..], before, after, o)
       else CreatedThenAdmitted(chatId, queue, payload, now, events[1..], before, after, o)
  }

  /** `PublishDone` for a conversation without an entity, from what happened after the
      lookup. */
  lemma {:induction false} PublishDoneNew(chatId: int, queue: string, payload: string, now: int, rest: seq<Event>,
                       before: map<int, ChatEntity>, after: map<int, ChatEntity>, o: Outcome)
    requires chatId !in before
    requires CreatedThenAdmitted(chatId, queue, payload, now, rest, before, after, o)
    ensures PublishDone(chatId, queue, payload, now, [Found(chatId)] + rest, before, after, o)
  {
    assert ([Found(chatId)] + rest)[1..] == rest;
  }

  /** `PublishDone` for a stored entity, from what happened after the lookup. */
  lemma {:induction false} PublishDoneStored(chatId: int, queue: string, payload: string, now: int, rest: seq<Event>,
                          before: map<int, ChatEntity>, after: map<int, ChatEntity>, o: Outcome)
    requires chatId in before
    requires Admitted(before[chatId], queue, payload, now, rest, before, after, o)
    ensures PublishDone(chatId, queue, payload, now, [Found(chatId)] + rest, before, after, o)
  {
    assert ([Found(chatId)] + rest)[1..] == rest;
  }

  class MessageQueue {
    /** The queue the updates are published to (`TG_MESSAGE_QUEUE`). */
    const queue: string

    constructor(queue: string)
      ensures this.queue == queue
    {
      this.queue := queue;
    }

    /** `publish(req)` for the update `payload` (already serialised) of the conversation
        `chatId`, at time `now`. A conversation without an entity gets one with a released
        lock. When the lock is free, the entity is saved with the lock taken for 60
        seconds and only then the update is published; when it is held, the user is told
        to wait and nothing is saved or published. A failed step ends the call with its
        error. */
    method Publish(chatId: int, payload: string, now: int, world: World) returns (o: Outcome, ghost events: seq<Event>)
      modifies world
      ensures world.files == old(world.files)
      ensures world.trace == old(world.trace) + events
      ensures PublishDone(chatId, queue, payload, now, events, old(world.rows), world.rows, o)
    {
      var found := world.Find(chatId);
      if found.Err? {
        return Fail(found.error), [Found(chatId)];
      }
      ghost var r1 := world.rows;
      ghost var rest;
      if found.value.None? {
        o, rest := PublishNew(chatId, payload, now, world);
        PublishDoneNew(chatId, queue, payload, now, rest, r1, world.rows, o);
      } else {
        o, rest := Admit(found.value.value, payload, now, world);
        PublishDoneStored(chatId, queue, payload, now, rest, r1, world.rows, o);
      }
      events := [Found(chatId)] + rest;
    }

    /** `publish` for a conversation without an entity. */
    method PublishNew(chatId: int, payload: string, now: int, world: World) returns (o: Outcome, ghost events: seq<Event>)
      modifies world
      ensures world.files == old(world.files)
      ensures world.trace == old(world.trace) + events
      ensures CreatedThenAdmitted(chatId, queue, payload, now, events, old(world.rows), world.rows, o)
    {
      var saved, created := InitChat(chatId, now, world);
      if saved.Fail? {
        return saved, [Saved(created)];
      }
      ghost var r1 := world.rows;
      ghost var rest;
      o, rest := Admit(created, payload, now, world);
      events := [Saved(created)] + rest;
      assert events[1..] == rest;
    }

    /** The rest of `publish` once the conversation's entity `chat` is known: the lock
        check, then the save of the taken lock, then the publish. */
    method Admit(chat: ChatEntity, payload: string, now: int, world: World) returns (o: Outcome, ghost events: seq<Event>)
      modifies world
      ensures world.files == old(world.files)
      ensures world.trace == old(world.trace) + events
      ensures Admitted(chat, queue, payload, now, events, old(world.rows), world.rows, o)
    {
      if !IsLockValid(chat.lock, now) {
        o := world.Reply(Busy);
        return o, [Replied(Busy)];
      }
      if chat.lock.None? {
        return Fail(NoLock), [];
      }
      var taken := Acquired(chat, now);
      var saved := world.Save(taken);
      if saved.Fail? {
        return saved, [Saved(taken)];
      }
      o := world.Publish(queue, payload);
      events := [Saved(taken), Published(queue, payload)];
    }

    /** `initChat(req)`: the new entity of the conversation, with no ttl, saved. */
    method InitChat(chatId: int, now: int, world: World) returns (o: Outcome, chat: ChatEntity)
      modifies world
      ensures chat == GetNewChat(chatId, None, None, now)
      ensures world.trace == old(world.trace) + [Saved(chat)] && world.files == old(world.files)
      ensures o.Pass? ==> world.rows == old(world.rows)[chatId := chat]
      ensures o.Fail? ==> world.rows == old(world.rows)
    {
      chat := GetNewChat(chatId, None, None, now);
      o := world.Save(chat);
    }
  }
}
