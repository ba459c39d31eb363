/** The stored form of a conversation (`ChatEntity`) and of its lock (`ChatLockEntity`),
    and `ChatEntity.getNewChat`, which builds the entity of a conversation seen for the
    first time. The repository copies entities in and out, so they are values here. */
module ChatEntities {
  import opened Wrappers
  import Json
  import RichChat

  /** `ChatLockEntity`: the time, in seconds, until which a message of the conversation
      is being handled; None is `null`, a released lock. */
  datatype Lock = Lock(expireAt: Option<int>)

  /** `ChatEntity`: the conversation's Telegram chat id, its dehydrated chat as the parsed
      document the `json` column holds (None when unset) and its lock (None when the
      entity has none). */
  datatype ChatEntity = ChatEntity(remoteId: int, json: Option<Json.Value>, lock: Option<Lock>)

  /** The error of `entity.lock!.expireAt = ...` on an entity that has no lock. */
  const NoLock := "Cannot set properties of undefined (setting 'expireAt')"

  /** The state of `new Chat()`. */
  const EmptyChat := RichChat.ChatState("", "", [], None, [])

  /** `getNewChat(remoteId, {ttl, chat})` at time `now`: the entity of `remoteId` with a
      lock of its own and the dehydrated `chat` (a new, empty chat when none is given).
      The lock expires `ttl` seconds from now when `ttl` is given and non-zero; otherwise
      it is released (`opts.ttl ? ... : null`, so a ttl of 0 also gives `null`). */
  function GetNewChat(remoteId: int, ttl: Option<int>, chat: Option<RichChat.ChatState>, now: int): (e: ChatEntity)
    ensures e.remoteId == remoteId && e.lock.Some? && e.json.Some?
    ensures e.lock.value.expireAt.Some? <==> ttl.Some? && ttl.value != 0
    ensures e.lock.value.expireAt.Some? ==> e.lock.value.expireAt.value - now == ttl.value
  {
    ChatEntity(remoteId, Some(RichChat.Document(chat.GetOr(EmptyChat))),
               Some(Lock(if ttl.Some? && ttl.value != 0 then Some(now + ttl.value) else None)))
  }

  /** The stored document of a new entity, `JSON.parse(chat.dehydrate())`, hydrates back to
      the chat it was built from, or to an empty chat when none was given. */
  lemma {:induction false} NewChatHydrates(remoteId: int, ttl: Option<int>, chat: Option<RichChat.ChatState>, now: int)
    ensures Json.Parse(RichChat.DehydrateState(chat.GetOr(EmptyChat))) == GetNewChat(remoteId, ttl, chat, now).json
    ensures RichChat.HydrateValue(GetNewChat(remoteId, ttl, chat, now).json.value) == Ok(chat.GetOr(EmptyChat))
  {
    RichChat.DocumentText(chat.GetOr(EmptyChat), RichChat.Document(chat.GetOr(EmptyChat)));
    RichChat.HydrateDocument(chat.GetOr(EmptyChat));
  }

  /** Two new entities of the same conversation built at the same time differ only in
      the lock expiry their ttl gives; without a ttl, and with a ttl of 0, the lock is
      released. */
  lemma {:induction false} NewChatTtl(remoteId: int, chat: Option<RichChat.ChatState>, now: int, ttl: int)
    ensures GetNewChat(remoteId, Some(0), chat, now) == GetNewChat(remoteId, None, chat, now)
    ensures GetNewChat(remoteId, None, chat, now).lock == Some(Lock(None))
    ensures GetNewChat(remoteId, Some(ttl), chat, now).json == GetNewChat(remoteId, None, chat, now).json
  {
  }

  /** The entity built without a chat holds the same document as the one built with an
      empty chat. */
  lemma {:induction false} NewChatDefault(remoteId: int, ttl: Option<int>, now: int)
    ensures GetNewChat(remoteId, ttl, None, now) == GetNewChat(remoteId, ttl, Some(EmptyChat), now)
  {
  }
}
