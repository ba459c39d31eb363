/** Everything the modelled code asks of the outside world: the Telegram Bot API, the
    chat-completion client, the terminal, the file system, the chat repository, the
    message queue and the callbacks of a handler context. Each request is appended to
    `trace`, so that order and number of calls can be stated. A call that can fail in the
    system returns an outcome the model does not choose. File contents and stored
    entities are kept in maps, so that what is read back is what was last written. */
module Effects {
  import opened Wrappers
  import opened Messages
  import RichChat
  import opened ChatEntities

  /** The callbacks handler contexts expose. */
  datatype Callback = Next | Request | Repaint | Print | Exit | Retry | SendRequest

  datatype Event =
    | Replied(text: string)                          // a reply to the Telegram conversation
    | Posted(token: string, chatId: int, text: string) // one Bot API `sendMessage` post
    | Printed(line: string)                          // a line written to the terminal
    | Wrote(text: string)                            // a handler context's `write` callback
    | ScreenCleared                                  // the terminal cleared
    | Completion(request: seq<Message>)              // a chat-completion request
    | ModelsListed(models: Result<Option<seq<string>>>)  // what the provider answered
    | Pinged
    | DirMade(path: string)
    | Listed(folder: string, entries: Result<seq<string>>)  // what listing the folder gave
    | FileRead(path: string)
    | FileWritten(path: string, content: string)
    | Found(remoteId: int)
    | Saved(entity: ChatEntity)
    | Removed(remoteId: int)
    | Published(queue: string, payload: string)
    | Called(callback: Callback)
    | CalledOn(callback: Callback, chat: RichChat.ChatState)   // a callback handed the chat

  /** The events after a known prefix `done + mid` of a trace are `mid` followed by the
      rest. */
  lemma {:induction false} TraceAfter(done: seq<Event>, mid: seq<Event>, t: seq<Event>)
    requires |t| >= |done| + |mid| && t[..|done| + |mid|] == done + mid
    ensures t[|done|..] == mid + t[|done| + |mid|..]
    ensures t[..|done|] == done
  {
    var n := |done| + |mid|;
    assert t == t[..n] + t[n..];
    assert t[|done|..] == (done + mid + t[n..])[|done|..];
    assert t[..|done|] == t[..n][..|done|];
  }

  /** A trace that extends `t1`, which itself extends `t0`, extends `t0` by what `t1` added
      followed by `rest`. */
  lemma {:induction false} TraceExtends(t0: seq<Event>, t1: seq<Event>, rest: seq<Event>, t: seq<Event>)
    requires |t1| >= |t0| && t1[..|t0|] == t0 && t == t1 + rest
    ensures |t| >= |t0| && t[..|t0|] == t0
    ensures t[|t0|..] == t1[|t0|..] + rest
  {
    assert t[..|t0|] == t1[..|t0|];
  }

  /** `after` is `before` followed by more events. */
  predicate Extends(before: seq<Event>, after: seq<Event>) {
    |after| >= |before| && after[..|before|] == before
  }

  /** A trace that extends a trace that extends `t0` extends `t0`. */
  lemma {:induction false} ExtendsTrans(t0: seq<Event>, t1: seq<Event>, t2: seq<Event>)
    requires Extends(t0, t1) && Extends(t1, t2)
    ensures Extends(t0, t2)
  {
    assert t2[..|t0|] == t2[..|t1|][..|t0|];
  }

  /** A trace is extended by anything appended to it. */
  lemma {:induction false} ExtendsAppend(t: seq<Event>, a: seq<Event>)
    ensures Extends(t, t + a)
  {
    assert (t + a)[..|t|] == t;
  }

  /** Appending two event lists in turn appends their concatenation. */
  lemma {:induction false} AppendTwo(t: seq<Event>, a: seq<Event>, b: seq<Event>)
    ensures t + a + b == t + (a + b)
  {
  }

  /** Appending three event lists in turn appends their concatenation. */
  lemma {:induction false} AppendThree(t: seq<Event>, a: seq<Event>, b: seq<Event>, c: seq<Event>)
    ensures t + a + b + c == t + (a + b + c)
  {
  }

  /** What a command handler can change besides the trace: the conversation, the calls
      made on it whose effect is unknown, and the files. */
  datatype Side = Side(chat: RichChat.ChatState, calls: seq<RichChat.OpaqueCall>, files: map<string, string>)

  class World {
    var trace: seq<Event>
    var files: map<string, string>
    var rows: map<int, ChatEntity>

    constructor(files0: map<string, string>, rows0: map<int, ChatEntity>)
      ensures trace == [] && files == files0 && rows == rows0
    {
      trace, files, rows := [], files0, rows0;
    }

    /** Sends `text` to the conversation the current update came from. */
    method Reply(text: string) returns (o: Outcome)
      modifies this
      ensures trace == old(trace) + [Replied(text)] && files == old(files) && rows == old(rows)
    {
      trace := trace + [Replied(text)];
      o := *;
    }

    method Post(token: string, chatId: int, text: string) returns (o: Outcome)
      modifies this
      ensures trace == old(trace) + [Posted(token, chatId, text)] && files == old(files) && rows == old(rows)
    {
      trace := trace + [Posted(token, chatId, text)];
      o := *;
    }

    method Print(line: string)
      modifies this
      ensures trace == old(trace) + [Printed(line)] && files == old(files) && rows == old(rows)
    {
      trace := trace + [Printed(line)];
    }

    method ClearScreen()
      modifies this
      ensures trace == old(trace) + [ScreenCleared] && files == old(files) && rows == old(rows)
    {
      trace := trace + [ScreenCleared];
    }

    /** Asks the model for the next message; the reply may be empty. */
    method Complete(request: seq<Message>) returns (r: Result<string>)
      modifies this
      ensures trace == old(trace) + [Completion(request)] && files == old(files) && rows == old(rows)
    {
      trace := trace + [Completion(request)];
      r := *;
    }

    /** The models the provider offers, or None for a null answer. */
    method GetModels() returns (r: Result<Option<seq<string>>>)
      modifies this
      ensures trace == old(trace) + [ModelsListed(r)] && files == old(files) && rows == old(rows)
    {
      r := *;
      trace := trace + [ModelsListed(r)];
    }

    method Ping() returns (o: Outcome)
      modifies this
      ensures trace == old(trace) + [Pinged] && files == old(files) && rows == old(rows)
    {
      trace := trace + [Pinged];
      o := *;
    }

    method MakeDir(path: string)
      modifies this
      ensures trace == old(trace) + [DirMade(path)] && files == old(files) && rows == old(rows)
    {
      trace := trace + [DirMade(path)];
    }

    /** The entry names of a folder, in the order the file system gives them. */
    method List(folder: string) returns (r: Result<seq<string>>)
      modifies this
      ensures trace == old(trace) + [Listed(folder, r)] && files == old(files) && rows == old(rows)
    {
      r := *;
      trace := trace + [Listed(folder, r)];
    }

    method Read(path: string) returns (r: Result<string>)
      modifies this
      ensures trace == old(trace) + [FileRead(path)] && files == old(files) && rows == old(rows)
      ensures path in files ==> r == Ok(files[path])
      ensures path !in files ==> r.Err?
    {
      trace := trace + [FileRead(path)];
      if path in files {
        r := Ok(files[path]);
      } else {
        var e: string := *;
        r := Err(e);
      }
    }

    method Write(path: string, content: string) returns (o: Outcome)
      modifies this
      ensures trace == old(trace) + [FileWritten(path, content)] && rows == old(rows)
      ensures o.Pass? ==> files == old(files)[path := content]
      ensures o.Fail? ==> files == old(files)
    {
      trace := trace + [FileWritten(path, content)];
      o := *;
      if o.Pass? {
        files := files[path := content];
      }
    }

    /** `findOneBy({remoteId})`: the stored entity of the conversation, if any. */
    method Find(remoteId: int) returns (r: Result<Option<ChatEntity>>)
      modifies this
      ensures trace == old(trace) + [Found(remoteId)] && files == old(files) && rows == old(rows)
      ensures r.Ok? ==> r.value == (if remoteId in rows then Some(rows[remoteId]) else None)
    {
      trace := trace + [Found(remoteId)];
      var ok: bool := *;
      if ok {
        r := Ok(if remoteId in rows then Some(rows[remoteId]) else None);
      } else {
        var e: string := *;
        r := Err(e);
      }
    }

    /** `save(entity)`: inserts or replaces the entity of its conversation. */
    method Save(entity: ChatEntity) returns (o: Outcome)
      modifies this
      ensures trace == old(trace) + [Saved(entity)] && files == old(files)
      ensures o.Pass? ==> rows == old(rows)[entity.remoteId := entity]
      ensures o.Fail? ==> rows == old(rows)
    {
      trace := trace + [Saved(entity)];
      o := *;
      if o.Pass? {
        rows := rows[entity.remoteId := entity];
      }
    }

    /** `remove(entity)`. */
    method Remove(entity: ChatEntity) returns (o: Outcome)
      modifies this
      ensures trace == old(trace) + [Removed(entity.remoteId)] && files == old(files)
      ensures o.Pass? ==> rows == old(rows) - {entity.remoteId}
      ensures o.Fail? ==> rows == old(rows)
    {
      trace := trace + [Removed(entity.remoteId)];
      o := *;
      if o.Pass? {
        rows := rows - {entity.remoteId};
      }
    }

    method Publish(queue: string, payload: string) returns (o: Outcome)
      modifies this
      ensures trace == old(trace) + [Published(queue, payload)] && files == old(files) && rows == old(rows)
    {
      trace := trace + [Published(queue, payload)];
      o := *;
    }

    /** A handler context's `write(msg)`: its promise may reject, which only matters where
        it is awaited. */
    method ContextWrite(text: string) returns (o: Outcome)
      modifies this
      ensures trace == old(trace) + [Wrote(text)] && files == old(files) && rows == old(rows)
    {
      trace := trace + [Wrote(text)];
      o := *;
    }

    /** A context callback that cannot fail. */
    method Call(c: Callback)
      modifies this
      ensures trace == old(trace) + [Called(c)] && files == old(files) && rows == old(rows)
    {
      trace := trace + [Called(c)];
    }

    /** An awaited context callback whose promise may reject. */
    method CallAsync(c: Callback) returns (o: Outcome)
      modifies this
      ensures trace == old(trace) + [Called(c)] && files == old(files) && rows == old(rows)
    {
      trace := trace + [Called(c)];
      o := *;
    }

    /** An awaited context callback that is handed the chat: it is recorded with the chat
        as it was then, and it may change any field of the chat. */
    method CallOn(c: Callback, chat: RichChat.Chat) returns (o: Outcome)
      modifies this, chat
      ensures trace == old(trace) + [CalledOn(c, old(chat.State()))] && files == old(files) && rows == old(rows)
      ensures chat.calls == old(chat.calls)
    {
      trace := trace + [CalledOn(c, chat.State())];
      chat.prompt, chat.story, chat.histories, chat.model, chat.messages := *, *, *, *, *;
      o := *;
    }
  }

  /** The part of a handler's world that `Side` describes. */
  ghost function Snap(chat: RichChat.Chat, world: World): Side
    reads chat, world
  {
    Side(chat.State(), chat.calls, world.files)
  }

  /** The delivery of one queue message (`MQContext`): acknowledging it records how many
      events of the world had happened by then. */
  class Delivery {
    ghost var acks: seq<nat>

    constructor()
      ensures acks == []
    {
      acks := [];
    }

    /** `context.ack()`. */
    method Ack(world: World)
      modifies this
      ensures acks == old(acks) + [|world.trace|]
    {
      acks := acks + [|world.trace|];
    }
  }
}
