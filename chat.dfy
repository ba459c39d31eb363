/** The conversation of chat.ts: a system prompt and the ordered list of messages, with
    append operations, `undo(count)` and a text form for storage. */
module CoreChat {
  import opened Wrappers
  import opened Messages
  import Json
  import SessionDoc

  /** The failure `JSON.parse` reports for text that is not a document. */
  const InvalidJson := "Unexpected token in JSON"

  /** The end index `arr.slice(0, end)` stops at: a negative `end` counts back from the
      length (and stops at 0), a large one stops at the length. */
  function SliceEnd(len: nat, end: int): (k: nat)
    ensures k <= len
  {
    if end < 0 then (if len + end < 0 then 0 else len + end)
    else if end < len then end
    else len
  }

  /** `dehydrate()` as a function of the two fields. */
  function DehydrateState(prompt: string, ms: seq<Message>): string {
    Json.Encode(SessionDoc.CoreDocValue(prompt, ms))
  }

  /** What `hydrate(text)` assigns: the prompt (default "") and the messages (default []),
      or the failure JSON.parse raises. */
  function HydrateText(text: string): Result<(string, seq<Message>)> {
    match Json.Parse(text)
    case None => Err(InvalidJson)
    case Some(v) =>
      var p :- SessionDoc.StringField(v, "prompt", "");
      var ms :- SessionDoc.MessagesField(v, "messages");
      Ok((p, ms))
  }

  /** `hydrate(dehydrate())` restores the prompt and the messages. */
  lemma {:induction false} HydrateDehydrate(prompt: string, ms: seq<Message>)
    ensures HydrateText(DehydrateState(prompt, ms)) == Ok((prompt, ms))
  {
    Json.ParseEncode(SessionDoc.CoreDocValue(prompt, ms));
    SessionDoc.CoreDocRoundTrip(prompt, ms);
  }

  /** A document without the two fields (or one that is not an object) hydrates to an
      empty prompt and no messages. */
  lemma {:induction false} HydrateDefaults(text: string)
    requires Json.Parse(text).Some?
    requires var v := Json.Parse(text).value;
      !v.Obj? || (SessionDoc.Lookup(v.fields, "prompt").None? && SessionDoc.Lookup(v.fields, "messages").None?)
    ensures HydrateText(text) == Ok(("", []))
  {
  }

  class Chat {
    var prompt: string
    var messages: seq<Message>

    constructor()
      ensures prompt == "" && messages == []
    {
      prompt := "";
      messages := [];
    }

    method AddSysMsg(msg: string)
      modifies this
      ensures messages == old(messages) + [Message(System, msg)]
      ensures prompt == old(prompt)
    {
      messages := messages + [Message(System, msg)];
    }

    method AddUserMsg(msg: string)
      modifies this
      ensures messages == old(messages) + [Message(User, msg)]
      ensures prompt == old(prompt)
    {
      messages := messages + [Message(User, msg)];
    }

    method AddAssistantMsg(msg: string)
      modifies this
      ensures messages == old(messages) + [Message(Assistant, msg)]
      ensures prompt == old(prompt)
    {
      messages := messages + [Message(Assistant, msg)];
    }

    /** `undo(count)`: `slice(0, -count)`. A negative count is refused; a positive one drops
      the last `count` messages (all of them when there are fewer); 0 drops everything,
      because `-0` is `0`. */
    method Undo(count: int) returns (o: Outcome)
      modifies this
      ensures prompt == old(prompt)
      ensures count < 0 ==> o == Fail("Illegal input") && messages == old(messages)
      ensures count == 0 ==> o == Pass && messages == []
      ensures count >= 1 ==>
        (o == Pass && messages == old(messages)[..if count <= |old(messages)| then |old(messages)| - count else 0])
    {
      if count < 0 {
        return Fail("Illegal input");
      }
      messages := messages[..SliceEnd(|messages|, -count)];
      o := Pass;
    }

    function Dehydrate(): string
      reads this
    {
      DehydrateState(prompt, messages)
    }

    /** `hydrate(text)`: both fields are assigned only once the text has been read. */
    method Hydrate(text: string) returns (o: Outcome)
      modifies this
      ensures HydrateText(text).Ok? ==> o == Pass && (prompt, messages) == HydrateText(text).value
      ensures HydrateText(text).Err? ==>
        o == Fail(HydrateText(text).error) && prompt == old(prompt) && messages == old(messages)
    {
      match HydrateText(text)
      case Err(e) =>
        o := Fail(e);
      case Ok((p, ms)) =>
        prompt := p;
        messages := ms;
        o := Pass;
    }

    /** The `prompt` setter. */
    method SetPrompt(p: string)
      modifies this
      ensures prompt == p && messages == old(messages)
    {
      prompt := p;
    }
  }
}
