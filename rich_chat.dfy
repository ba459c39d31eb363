/** The conversation the command interpreters and the workers use: besides the prompt and
    the messages it carries a story setting, a list of story summaries ("histories") and
    the selected model. Its no-argument `undo()`, `clear()` and `clearMessages()` are not
    part of this model: they may change any field, and each call is recorded. */
module RichChat {
  import opened Wrappers
  import opened Messages
  import Json
  import SessionDoc

  datatype ChatState = ChatState(prompt: string, story: string, histories: seq<string>,
                                 model: Option<string>, messages: seq<Message>)

  /** The operations whose effect on the fields is unknown. */
  datatype OpaqueCall = UndoCall | ClearCall | ClearMessagesCall

  const InvalidJson := "Unexpected token in JSON"

  /** The object `dehydrate()` stringifies. */
  function Document(s: ChatState): Json.Value {
    SessionDoc.RichDocValue(s.prompt, s.messages, s.story, s.histories, s.model)
  }

  function DehydrateState(s: ChatState): string {
    Json.Encode(Document(s))
  }

  /** The state read from a parsed document, every field defaulting when absent. */
  function HydrateValue(v: Json.Value): Result<ChatState> {
    var p :- SessionDoc.StringField(v, "prompt", "");
    var ms :- SessionDoc.MessagesField(v, "messages");
    var st :- SessionDoc.StringField(v, "story", "");
    var hs :- SessionDoc.StringsField(v, "histories");
    var m :- SessionDoc.OptionalStringField(v, "model");
    Ok(ChatState(p, st, hs, m, ms))
  }

  /** The state `hydrate(text)` produces. */
  function HydrateText(text: string): Result<ChatState> {
    match Json.Parse(text)
    case None => Err(InvalidJson)
    case Some(v) => HydrateValue(v)
  }

  /** The document of a state reads back as that state. */
  lemma {:induction false} HydrateDocument(s: ChatState)
    ensures HydrateValue(Document(s)) == Ok(s)
  {
    SessionDoc.RichDocRoundTrip(s.prompt, s.messages, s.story, s.histories, s.model);
  }

  /** `JSON.parse(dehydrate())` is the document, and `hydrate(JSON.stringify(doc))` reads
      a document as `HydrateValue` does. */
  lemma {:induction false} DocumentText(s: ChatState, v: Json.Value)
    ensures Json.Parse(DehydrateState(s)) == Some(Document(s))
    ensures HydrateText(Json.Encode(v)) == HydrateValue(v)
  {
    Json.ParseEncode(Document(s));
    Json.ParseEncode(v);
  }

  /** `hydrate(dehydrate())` restores every field. */
  lemma {:induction false} HydrateDehydrate(s: ChatState)
    ensures HydrateText(DehydrateState(s)) == Ok(s)
  {
    DocumentText(s, Document(s));
    HydrateDocument(s);
  }

  class Chat {
    var prompt: string
    var story: string
    var histories: seq<string>
    var model: Option<string>
    var messages: seq<Message>
    ghost var calls: seq<OpaqueCall>

    function State(): ChatState
      reads this
    {
      ChatState(prompt, story, histories, model, messages)
    }

    constructor()
      ensures State() == ChatState("", "", [], None, []) && calls == []
    {
      prompt, story, histories, model, messages := "", "", [], None, [];
      calls := [];
    }

    method AddUserMsg(msg: string)
      modifies this
      ensures State() == old(State()).(messages := old(messages) + [Message(User, msg)])
      ensures calls == old(calls)
    {
      messages := messages + [Message(User, msg)];
    }

    method AddAssistantMsg(msg: string)
      modifies this
      ensures State() == old(State()).(messages := old(messages) + [Message(Assistant, msg)])
      ensures calls == old(calls)
    {
      messages := messages + [Message(Assistant, msg)];
    }

    method AddHistory(h: string)
      modifies this
      ensures State() == old(State()).(histories := old(histories) + [h])
      ensures calls == old(calls)
    {
      histories := histories + [h];
    }

    method Undo()
      modifies this
      ensures calls == old(calls) + [UndoCall]
    {
      prompt, story, histories, model, messages := *, *, *, *, *;
      calls := calls + [UndoCall];
    }

    method Clear()
      modifies this
      ensures calls == old(calls) + [ClearCall]
    {
      prompt, story, histories, model, messages := *, *, *, *, *;
      calls := calls + [ClearCall];
    }

    method ClearMessages()
      modifies this
      ensures calls == old(calls) + [ClearMessagesCall]
    {
      prompt, story, histories, model, messages := *, *, *, *, *;
      calls := calls + [ClearMessagesCall];
    }

    function Dehydrate(): string
      reads this
    {
      DehydrateState(State())
    }

    method Hydrate(text: string) returns (o: Outcome)
      modifies this
      ensures HydrateText(text).Ok? ==> o == Pass && State() == HydrateText(text).value
      ensures HydrateText(text).Err? ==> o == Fail(HydrateText(text).error) && State() == old(State())
      ensures calls == old(calls)
    {
      match HydrateText(text)
      case Err(e) =>
        o := Fail(e);
      case Ok(s) =>
        prompt, story, histories, model, messages := s.prompt, s.story, s.histories, s.model, s.messages;
        o := Pass;
    }

    /** `hydrate(JSON.stringify(json))`: hydrating from the text of a stored document is
        hydrating from the document itself. */
    method HydrateStored(v: Json.Value) returns (o: Outcome)
      modifies this
      ensures HydrateValue(v).Ok? ==> o == Pass && State() == HydrateValue(v).value
      ensures HydrateValue(v).Err? ==> o == Fail(HydrateValue(v).error) && State() == old(State())
      ensures calls == old(calls)
    {
      DocumentText(State(), v);
      o := Hydrate(Json.Encode(v));
    }
  }
}
