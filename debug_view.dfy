/** What `/debug` shows of a conversation: its prompt, story and the shortened text of
    each message, and in the Telegram interpreter the selected model. */
module DebugView {
  import opened Wrappers
  import opened Messages
  import Json
  import SessionDoc
  import RichChat
  import CommandSyntax

  /** `messages.map(msg => ... slice(0, 100) + "..." ...)`. */
  function Previews(ms: seq<Message>): (r: seq<string>)
    ensures |r| == |ms|
    ensures forall i :: 0 <= i < |ms| ==> r[i] == CommandSyntax.Preview(ms[i].content)
  {
    seq(|ms|, i requires 0 <= i < |ms| => CommandSyntax.Preview(ms[i].content))
  }

  /** The object `{prompt, story, message}` that `/debug` stringifies, followed by the
      model when `withModel` and one is selected (an undefined field is dropped). */
  function DebugDoc(s: RichChat.ChatState, withModel: bool): Json.Value {
    Json.Obj([Json.Field("prompt", Json.Str(s.prompt)), Json.Field("story", Json.Str(s.story)),
              Json.Field("message", SessionDoc.StringsValue(Previews(s.messages)))]
             + (if withModel && s.model.Some? then [Json.Field("model", Json.Str(s.model.value))] else []))
  }

  function DebugText(s: RichChat.ChatState, withModel: bool): string {
    Json.Encode(DebugDoc(s, withModel))
  }

  /** The text reads back as the prompt, the story and one preview per message, each
      preview at most 103 characters long. */
  lemma {:induction false} DebugTextReadable(s: RichChat.ChatState, withModel: bool)
    ensures Json.Parse(DebugText(s, withModel)) == Some(DebugDoc(s, withModel))
    ensures SessionDoc.StringField(DebugDoc(s, withModel), "prompt", "") == Ok(s.prompt)
      && SessionDoc.StringField(DebugDoc(s, withModel), "story", "") == Ok(s.story)
      && SessionDoc.StringsField(DebugDoc(s, withModel), "message") == Ok(Previews(s.messages))
    ensures forall i :: 0 <= i < |s.messages| ==> |Previews(s.messages)[i]| <= 103
  {
    Json.ParseEncode(DebugDoc(s, withModel));
    DebugDocFields(s, withModel);
  }

  /** The document's fields read back as the prompt, the story and the previews. */
  lemma {:induction false} DebugDocFields(s: RichChat.ChatState, withModel: bool)
    ensures SessionDoc.StringField(DebugDoc(s, withModel), "prompt", "") == Ok(s.prompt)
      && SessionDoc.StringField(DebugDoc(s, withModel), "story", "") == Ok(s.story)
      && SessionDoc.StringsField(DebugDoc(s, withModel), "message") == Ok(Previews(s.messages))
  {
    var v := DebugDoc(s, withModel);
    var fs := v.fields;
    var f0, f1, f2 := fs[0], fs[1], fs[2];
    var rest := fs[3..];
    assert forall i :: 0 <= i < |rest| ==> rest[i].key == "model";
    assert fs == [f0] + ([f1, f2] + rest);
    SessionDoc.LookupSkip([f0], [f1, f2] + rest, "prompt");
    assert fs == [f0, f1] + ([f2] + rest);
    SessionDoc.LookupSkip([f0, f1], [f2] + rest, "story");
    assert fs == [f0, f1, f2] + rest;
    SessionDoc.LookupSkip([f0, f1, f2], rest, "message");
    SessionDoc.StringsRoundTrip(Previews(s.messages));
  }

  /** `JSON.stringify(chat.dehydrate(), null, 4)`: the document is already a string, so it
      is written once more as a JSON string literal. */
  function QuotedDocument(doc: string): string {
    Json.Encode(Json.Str(doc))
  }

  /** The quoted form reads back as one string, the document itself, not as its object. */
  lemma {:induction false} QuotedDocumentReadable(doc: string)
    ensures Json.Parse(QuotedDocument(doc)) == Some(Json.Str(doc))
    ensures QuotedDocument(doc)[0] == '"'
  {
    Json.ParseEncode(Json.Str(doc));
  }
}
