/** The JSON document a chat is dehydrated to, and how `hydrate` reads fields back out of
    a parsed document (`json.prompt || ''`, `json.messages || []`). */
module SessionDoc {
  import opened Wrappers
  import opened Messages
  import Json

  /** The refusal for a document whose fields have a shape the model does not represent. */
  const Unsupported := "Unsupported session document"

  function MessageValue(m: Message): Json.Value {
    Json.Obj([Json.Field("role", Json.Str(RoleName(m.role))), Json.Field("content", Json.Str(m.content))])
  }

  function MessagesValue(ms: seq<Message>): (v: Json.Value)
    ensures v.Arr? && |v.items| == |ms|
    ensures forall i :: 0 <= i < |ms| ==> v.items[i] == MessageValue(ms[i])
  {
    Json.Arr(seq(|ms|, i requires 0 <= i < |ms| => MessageValue(ms[i])))
  }

  function StringsValue(xs: seq<string>): (v: Json.Value)
    ensures v.Arr? && |v.items| == |xs|
    ensures forall i :: 0 <= i < |xs| ==> v.items[i] == Json.Str(xs[i])
  {
    Json.Arr(seq(|xs|, i requires 0 <= i < |xs| => Json.Str(xs[i])))
  }

  /** Property access `obj[key]` on a parsed object: the value of the LAST field with
      that key (JSON.parse keeps the last duplicate), or None. */
  function Lookup(fs: seq<Json.Field>, key: string): Option<Json.Value> {
    if fs == [] then None
    else if fs[|fs| - 1].key == key then Some(fs[|fs| - 1].val)
    else Lookup(fs[..|fs| - 1], key)
  }

  /** A key reads as nothing exactly when no field has it. */
  lemma {:induction false} LookupNone(fs: seq<Json.Field>, key: string)
    ensures Lookup(fs, key).None? <==> forall i :: 0 <= i < |fs| ==> fs[i].key != key
  {
    if fs != [] && fs[|fs| - 1].key != key {
      LookupNone(fs[..|fs| - 1], key);
      assert forall i :: 0 <= i < |fs| - 1 ==> fs[..|fs| - 1][i] == fs[i];
    }
  }

  /** Otherwise it reads as the value of its last occurrence. */
  lemma {:induction false} LookupSome(fs: seq<Json.Field>, key: string)
    ensures Lookup(fs, key).Some? ==>
      exists i :: 0 <= i < |fs| && fs[i].key == key && fs[i].val == Lookup(fs, key).value
                  && forall j :: i < j < |fs| ==> fs[j].key != key
  {
    if fs != [] && fs[|fs| - 1].key != key {
      LookupSome(fs[..|fs| - 1], key);
      assert forall i :: 0 <= i < |fs| - 1 ==> fs[..|fs| - 1][i] == fs[i];
    }
  }

  function ToMessage(v: Json.Value): Result<Message> {
    match v
    case Obj(fs) =>
      (match (Lookup(fs, "role"), Lookup(fs, "content"))
       case (Some(Str(r)), Some(Str(c))) =>
         if r in {"system", "user", "assistant"} then Ok(Message(RoleOf(r), c)) else Err(Unsupported)
       case _ => Err(Unsupported))
    case _ => Err(Unsupported)
  }

  function ToMessages(items: seq<Json.Value>): (r: Result<seq<Message>>)
    ensures r.Ok? ==> |r.value| == |items|
  {
    if items == [] then Ok([])
    else
      match ToMessage(items[0])
      case Err(e) => Err(e)
      case Ok(m) =>
        match ToMessages(items[1..])
        case Err(e) => Err(e)
        case Ok(ms) => Ok([m] + ms)
  }

  function ToStrings(items: seq<Json.Value>): (r: Result<seq<string>>)
    ensures r.Ok? ==> |r.value| == |items|
  {
    if items == [] then Ok([])
    else
      match items[0]
      case Str(s) =>
        (match ToStrings(items[1..])
         case Err(e) => Err(e)
         case Ok(ss) => Ok([s] + ss))
      case _ => Err(Unsupported)
  }

  /** `json.key || default` for a string field: a missing or empty string gives the default. */
  function StringField(v: Json.Value, key: string, default: string): Result<string> {
    if !v.Obj? then Ok(default)
    else
      match Lookup(v.fields, key)
      case None => Ok(default)
      case Some(Str(s)) => Ok(if s == "" then default else s)
      case Some(_) => Err(Unsupported)
  }

  /** `json.key` for a field that may be absent. */
  function OptionalStringField(v: Json.Value, key: string): Result<Option<string>> {
    if !v.Obj? then Ok(None)
    else
      match Lookup(v.fields, key)
      case None => Ok(None)
      case Some(Str(s)) => Ok(Some(s))
      case Some(_) => Err(Unsupported)
  }

  /** `json.key || []` for a list of messages. */
  function MessagesField(v: Json.Value, key: string): Result<seq<Message>> {
    if !v.Obj? then Ok([])
    else
      match Lookup(v.fields, key)
      case None => Ok([])
      case Some(Arr(items)) => ToMessages(items)
      case Some(_) => Err(Unsupported)
  }

  /** `json.key || []` for a list of strings. */
  function StringsField(v: Json.Value, key: string): Result<seq<string>> {
    if !v.Obj? then Ok([])
    else
      match Lookup(v.fields, key)
      case None => Ok([])
      case Some(Arr(items)) => ToStrings(items)
      case Some(_) => Err(Unsupported)
  }

  /** The object `{prompt, messages}` that chat.ts stringifies. */
  function CoreDocValue(prompt: string, ms: seq<Message>): Json.Value {
    Json.Obj([Json.Field("prompt", Json.Str(prompt)), Json.Field("messages", MessagesValue(ms))])
  }

  /** The document of the richer chat: the same two fields followed by story, histories
      and, when one is selected, the model (JSON.stringify drops an undefined field). */
  function RichDocValue(prompt: string, ms: seq<Message>, story: string, histories: seq<string>,
                        model: Option<string>): Json.Value
  {
    Json.Obj([Json.Field("prompt", Json.Str(prompt)), Json.Field("messages", MessagesValue(ms)),
              Json.Field("story", Json.Str(story)), Json.Field("histories", StringsValue(histories))]
             + (if model.Some? then [Json.Field("model", Json.Str(model.value))] else []))
  }

  lemma {:induction false} MessageRoundTrip(m: Message)
    ensures ToMessage(MessageValue(m)) == Ok(m)
  {
    var fs := MessageValue(m).fields;
    assert fs[..1] == [Json.Field("role", Json.Str(RoleName(m.role)))];
    assert Lookup(fs, "role") == Some(Json.Str(RoleName(m.role)));
    assert RoleOf(RoleName(m.role)) == m.role;
  }

  lemma {:induction false} MessagesRoundTrip(ms: seq<Message>)
    ensures ToMessages(MessagesValue(ms).items) == Ok(ms)
  {
    var items := MessagesValue(ms).items;
    if ms != [] {
      assert items[1..] == MessagesValue(ms[1..]).items;
      MessagesRoundTrip(ms[1..]);
      MessageRoundTrip(ms[0]);
      assert [ms[0]] + ms[1..] == ms;
    }
  }

  lemma {:induction false} StringsRoundTrip(xs: seq<string>)
    ensures ToStrings(StringsValue(xs).items) == Ok(xs)
  {
    var items := StringsValue(xs).items;
    if xs != [] {
      assert items[1..] == StringsValue(xs[1..]).items;
      StringsRoundTrip(xs[1..]);
      assert [xs[0]] + xs[1..] == xs;
    }
  }

  /** Reading the fields of the core document gives back what was written (an empty
      prompt reads back as the default "", which is the same string). */
  lemma {:induction false} CoreDocRoundTrip(prompt: string, ms: seq<Message>)
    ensures StringField(CoreDocValue(prompt, ms), "prompt", "") == Ok(prompt)
    ensures MessagesField(CoreDocValue(prompt, ms), "messages") == Ok(ms)
  {
    var fs := CoreDocValue(prompt, ms).fields;
    assert Lookup(fs, "messages") == Some(MessagesValue(ms));
    assert Lookup(fs, "prompt") == Some(Json.Str(prompt));
    MessagesRoundTrip(ms);
  }

  /** Fields after the last one with a key do not change what the key reads as. */
  lemma {:induction false} LookupSkip(a: seq<Json.Field>, b: seq<Json.Field>, key: string)
    requires forall i :: 0 <= i < |b| ==> b[i].key != key
    ensures Lookup(a + b, key) == Lookup(a, key)
  {
    if b == [] {
      assert a + b == a;
    } else {
      assert (a + b)[..|a + b| - 1] == a + b[..|b| - 1];
      LookupSkip(a, b[..|b| - 1], key);
    }
  }

  lemma {:induction false} RichDocCoreFields(prompt: string, ms: seq<Message>, story: string, histories: seq<string>,
                          model: Option<string>)
    ensures var fs := RichDocValue(prompt, ms, story, histories, model).fields;
      Lookup(fs, "prompt") == Some(Json.Str(prompt)) && Lookup(fs, "messages") == Some(MessagesValue(ms))
  {
    var fs := RichDocValue(prompt, ms, story, histories, model).fields;
    var f0, f1 := Json.Field("prompt", Json.Str(prompt)), Json.Field("messages", MessagesValue(ms));
    var rest := fs[2..];
    assert fs == [f0] + ([f1] + rest);
    assert forall i :: 0 <= i < |rest| ==> rest[i].key in {"story", "histories", "model"};
    LookupSkip([f0], [f1] + rest, "prompt");
    assert fs == [f0, f1] + rest;
    LookupSkip([f0, f1], rest, "messages");
  }

  lemma {:induction false} RichDocExtraFields(prompt: string, ms: seq<Message>, story: string, histories: seq<string>,
                           model: Option<string>)
    ensures var fs := RichDocValue(prompt, ms, story, histories, model).fields;
      Lookup(fs, "story") == Some(Json.Str(story)) && Lookup(fs, "histories") == Some(StringsValue(histories))
      && Lookup(fs, "model") == (if model.Some? then Some(Json.Str(model.value)) else None)
  {
    var fs := RichDocValue(prompt, ms, story, histories, model).fields;
    var tail := fs[4..];
    var f2, f3 := Json.Field("story", Json.Str(story)), Json.Field("histories", StringsValue(histories));
    assert fs == fs[..2] + [f2] + ([f3] + tail);
    LookupSkip(fs[..2] + [f2], [f3] + tail, "story");
    assert fs == fs[..3] + [f3] + tail;
    LookupSkip(fs[..3] + [f3], tail, "histories");
    if model.None? {
      assert forall i :: 0 <= i < |fs| ==> fs[i].key in {"prompt", "messages", "story", "histories"};
      LookupNone(fs, "model");
    }
  }

  lemma {:induction false} RichDocRoundTrip(prompt: string, ms: seq<Message>, story: string, histories: seq<string>,
                         model: Option<string>)
    ensures var v := RichDocValue(prompt, ms, story, histories, model);
      StringField(v, "prompt", "") == Ok(prompt) && MessagesField(v, "messages") == Ok(ms)
      && StringField(v, "story", "") == Ok(story) && StringsField(v, "histories") == Ok(histories)
      && OptionalStringField(v, "model") == Ok(model)
  {
    RichDocCoreFields(prompt, ms, story, histories, model);
    RichDocExtraFields(prompt, ms, story, histories, model);
    MessagesRoundTrip(ms);
    StringsRoundTrip(histories);
  }
}
