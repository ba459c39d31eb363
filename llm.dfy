/** The chat-completion client of client/llm/index.ts: the request a chat turns into, and
    the choice of provider from the configured name. */
module LlmClient {
  import opened Wrappers
  import opened Messages
  import opened Text
  import RichChat

  const StoryIntro := "The story setting is as follow: "
  const HistoryIntro := "History of the story so far:\n"

  /** The system message that carries the story setting. */
  function StoryMessage(story: string): Message {
    Message(System, StoryIntro + story + "\n")
  }

  /** The system message that carries the summaries of the story so far. */
  function HistoryMessage(histories: seq<string>): Message {
    Message(System, HistoryIntro + Join(histories, "\n"))
  }

  /** How many system messages precede the transcript: one for a non-empty prompt, one
      for a non-empty story, one when there are histories. */
  function PreambleLength(s: RichChat.ChatState): nat {
    (if s.prompt != "" then 1 else 0) + (if s.story != "" then 1 else 0) + (if s.histories != [] then 1 else 0)
  }

  /** `toCompletionRequest(chat)`: the prompt, the story setting and the history block,
      each only when present, then the transcript. */
  function ToCompletionRequest(s: RichChat.ChatState): (r: seq<Message>)
    ensures |r| == PreambleLength(s) + |s.messages|
    ensures r[PreambleLength(s)..] == s.messages
    ensures forall i :: 0 <= i < PreambleLength(s) ==> r[i].role == System
    ensures s.prompt != "" ==> r[0] == Message(System, s.prompt)
    ensures s.story != "" ==> r[if s.prompt != "" then 1 else 0] == StoryMessage(s.story)
    ensures s.histories != [] ==> r[PreambleLength(s) - 1] == HistoryMessage(s.histories)
  {
    (if s.prompt != "" then [Message(System, s.prompt)] else [])
    + (if s.story != "" then [StoryMessage(s.story)] else [])
    + (if s.histories != [] then [HistoryMessage(s.histories)] else [])
    + s.messages
  }

  /** A chat with no prompt, story or histories is sent as its bare transcript. */
  lemma {:induction false} BareTranscript(s: RichChat.ChatState)
    requires s.prompt == "" && s.story == "" && s.histories == []
    ensures ToCompletionRequest(s) == s.messages
  {
  }

  /** Appending a message to the chat appends it to the request and changes nothing
      before it. */
  lemma {:induction false} RequestAppend(s: RichChat.ChatState, m: Message)
    ensures ToCompletionRequest(s.(messages := s.messages + [m])) == ToCompletionRequest(s) + [m]
  {
    var t := s.(messages := s.messages + [m]);
    var a, b := ToCompletionRequest(t), ToCompletionRequest(s) + [m];
    assert |a| == |b|;
    forall i | 0 <= i < |a|
      ensures a[i] == b[i]
    {
      var k := PreambleLength(s);
      if i >= k {
        assert a[i] == a[k..][i - k] == t.messages[i - k];
      }
    }
  }

  datatype Provider = Ollama | OpenAI | Mock

  function ProviderName(p: Provider): string {
    match p
    case Ollama => "ollama"
    case OpenAI => "openai"
    case Mock => "mock"
  }

  /** The `switch (env.LLM_PROVIDER)` that picks the client. */
  function SelectProvider(name: string): (r: Result<Provider>)
    ensures r.Ok? <==> name in {"ollama", "openai", "mock"}
    ensures r.Ok? ==> ProviderName(r.value) == name
    ensures r.Err? ==> r.error == "Invalid chat completion provider"
  {
    if name == "ollama" then Ok(Ollama)
    else if name == "openai" then Ok(OpenAI)
    else if name == "mock" then Ok(Mock)
    else Err("Invalid chat completion provider")
  }

  /** Every provider is selected by its own name. */
  lemma {:induction false} SelectByName(p: Provider)
    ensures SelectProvider(ProviderName(p)) == Ok(p)
  {
  }
}
