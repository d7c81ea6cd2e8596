/**
  The unified completion and embedding wrapper: a context window applied
  before every completion request, the Llama-3 prompt format used for the
  Replicate backend, and the provider dispatch with its error strings.
  The backends themselves are oracles gathered in `Backends`.
*/
module LlmClient {
  import opened Chat
  import opened Text

  /** Histories longer than this are trimmed before a request. */
  const MAX_HISTORY: nat := 11

  const OPENAI: string := "openai"
  const REPLICATE: string := "replicate"
  const CLIENT_MISSING: string := "Error: OpenAI client not initialized."
  const UNKNOWN_PROVIDER: string := "Error: Unknown provider "

  /** What the wrapper talks to. The flags are the module-level client
      construction and the `REPLICATE_API_TOKEN` variable; each call yields
      `None` when the library raises. */
  datatype Backends = Backends(
    openaiReady: bool,
    replicateTokenSet: bool,
    openaiChat: (string, seq<Message>) -> Option<string>,
    replicateRun: (string, string) -> Option<seq<string>>,
    openaiEmbed: (string, string) -> Option<seq<real>>)

  /** The history actually sent: a leading system message and the last 10
      messages, or the last 11 messages. The caller's list is a value and
      is left as it was. */
  function Window(messages: seq<Message>): (r: seq<Message>)
    ensures |messages| <= MAX_HISTORY ==> r == messages
    ensures |messages| > MAX_HISTORY ==> |r| == MAX_HISTORY
    ensures |messages| > MAX_HISTORY && messages[0].role == SYSTEM ==>
      r[0] == messages[0] && r[1..] == messages[|messages| - 10..]
    ensures |messages| > MAX_HISTORY && messages[0].role != SYSTEM ==>
      r == messages[|messages| - 11..]
  {
    if |messages| > MAX_HISTORY then
      if messages[0].role == SYSTEM then [messages[0]] + messages[|messages| - 10..]
      else messages[|messages| - 11..]
    else messages
  }

  /** `idx` lists, in increasing order, the positions in `s` of the
      elements of `r`. */
  predicate PicksOut<T(==)>(r: seq<T>, s: seq<T>, idx: seq<nat>) {
    && |idx| == |r|
    && (forall i :: 0 <= i < |idx| ==> idx[i] < |s| && r[i] == s[idx[i]])
    && (forall i, j :: 0 <= i < j < |idx| ==> idx[i] < idx[j])
  }

  /** The positions `Window` keeps. */
  function WindowIndices(messages: seq<Message>): seq<nat> {
    var n := |messages|;
    if n > MAX_HISTORY then
      if messages[0].role == SYSTEM then [0] + seq(10, i requires 0 <= i < 10 => n - 10 + i)
      else seq(11, i requires 0 <= i < 11 => n - 11 + i)
    else seq(n, i requires 0 <= i < n => i)
  }

  /** The window is a subsequence of the history: it keeps relative order. */
  lemma WindowKeepsOrder(messages: seq<Message>)
    ensures PicksOut(Window(messages), messages, WindowIndices(messages))
  {
  }

  /** The most recent message is always sent, and a leading system message
      is always sent first. */
  lemma WindowKeepsEnds(messages: seq<Message>)
    requires messages != []
    ensures Window(messages) != []
    ensures Window(messages)[|Window(messages)| - 1] == messages[|messages| - 1]
    ensures messages[0].role == SYSTEM ==> Window(messages)[0] == messages[0]
  {
  }

  /** Trimming an already trimmed history changes nothing. */
  lemma WindowIdempotent(messages: seq<Message>)
    ensures Window(Window(messages)) == Window(messages)
  {
  }

  const BEGIN_OF_TEXT: string := "<|begin_of_text|>"
  const ASSISTANT_HEADER: string := "<|start_header_id|>assistant<|end_header_id|>\n\n"

  /** One message in the Llama-3 chat template. */
  function Segment(m: Message): string {
    "<|start_header_id|>" + m.role + "<|end_header_id|>\n\n" + m.content + "<|eot_id|>"
  }

  function Segments(messages: seq<Message>): string {
    if messages == [] then "" else Segment(messages[0]) + Segments(messages[1..])
  }

  /** The prompt string, as a value. */
  function ReplicatePrompt(messages: seq<Message>): string {
    BEGIN_OF_TEXT + Segments(messages) + ASSISTANT_HEADER
  }

  /** Segments of a concatenation are the concatenation of the segments:
      one segment per message, in order. */
  lemma {:induction false} SegmentsAppend(a: seq<Message>, b: seq<Message>)
    ensures Segments(a + b) == Segments(a) + Segments(b)
  {
    if a == [] {
      assert a + b == b;
    } else {
      assert (a + b)[1..] == a[1..] + b;
      SegmentsAppend(a[1..], b);
    }
  }

  /** An empty chat is the begin marker followed by the assistant header. */
  lemma ReplicatePromptEmpty()
    ensures ReplicatePrompt([]) == BEGIN_OF_TEXT + ASSISTANT_HEADER
  {
    assert Segments([]) == "";
  }

  /** `format_replicate_prompt`: the loop that accumulates the prompt with `+=`. */
  method FormatReplicatePrompt(messages: seq<Message>) returns (prompt: string)
    ensures prompt == ReplicatePrompt(messages)
  {
    prompt := BEGIN_OF_TEXT;
    for i := 0 to |messages|
      invariant prompt == BEGIN_OF_TEXT + Segments(messages[..i])
    {
      SegmentsAppend(messages[..i], [messages[i]]);
      assert messages[..i + 1] == messages[..i] + [messages[i]];
      prompt := prompt + Segment(messages[i]);
    }
    assert messages[..|messages|] == messages;
    prompt := prompt + ASSISTANT_HEADER;
  }

  /** The prompt opens with the begin marker and ends with the assistant
      header that invites the reply. */
  lemma ReplicatePromptFrame(messages: seq<Message>)
    ensures StartsWith(ReplicatePrompt(messages), BEGIN_OF_TEXT)
    ensures EndsWith(ReplicatePrompt(messages), ASSISTANT_HEADER)
  {
    ConcatFrame(BEGIN_OF_TEXT, Segments(messages), ASSISTANT_HEADER);
  }

  /** `"".join(output)` */
  function Concat(parts: seq<string>): string {
    if parts == [] then "" else parts[0] + Concat(parts[1..])
  }

  /** `get_completion`: windowing, then dispatch on the provider tag. A
      library exception becomes the empty string. */
  function GetCompletion(b: Backends, messages: seq<Message>, model: string, provider: string): (r: string)
    ensures provider == OPENAI && !b.openaiReady ==> r == CLIENT_MISSING
    ensures provider == OPENAI && b.openaiReady ==>
      r == (match b.openaiChat(model, Window(messages)) case Some(text) => text case None => "")
    ensures provider == REPLICATE && !b.replicateTokenSet ==> r == ""
    ensures provider == REPLICATE && b.replicateTokenSet ==>
      r == (match b.replicateRun(model, ReplicatePrompt(Window(messages)))
            case Some(output) => Concat(output) case None => "")
    ensures provider != OPENAI && provider != REPLICATE ==> r == UNKNOWN_PROVIDER + provider
  {
    var sent := Window(messages);
    if provider == OPENAI then
      if !b.openaiReady then CLIENT_MISSING
      else match b.openaiChat(model, sent)
        case Some(text) => text
        case None => ""
    else if provider == REPLICATE then
      if !b.replicateTokenSet then ""
      else match b.replicateRun(model, ReplicatePrompt(sent))
        case Some(output) => Concat(output)
        case None => ""
    else UNKNOWN_PROVIDER + provider
  }

  /** The completion call of a caller that fixes its model and provider. */
  function Completer(b: Backends, model: string, provider: string): seq<Message> -> string {
    messages => GetCompletion(b, messages, model, provider)
  }

  /** A call of `get_completion` from a loop that is specified by the
      completion function of its model and provider. */
  method Complete(b: Backends, messages: seq<Message>, model: string, provider: string) returns (reply: string)
    ensures reply == Completer(b, model, provider)(messages)
  {
    reply := GetCompletion(b, messages, model, provider);
  }

  /** Whatever the backend, the reply depends on the history only through
      its window. */
  lemma CompletionSeesOnlyWindow(b: Backends, m1: seq<Message>, m2: seq<Message>, model: string, provider: string)
    requires Window(m1) == Window(m2)
    ensures GetCompletion(b, m1, model, provider) == GetCompletion(b, m2, model, provider)
  {
  }

  /** The text sent to the embedding backend: newlines become spaces. */
  function EmbeddingInput(text: string): (r: string)
    ensures |r| == |text|
    ensures forall i :: 0 <= i < |r| ==> r[i] != '\n'
    ensures forall i :: 0 <= i < |r| ==> r[i] == (if text[i] == '\n' then ' ' else text[i])
  {
    ReplaceChar(text, '\n', ' ');
    Replace(text, "\n", " ")
  }

  /** `get_embedding`: only the OpenAI provider with a client embeds;
      every other case, and a library exception, gives the empty vector. */
  function GetEmbedding(b: Backends, text: string, model: string, provider: string): (v: seq<real>)
    ensures provider != OPENAI ==> v == []
    ensures !b.openaiReady ==> v == []
    ensures provider == OPENAI && b.openaiReady ==>
      v == (match b.openaiEmbed(model, EmbeddingInput(text)) case Some(e) => e case None => [])
  {
    if provider != OPENAI then []
    else if !b.openaiReady then []
    else match b.openaiEmbed(model, EmbeddingInput(text))
      case Some(e) => e
      case None => []
  }
}
