/** The Gemini client: the system prompt becomes the model's system instruction, the
    conversation becomes a chat history plus one message to send, and the screenshot goes
    with the last message when that is a user message. The SDK is the `send` oracle. */
module GeminiChat {
  import opened Wrappers
  import opened JsonValues
  import opened ProvidersBase

  /** `_extract_system_prompt`: the last system message's content and the other messages. */
  method ExtractSystemPrompt(messages: seq<Message>) returns (system: Content, conversation: seq<Message>)
    ensures system == SystemOf(messages)
    ensures conversation == Conversation(messages)
  {
    system := Text("");
    conversation := [];
    var i := 0;
    while i < |messages|
      invariant 0 <= i <= |messages|
      invariant system == SystemOf(messages[..i])
      invariant conversation == Conversation(messages[..i])
    {
      assert messages[..i + 1][..i] == messages[..i];
      if messages[i].role == "system" {
        system := messages[i].content;
      } else {
        conversation := conversation + [messages[i]];
      }
      i := i + 1;
    }
    assert messages[..|messages|] == messages;
  }

  /** A message in Gemini's shape: role "user" or "model", and its parts. */
  datatype GeminiMessage = GeminiMessage(role: string, parts: seq<Part>)

  /** Python truthiness of the optional image. */
  predicate HasImage(image: Option<Bytes>) {
    image.Some? && image.value != []
  }

  /** The `i`-th converted message: "user" stays "user" and every other role is "model";
      the image comes first only in the last message, only when it is a user message;
      the content is always the last part. */
  function ConvertedAt(messages: seq<Message>, i: nat, image: Option<Bytes>): GeminiMessage
    requires i < |messages|
  {
    var msg := messages[i];
    var picture := if i == |messages| - 1 && msg.role == "user" && HasImage(image) then [ImagePart(image.value)] else [];
    GeminiMessage(if msg.role == "user" then "user" else "model", picture + [TextPart(msg.content)])
  }

  function Converted(messages: seq<Message>, image: Option<Bytes>): (r: seq<GeminiMessage>)
    ensures |r| == |messages|
  {
    seq(|messages|, i requires 0 <= i < |messages| => ConvertedAt(messages, i, image))
  }

  /** What the conversion promises, message by message. */
  lemma ConvertedShape(messages: seq<Message>, image: Option<Bytes>, i: nat)
    requires i < |messages|
    ensures var g := Converted(messages, image)[i];
      && (g.role == "user" <==> messages[i].role == "user")
      && (g.role != "user" ==> g.role == "model")
      && |g.parts| > 0 && g.parts[|g.parts| - 1] == TextPart(messages[i].content)
      && (g.parts[0].ImagePart? <==> i == |messages| - 1 && messages[i].role == "user" && HasImage(image))
      && (g.parts[0].ImagePart? ==> g.parts == [ImagePart(image.value), TextPart(messages[i].content)])
      && (!g.parts[0].ImagePart? ==> g.parts == [TextPart(messages[i].content)])
  {
  }

  /** `_convert_to_gemini_messages` */
  method ConvertToGeminiMessages(messages: seq<Message>, image: Option<Bytes>) returns (result: seq<GeminiMessage>)
    ensures result == Converted(messages, image)
  {
    result := [];
    var i := 0;
    while i < |messages|
      invariant 0 <= i <= |messages|
      invariant |result| == i
      invariant forall j :: 0 <= j < i ==> result[j] == ConvertedAt(messages, j, image)
    {
      var msg := messages[i];
      var role := if msg.role == "user" then "user" else "model";
      var parts: seq<Part> := [];
      if i == |messages| - 1 && msg.role == "user" && image.Some? && image.value != [] {
        parts := parts + [ImagePart(image.value)];
      }
      parts := parts + [TextPart(msg.content)];
      result := result + [GeminiMessage(role, parts)];
      i := i + 1;
    }
  }

  /** The chat history: every converted message but the last when there are at least two. */
  function History(g: seq<GeminiMessage>): (r: seq<GeminiMessage>)
    ensures |g| > 1 ==> r == g[..|g| - 1]
    ensures |g| <= 1 ==> r == []
  {
    if |g| > 1 then g[..|g| - 1] else []
  }

  /** The parts sent: the last converted message's, or one empty text part. */
  function LastParts(g: seq<GeminiMessage>): (r: seq<Part>)
    ensures |g| > 0 ==> r == g[|g| - 1].parts
    ensures |g| == 0 ==> r == [TextPart(Text(""))]
  {
    if |g| > 0 then g[|g| - 1].parts else [TextPart(Text(""))]
  }

  /** History and the message sent partition the conversation: nothing is dropped or sent
      twice. */
  lemma HistoryThenLast(g: seq<GeminiMessage>)
    requires |g| > 0
    ensures History(g) + [GeminiMessage(g[|g| - 1].role, LastParts(g))] == g
  {
  }

  /** The model the chat is started on: the configured one, or a new one whose system
      instruction is the system prompt when that is truthy. */
  datatype ModelChoice = Preconfigured | WithInstruction(system: Content)

  function ModelFor(system: Content): (r: ModelChoice)
    ensures r.WithInstruction? <==> ContentTruthy(system)
    ensures r.WithInstruction? ==> r.system == system
  {
    if ContentTruthy(system) then WithInstruction(system) else Preconfigured
  }

  /** `response.usage_metadata`, whose counts may be missing. */
  datatype UsageMetadata = UsageMetadata(promptTokenCount: Option<int>, candidatesTokenCount: Option<int>)
  datatype GeminiReply = GeminiReply(text: string, usage: Option<UsageMetadata>)

  /** A count that is missing, or whose metadata is missing, reads as zero. */
  function CountOr0(usage: Option<UsageMetadata>, prompt: bool): (r: int)
    ensures usage.None? ==> r == 0
    ensures usage.Some? && prompt ==> r == (if usage.value.promptTokenCount.Some? then usage.value.promptTokenCount.value else 0)
    ensures usage.Some? && !prompt ==> r == (if usage.value.candidatesTokenCount.Some? then usage.value.candidatesTokenCount.value else 0)
  {
    if usage.None? then 0
    else
      var count := if prompt then usage.value.promptTokenCount else usage.value.candidatesTokenCount;
      if count.Some? then count.value else 0
  }

  /** The response built from a reply: its text, and the total as prompt plus candidates. */
  function GeminiResponse(codec: Codec, reply: GeminiReply): (r: Result<VLMResponse, PyError>)
    ensures r.Ok? ==> r.value.rawContent == reply.text
    ensures r.Ok? ==> r.value.promptTokens == CountOr0(reply.usage, true) && r.value.completionTokens == CountOr0(reply.usage, false)
    ensures r.Ok? ==> r.value.totalTokens == r.value.promptTokens + r.value.completionTokens
  {
    var prompt := CountOr0(reply.usage, true);
    var completion := CountOr0(reply.usage, false);
    ResponseOf(codec, reply.text, prompt, completion, prompt + completion)
  }

  class GeminiClient {
    const apiKey: string
    const model: string
    const temperature: real
    const maxOutputTokens: int
    /** `json.loads`/`json.dumps`, and one chat round: the model,
        the history the chat starts with, and the parts sent. */
    const codec: Codec
    const send: (ModelChoice, seq<GeminiMessage>, seq<Part>) -> GeminiReply

    constructor (apiKey: string, model: string, temperature: real, maxOutputTokens: int,
                 codec: Codec, send: (ModelChoice, seq<GeminiMessage>, seq<Part>) -> GeminiReply)
      ensures this.apiKey == apiKey && this.model == model
      ensures this.temperature == temperature && this.maxOutputTokens == maxOutputTokens
      ensures this.codec == codec && this.send == send
    {
      this.apiKey := apiKey;
      this.model := model;
      this.temperature := temperature;
      this.maxOutputTokens := maxOutputTokens;
      this.codec := codec;
      this.send := send;
    }

    /** `provider_name` */
    function ProviderName(): (r: string)
      ensures r == "Google"
    {
      "Google"
    }

    /** `model_name` */
    function ModelName(): (r: string)
      ensures r == model
    {
      model
    }

    /** `request`: the system prompt picks the model, the converted conversation is split
        into history and the message sent, and the reply is parsed. */
    method Request(messages: seq<Message>, image: Option<Bytes>) returns (r: Result<VLMResponse, PyError>)
      ensures var g := Converted(Conversation(messages), image);
        r == GeminiResponse(codec, send(ModelFor(SystemOf(messages)), History(g), LastParts(g)))
    {
      var system, conversation := ExtractSystemPrompt(messages);
      var geminiMessages := ConvertToGeminiMessages(conversation, image);
      var reply := send(ModelFor(system), History(geminiMessages), LastParts(geminiMessages));
      r := GeminiResponse(codec, reply);
    }
  }
}
