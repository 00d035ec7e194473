/** The OpenAI-compatible client: which provider a base URL names, how the image is attached
    to the user messages, and how a chat completion becomes a `VLMResponse`. The SDK's
    network call is the `complete` oracle. */
module OpenAIChat {
  import opened Wrappers
  import opened Strings
  import opened JsonValues
  import opened ProvidersBase

  // ---------------------------------------------------------------------------------------
  // provider_name

  /** `provider_name`: the first case-insensitive marker found in a non-empty base URL, in
      the order deepseek, openrouter, volces, localhost; "OpenAI" otherwise. */
  function ProviderName(baseUrl: Option<string>): (r: string)
    ensures baseUrl.None? || baseUrl.value == "" ==> r == "OpenAI"
    ensures r == "OpenAI" || exists i :: 0 <= i < |HostMarkers| && r == HostMarkers[i].1
  {
    if baseUrl.None? || baseUrl.value == "" then "OpenAI"
    else
      var url := Lower(baseUrl.value);
      assert HostMarkers[0].1 == "DeepSeek" && HostMarkers[1].1 == "OpenRouter";
      assert HostMarkers[2].1 == "火山方舟" && HostMarkers[3].1 == "Local";
      if Contains(url, "deepseek") then "DeepSeek"
      else if Contains(url, "openrouter") then "OpenRouter"
      else if Contains(url, "volces") then "火山方舟"
      else if Contains(url, "localhost") then "Local"
      else "OpenAI"
  }

  /** The markers and the provider each one names, in the order they are tried. */
  const HostMarkers: seq<(string, string)> :=
    [("deepseek", "DeepSeek"), ("openrouter", "OpenRouter"), ("volces", "火山方舟"), ("localhost", "Local")]

  /** The provider of the first marker in `markers` that occurs in `url`. */
  function FirstMarker(url: string, markers: seq<(string, string)>): (r: Option<nat>)
    ensures r.Some? ==> r.value < |markers| && Contains(url, markers[r.value].0)
    ensures r.Some? ==> forall j :: 0 <= j < r.value ==> !Contains(url, markers[j].0)
    ensures r.None? ==> forall j :: 0 <= j < |markers| ==> !Contains(url, markers[j].0)
  {
    if |markers| == 0 then None
    else if Contains(url, markers[0].0) then Some(0)
    else
      match FirstMarker(url, markers[1..])
      case None => None
      case Some(k) => Some(k + 1)
  }

  /** The ladder is the first-match search over the marker table: the earliest marker that
      occurs wins, and a URL with none of them (or no URL) is "OpenAI". */
  lemma ProviderNameIsFirstMarker(baseUrl: Option<string>)
    ensures var found := if baseUrl.None? || baseUrl.value == "" then None else FirstMarker(Lower(baseUrl.value), HostMarkers);
      ProviderName(baseUrl) == if found.Some? then HostMarkers[found.value].1 else "OpenAI"
  {
    if baseUrl.Some? && baseUrl.value != "" {
      var url := Lower(baseUrl.value);
      var m1 := HostMarkers[1..];
      var m2 := m1[1..];
      var m3 := m2[1..];
      assert m3 == [("localhost", "Local")] && m3[1..] == [];
      assert FirstMarker(url, m3) == if Contains(url, "localhost") then Some(0) else None;
      assert m2[0].0 == "volces" && m1[0].0 == "openrouter" && HostMarkers[0].0 == "deepseek";
    }
  }

  // ---------------------------------------------------------------------------------------
  // _build_messages

  /** One message as `_build_messages` sends it: with an image, a user message becomes an
      image part followed by a text part holding the original content; anything else is
      passed through. */
  function BuiltMessage(m: Message, image: Option<Bytes>): Message {
    if m.role == "user" && image.Some? then Message("user", Parts([ImagePart(image.value), TextPart(m.content)]))
    else m
  }

  /** Every non-user message, and every message when there is no image, goes through as it
      was; with an image, every user message (not only the last) carries it first. */
  lemma BuiltMessageCases(m: Message, image: Option<Bytes>)
    ensures m.role != "user" || image.None? ==> BuiltMessage(m, image) == m
    ensures m.role == "user" && image.Some? ==>
      BuiltMessage(m, image).role == "user"
      && BuiltMessage(m, image).content.Parts?
      && |BuiltMessage(m, image).content.parts| == 2
      && BuiltMessage(m, image).content.parts[0] == ImagePart(image.value)
      && BuiltMessage(m, image).content.parts[1] == TextPart(m.content)
  {
  }

  /** The whole list as `_build_messages` sends it. */
  function Built(messages: seq<Message>, image: Option<Bytes>): seq<Message> {
    seq(|messages|, i requires 0 <= i < |messages| => BuiltMessage(messages[i], image))
  }

  /** `_build_messages`: one message out for each message in, in the same order. */
  method BuildMessages(messages: seq<Message>, image: Option<Bytes>) returns (result: seq<Message>)
    ensures |result| == |messages|
    ensures forall i :: 0 <= i < |messages| ==> result[i] == BuiltMessage(messages[i], image)
  {
    result := [];
    var i := 0;
    while i < |messages|
      invariant 0 <= i <= |messages|
      invariant |result| == i
      invariant forall j :: 0 <= j < i ==> result[j] == BuiltMessage(messages[j], image)
    {
      var msg := messages[i];
      if msg.role == "user" && image.Some? {
        result := result + [Message("user", Parts([ImagePart(image.value), TextPart(msg.content)]))];
      } else {
        result := result + [msg];
      }
      i := i + 1;
    }
  }

  // ---------------------------------------------------------------------------------------
  // request

  datatype Usage = Usage(promptTokens: int, completionTokens: int, totalTokens: int)

  /** What `chat.completions.create` returns that `request` reads: the first choice's
      content (possibly `None`) and the usage block (possibly absent). */
  datatype Completion = Completion(content: Option<string>, usage: Option<Usage>)

  /** The response `request` builds: `None` content reads as "", missing usage as zeros. */
  function CompletionResponse(codec: Codec, c: Completion): (r: Result<VLMResponse, PyError>)
    ensures r.Ok? ==> r.value.rawContent == (if c.content.Some? then c.content.value else "")
    ensures r.Ok? && c.usage.None? ==> r.value.promptTokens == 0 && r.value.completionTokens == 0 && r.value.totalTokens == 0
    ensures r.Ok? && c.usage.Some? ==>
      && r.value.promptTokens == c.usage.value.promptTokens
      && r.value.completionTokens == c.usage.value.completionTokens && r.value.totalTokens == c.usage.value.totalTokens
  {
    var content := if c.content.Some? then c.content.value else "";
    match c.usage
    case None => ResponseOf(codec, content, 0, 0, 0)
    case Some(u) => ResponseOf(codec, content, u.promptTokens, u.completionTokens, u.totalTokens)
  }

  /** The SDK client as constructed: key, base URL and default headers. */
  class Connection {
    const apiKey: string
    const baseUrl: Option<string>
    const headers: Option<seq<(string, string)>>

    constructor (apiKey: string, baseUrl: Option<string>, headers: Option<seq<(string, string)>>)
      ensures this.apiKey == apiKey && this.baseUrl == baseUrl && this.headers == headers
    {
      this.apiKey := apiKey;
      this.baseUrl := baseUrl;
      this.headers := headers;
    }
  }

  class OpenAIClient {
    const apiKey: string
    const model: string
    const baseUrl: Option<string>
    const extraHeaders: Option<seq<(string, string)>>
    const temperature: real
    const maxTokens: int
    /** `json.loads`/`json.dumps`, and the chat endpoint. */
    const codec: Codec
    const complete: seq<Message> -> Completion
    var connection: Option<Connection>

    constructor (apiKey: string, model: string, baseUrl: Option<string>, extraHeaders: Option<seq<(string, string)>>,
                 temperature: real, maxTokens: int,
                 codec: Codec, complete: seq<Message> -> Completion)
      ensures this.apiKey == apiKey && this.model == model && this.baseUrl == baseUrl
      ensures this.extraHeaders == extraHeaders && this.temperature == temperature && this.maxTokens == maxTokens
      ensures this.codec == codec && this.complete == complete
      ensures connection.None?
    {
      this.apiKey := apiKey;
      this.model := model;
      this.baseUrl := baseUrl;
      this.extraHeaders := extraHeaders;
      this.temperature := temperature;
      this.maxTokens := maxTokens;
      this.codec := codec;
      this.complete := complete;
      connection := None;
    }

    /** `model_name` */
    function ModelName(): (r: string)
      ensures r == model
    {
      model
    }

    /** The lazily built SDK client: made on first use from the key, base URL and headers,
        and the same object on every later use. */
    method Client() returns (c: Connection)
      modifies this
      ensures connection == Some(c)
      ensures old(connection).Some? ==> c == old(connection).value
      ensures old(connection).None? ==> fresh(c) && c.apiKey == apiKey && c.baseUrl == baseUrl && c.headers == extraHeaders
    {
      if connection.None? {
        var made := new Connection(apiKey, baseUrl, extraHeaders);
        connection := Some(made);
      }
      c := connection.value;
    }

    /** `request`: the built messages go to the endpoint and its completion is parsed. */
    method Request(messages: seq<Message>, image: Option<Bytes>) returns (r: Result<VLMResponse, PyError>)
      modifies this
      ensures connection.Some? && (old(connection).Some? ==> connection == old(connection))
      ensures r == CompletionResponse(codec, complete(Built(messages, image)))
    {
      var built := BuildMessages(messages, image);
      assert built == Built(messages, image);
      var c := Client();
      r := CompletionResponse(codec, complete(built));
    }
  }
}
