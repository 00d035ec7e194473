/** The Anthropic client. The system prompt travels apart from the conversation, the image
    goes into the last user message, and the reply's text blocks are joined. The
    conversation holds the caller's own message dicts, so attaching the image rewrites the
    caller's message in place: here the dicts are objects and `request` modifies them. */
module AnthropicChat {
  import opened Wrappers
  import opened JsonValues
  import opened ProvidersBase

  /** A message dict owned by the caller. */
  class MessageDict {
    var role: string
    var content: Content

    constructor (role: string, content: Content)
      ensures this.role == role && this.content == content
    {
      this.role := role;
      this.content := content;
    }
  }

  /** The values the dicts hold now. */
  function Snapshot(ms: seq<MessageDict>): (r: seq<Message>)
    reads ms
    ensures |r| == |ms|
  {
    if |ms| == 0 then [] else Snapshot(ms[..|ms| - 1]) + [Message(ms[|ms| - 1].role, ms[|ms| - 1].content)]
  }

  /** The dicts that are not system messages, in order (the same objects). */
  function NonSystem(ms: seq<MessageDict>): (r: seq<MessageDict>)
    reads ms`role
    ensures |r| <= |ms|
    ensures forall i :: 0 <= i < |r| ==> r[i] in ms
  {
    if |ms| == 0 then []
    else
      var init := NonSystem(ms[..|ms| - 1]);
      if ms[|ms| - 1].role == "system" then init else init + [ms[|ms| - 1]]
  }

  /** Taking the non-system dicts and reading them is the shared conversation split. */
  lemma {:induction false} NonSystemIsConversation(ms: seq<MessageDict>)
    ensures Snapshot(NonSystem(ms)) == Conversation(Snapshot(ms))
    decreases |ms|
  {
    if |ms| > 0 {
      var init := ms[..|ms| - 1];
      NonSystemIsConversation(init);
      assert Snapshot(ms)[..|ms| - 1] == Snapshot(init);
      var last := ms[|ms| - 1];
      if last.role != "system" {
        var ns := NonSystem(init);
        assert (ns + [last])[..|ns|] == ns;
        assert Snapshot(ns + [last]) == Snapshot(ns) + [Message(last.role, last.content)];
      }
    }
  }

  /** `_extract_system_and_messages`: the last system message's content (`""` when there is
      none) and the other dicts in their order. */
  method ExtractSystemAndMessages(messages: seq<MessageDict>) returns (system: Content, conversation: seq<MessageDict>)
    ensures system == SystemOf(Snapshot(messages))
    ensures conversation == NonSystem(messages)
  {
    system := Text("");
    conversation := [];
    var i := 0;
    while i < |messages|
      invariant 0 <= i <= |messages|
      invariant system == SystemOf(Snapshot(messages[..i]))
      invariant conversation == NonSystem(messages[..i])
    {
      var msg := messages[i];
      assert messages[..i + 1][..i] == messages[..i];
      assert Snapshot(messages[..i + 1])[..i] == Snapshot(messages[..i]);
      if msg.role == "system" {
        system := msg.content;
      } else {
        conversation := conversation + [msg];
      }
      i := i + 1;
    }
    assert messages[..|messages|] == messages;
  }

  /** `_build_content`: an image block first when there is an image, then exactly one text
      block. */
  function BuildContent(text: Content, image: Option<Bytes>): (r: seq<Part>)
    ensures |r| == if image.Some? then 2 else 1
    ensures r[|r| - 1] == TextPart(text)
    ensures image.Some? ==> r[0] == ImagePart(image.value)
  {
    (if image.Some? then [ImagePart(image.value)] else []) + [TextPart(text)]
  }

  /** The last element of a list, if any. */
  function LastDict(ms: seq<MessageDict>): (r: Option<MessageDict>)
    ensures r.Some? <==> |ms| > 0
    ensures r.Some? ==> r.value == ms[|ms| - 1] && r.value in ms
  {
    if |ms| == 0 then None else Some(ms[|ms| - 1])
  }

  // ---------------------------------------------------------------------------------------
  // The reply

  /** A content block of the reply; only text blocks have a `text` attribute. */
  datatype ReplyBlock = TextBlock(text: string) | OtherBlock
  datatype ReplyUsage = ReplyUsage(inputTokens: int, outputTokens: int)
  datatype Reply = Reply(blocks: seq<ReplyBlock>, usage: ReplyUsage)

  /** The text blocks' texts, concatenated in order. */
  function TextOf(blocks: seq<ReplyBlock>): string {
    if |blocks| == 0 then ""
    else TextOf(blocks[..|blocks| - 1]) + (if blocks[|blocks| - 1].TextBlock? then blocks[|blocks| - 1].text else "")
  }

  lemma {:induction false} TextOfAppend(a: seq<ReplyBlock>, b: seq<ReplyBlock>)
    ensures TextOf(a + b) == TextOf(a) + TextOf(b)
    decreases |b|
  {
    if |b| == 0 {
      assert a + b == a;
    } else {
      assert (a + b)[..|a + b| - 1] == a + b[..|b| - 1];
      TextOfAppend(a, b[..|b| - 1]);
    }
  }

  /** The loop that accumulates `content += block.text`. */
  method JoinText(blocks: seq<ReplyBlock>) returns (content: string)
    ensures content == TextOf(blocks)
  {
    content := "";
    var i := 0;
    while i < |blocks|
      invariant 0 <= i <= |blocks|
      invariant content == TextOf(blocks[..i])
    {
      assert blocks[..i + 1][..i] == blocks[..i];
      if blocks[i].TextBlock? {
        content := content + blocks[i].text;
      }
      i := i + 1;
    }
    assert blocks[..|blocks|] == blocks;
  }

  /** The response built from a reply: its joined text, and a total of input plus output. */
  function ReplyResponse(codec: Codec, reply: Reply): (r: Result<VLMResponse, PyError>)
    ensures r.Ok? ==> r.value.rawContent == TextOf(reply.blocks)
    ensures r.Ok? ==> r.value.totalTokens == r.value.promptTokens + r.value.completionTokens
    ensures r.Ok? ==> r.value.promptTokens == reply.usage.inputTokens && r.value.completionTokens == reply.usage.outputTokens
  {
    ResponseOf(codec, TextOf(reply.blocks), reply.usage.inputTokens, reply.usage.outputTokens,
               reply.usage.inputTokens + reply.usage.outputTokens)
  }

  /** `system if system else NOT_GIVEN` */
  function SystemParam(system: Content): (r: Option<Content>)
    ensures r.Some? <==> ContentTruthy(system)
    ensures r.Some? ==> r.value == system
  {
    if ContentTruthy(system) then Some(system) else None
  }

  /** The SDK client as constructed; the base URL is passed only when it is truthy. */
  class Connection {
    const apiKey: string
    const baseUrl: Option<string>

    constructor (apiKey: string, baseUrl: Option<string>)
      ensures this.apiKey == apiKey && this.baseUrl == baseUrl
    {
      this.apiKey := apiKey;
      this.baseUrl := baseUrl;
    }
  }

  class AnthropicClient {
    const apiKey: string
    const model: string
    const baseUrl: Option<string>
    const maxTokens: int
    /** `json.loads`/`json.dumps`, and `messages.create` (which
        receives the system prompt, or `None` for `NOT_GIVEN`, and the conversation). */
    const codec: Codec
    const create: (Option<Content>, seq<Message>) -> Reply
    var connection: Option<Connection>

    constructor (apiKey: string, model: string, baseUrl: Option<string>, maxTokens: int,
                 codec: Codec, create: (Option<Content>, seq<Message>) -> Reply)
      ensures this.apiKey == apiKey && this.model == model && this.baseUrl == baseUrl && this.maxTokens == maxTokens
      ensures this.codec == codec && this.create == create
      ensures connection.None?
    {
      this.apiKey := apiKey;
      this.model := model;
      this.baseUrl := baseUrl;
      this.maxTokens := maxTokens;
      this.codec := codec;
      this.create := create;
      connection := None;
    }

    /** `provider_name` */
    function ProviderName(): (r: string)
      ensures r == "Anthropic"
    {
      "Anthropic"
    }

    /** `model_name` */
    function ModelName(): (r: string)
      ensures r == model
    {
      model
    }

    /** The lazily built SDK client, made once. */
    method Client() returns (c: Connection)
      modifies this
      ensures connection == Some(c)
      ensures old(connection).Some? ==> c == old(connection).value
      ensures old(connection).None? ==> fresh(c) && c.apiKey == apiKey
      ensures old(connection).None? ==> c.baseUrl == if baseUrl.Some? && baseUrl.value != "" then baseUrl else None
    {
      if connection.None? {
        var made := new Connection(apiKey, if baseUrl.Some? && baseUrl.value != "" then baseUrl else None);
        connection := Some(made);
      }
      c := connection.value;
    }

    /** `request`. When the last conversation dict is a user message, its content becomes
        the image block (if any) and a text block holding the old content; that dict is the
        caller's, so the caller's list changes. No other dict changes, and no role does. The
        conversation is sent as it stands after the rewrite. */
    method Request(messages: seq<MessageDict>, image: Option<Bytes>) returns (r: Result<VLMResponse, PyError>)
      modifies this, messages
      ensures forall m :: m in messages ==> m.role == old(m.role)
      ensures ImageAttached(messages, image)
      ensures r == ReplyResponse(codec, create(SystemParam(SystemOf(old(Snapshot(messages)))), Snapshot(NonSystem(messages))))
    {
      var system, conversation := Prepare(messages, image);
      label prepared:
      r := Send(system, conversation);
      assert unchanged@prepared(messages);
    }

    /** The first half of `request`: the split of the messages, then the image attached to
        the last conversation dict. */
    method Prepare(messages: seq<MessageDict>, image: Option<Bytes>) returns (system: Content, conversation: seq<MessageDict>)
      modifies messages
      ensures forall m :: m in messages ==> m.role == old(m.role)
      ensures ImageAttached(messages, image)
      ensures system == SystemOf(old(Snapshot(messages))) && conversation == NonSystem(messages)
    {
      system, conversation := ExtractSystemAndMessages(messages);
      assert LastDict(conversation) == old(LastDict(NonSystem(messages)));
      AttachImage(conversation, image);
      assert ImageAttached(messages, image);
      assert conversation == NonSystem(messages);
    }

    /** The rewrite of the last conversation dict, when it is a user message. */
    method AttachImage(conversation: seq<MessageDict>, image: Option<Bytes>)
      modifies conversation
      ensures forall m :: m in conversation ==> m.role == old(m.role)
      ensures var rewritten := |conversation| > 0 && old(conversation[|conversation| - 1].role) == "user";
        && (rewritten ==>
              conversation[|conversation| - 1].content == Parts(BuildContent(old(conversation[|conversation| - 1].content), image)))
        && (forall m :: m in conversation && (!rewritten || m != conversation[|conversation| - 1]) ==>
              m.content == old(m.content))
    {
      if |conversation| > 0 && conversation[|conversation| - 1].role == "user" {
        var last := conversation[|conversation| - 1];
        var text := last.content;
        last.content := Parts(BuildContent(text, image));
      }
    }

    /** The call to `messages.create` and the reading of its reply. */
    method Send(system: Content, conversation: seq<MessageDict>) returns (r: Result<VLMResponse, PyError>)
      modifies this
      ensures connection.Some? && (old(connection).Some? ==> connection == old(connection))
      ensures r == ReplyResponse(codec, create(SystemParam(system), Snapshot(conversation)))
    {
      var c := Client();
      var reply := create(SystemParam(system), Snapshot(conversation));
      var content := JoinText(reply.blocks);
      r := ResponseOf(codec, content, reply.usage.inputTokens, reply.usage.outputTokens,
                      reply.usage.inputTokens + reply.usage.outputTokens);
      assert r == ReplyResponse(codec, reply);
    }

    /** The dict that was the last of the conversation, if it was a user message, now holds
        the image block (if any) and a text block with its old content; every other dict
        holds what it held. */
    twostate predicate ImageAttached(messages: seq<MessageDict>, image: Option<Bytes>)
      reads messages
    {
      var target := old(LastDict(NonSystem(messages)));
      var rewritten := target.Some? && old(target.value.role) == "user";
      && (rewritten ==> target.value.content == Parts(BuildContent(old(target.value.content), image)))
      && (forall m :: m in messages && (!rewritten || m != target.value) ==> m.content == old(m.content))
    }
  }
}
