/** What every VLM client shares: the message shape the agent sends, the unified response,
    and `parse_response`, which splits the model's text into its thinking and the action
    directive. */
module ProvidersBase {
  import opened Wrappers
  import opened JsonValues
  import opened Dicts
  import Strings

  /** Raw image bytes (a PNG screenshot). */
  type Bytes = seq<bv8>

  /** A message's `content`: plain text, or a list of parts once a client has attached an
      image. A text part holds whatever the content was before, which is why it is itself
      a `Content`. */
  datatype Content = Text(text: string) | Parts(parts: seq<Part>)
  datatype Part = ImagePart(png: Bytes) | TextPart(content: Content)

  /** A message dict `{"role": ..., "content": ...}`. */
  datatype Message = Message(role: string, content: Content)

  /** Python truthiness of a content value: a non-empty string or a non-empty list. */
  predicate ContentTruthy(c: Content) {
    match c
    case Text(s) => s != ""
    case Parts(ps) => ps != []
  }

  /** `VLMResponse`; every field defaults to the empty string or zero. */
  datatype VLMResponse = VLMResponse(
    thinking: string, action: string, rawContent: string,
    promptTokens: int, completionTokens: int, totalTokens: int)

  const EmptyResponse := VLMResponse("", "", "", 0, 0, 0)

  /** `{k: v for k, v in data.items() if k != key}` */
  function Without(fields: seq<(string, Json)>, key: string): (r: seq<(string, Json)>)
    ensures !HasKey(r, key)
    ensures forall k :: k != key ==> Lookup(r, k) == Lookup(fields, k)
    ensures |r| <= |fields|
  {
    if |fields| == 0 then []
    else
      var rest := Without(fields[1..], key);
      assert Keys(fields) == [fields[0].0] + Keys(fields[1..]);
      if fields[0].0 == key then rest
      else
        assert Keys([fields[0]] + rest) == [fields[0].0] + Keys(rest);
        [fields[0]] + rest
  }

  /** The pairs that survive `Without` keep their order: removing the key from `a + b` is
      removing it from each part. */
  lemma {:induction false} WithoutAppend(a: seq<(string, Json)>, b: seq<(string, Json)>, key: string)
    ensures Without(a + b, key) == Without(a, key) + Without(b, key)
    decreases |a|
  {
    if |a| > 0 {
      assert (a + b)[1..] == a[1..] + b;
      WithoutAppend(a[1..], b, key);
    } else {
      assert a + b == b;
    }
  }

  /** One decoded JSON value split into `(thinking, action)`: the `thinking` entry (`""` when
      absent) and the serialisation of every other entry. `.get` on a value that is not an
      object raises. */
  function SplitDecoded(codec: Codec, data: Json): (r: Result<(Json, string), PyError>)
    ensures r.Err? <==> !data.JObject?
    ensures r.Ok? ==> r.value.1 == codec.encode(JObject(Without(data.fields, "thinking")))
    ensures r.Ok? && !HasKey(data.fields, "thinking") ==> r.value.0 == JString("")
  {
    if !data.JObject? then Err(AttributeError)
    else Ok((GetOr(data, "thinking", JString("")), codec.encode(JObject(Without(data.fields, "thinking")))))
  }

  // ---------------------------------------------------------------------------------------
  // The fenced-block search `re.search(r"```(?:json)?\s*(\{.*?\})\s*```", raw, re.DOTALL)`

  /** The end of the run of whitespace (`\s*`) that starts at `i`. */
  function SkipSpace(s: string, i: nat): (r: nat)
    requires i <= |s|
    ensures i <= r <= |s|
    decreases |s| - i
  {
    if i < |s| && Strings.IsSpace(s[i]) then SkipSpace(s, i + 1) else i
  }

  /** The run is whitespace, and it stops at the first character that is not. */
  lemma {:induction false} SkipSpaceRun(s: string, i: nat)
    requires i <= |s|
    ensures forall m :: i <= m < SkipSpace(s, i) ==> Strings.IsSpace(s[m])
    ensures SkipSpace(s, i) < |s| ==> !Strings.IsSpace(s[SkipSpace(s, i)])
    decreases |s| - i
  {
    if i < |s| && Strings.IsSpace(s[i]) {
      SkipSpaceRun(s, i + 1);
    }
  }

  /** Three backticks start at `i`. */
  predicate TicksAt(s: string, i: nat) {
    i + 3 <= |s| && s[i] == '`' && s[i + 1] == '`' && s[i + 2] == '`'
  }

  /** Where the opening fence at `i` ends: after "```", and after the tag "json" when it
      follows. Without the tag being taken, a "j" can be neither whitespace nor `{`, so
      backtracking over `(?:json)?` never finds another match. */
  function TagEnd(s: string, i: nat): (r: nat)
    requires i + 3 <= |s|
    ensures r <= |s|
  {
    if i + 7 <= |s| && s[i + 3] == 'j' && s[i + 4] == 's' && s[i + 5] == 'o' && s[i + 6] == 'n' then i + 7
    else i + 3
  }

  /** A `}` at `c` that `\s*` and a closing "```" follow. */
  predicate ClosesAt(s: string, c: nat)
    requires c < |s|
  {
    s[c] == '}' && TicksAt(s, SkipSpace(s, c + 1))
  }

  /** The lazy `.*?\}`: the first position from `c` where the block can close. */
  function CloseFrom(s: string, c: nat): (r: Option<nat>)
    requires c <= |s|
    ensures r.Some? ==> c <= r.value < |s| && ClosesAt(s, r.value)
    decreases |s| - c
  {
    if c == |s| then None
    else if ClosesAt(s, c) then Some(c)
    else CloseFrom(s, c + 1)
  }

  /** The lazy search finds the first closing position, or reports that there is none. */
  lemma {:induction false} CloseFromFirst(s: string, c: nat)
    requires c <= |s|
    ensures var r := CloseFrom(s, c);
      && (r.Some? ==> forall m :: c <= m < r.value ==> !ClosesAt(s, m))
      && (r.None? ==> forall m :: c <= m < |s| ==> !ClosesAt(s, m))
    decreases |s| - c
  {
    if c < |s| && !ClosesAt(s, c) {
      CloseFromFirst(s, c + 1);
    }
  }

  /** The `{` that the opening fence at `i` leads to, when there is one. */
  function BraceAfter(s: string, i: nat): (r: Option<nat>)
    requires i <= |s|
    ensures r.Some? ==> i + 3 <= r.value < |s| && s[r.value] == '{'
  {
    if TicksAt(s, i) then
      var k := SkipSpace(s, TagEnd(s, i));
      if k < |s| && s[k] == '{' then Some(k) else None
    else None
  }

  /** The pattern matches starting at `i`. */
  predicate FenceAt(s: string, i: nat)
    requires i <= |s|
  {
    BraceAfter(s, i).Some? && CloseFrom(s, BraceAfter(s, i).value + 1).Some?
  }

  /** The group of the match starting at `i`: from the `{` to the first `}` that closes. */
  function Group(s: string, i: nat): (r: string)
    requires i <= |s| && FenceAt(s, i)
    ensures |r| >= 2 && r[0] == '{' && r[|r| - 1] == '}'
  {
    var k := BraceAfter(s, i).value;
    s[k..CloseFrom(s, k + 1).value + 1]
  }

  /** `re.search` tries the start positions from left to right. */
  function FirstFence(s: string, i: nat): (r: Option<nat>)
    requires i <= |s|
    ensures r.Some? ==> i <= r.value <= |s| && FenceAt(s, r.value)
    decreases |s| - i
  {
    if FenceAt(s, i) then Some(i)
    else if i == |s| then None
    else FirstFence(s, i + 1)
  }

  /** The search stops at the leftmost match, or reports that there is none. */
  lemma {:induction false} FirstFenceFirst(s: string, i: nat)
    requires i <= |s|
    ensures var r := FirstFence(s, i);
      && (r.Some? ==> forall j :: i <= j < r.value ==> !FenceAt(s, j))
      && (r.None? ==> forall j :: i <= j <= |s| ==> !FenceAt(s, j))
    decreases |s| - i
  {
    if !FenceAt(s, i) && i < |s| {
      FirstFenceFirst(s, i + 1);
    }
  }

  /** `json_match.group(1)`, or `None` when the search fails: the group of the leftmost
      start position where the pattern matches. */
  function FencedBlock(s: string): (r: Option<string>)
    ensures r.Some? ==> |r.value| >= 2 && r.value[0] == '{' && r.value[|r.value| - 1] == '}'
  {
    match FirstFence(s, 0)
    case None => None
    case Some(j) => Some(Group(s, j))
  }

  /** The opening of a match: "```", the tag "json" when it follows, then whitespace up to
      the `{` where the group starts. */
  lemma OpeningFence(s: string, i: nat, k: nat)
    requires i <= |s| && BraceAfter(s, i) == Some(k)
    ensures TicksAt(s, i) && k == SkipSpace(s, TagEnd(s, i)) && s[k] == '{'
    ensures forall m :: TagEnd(s, i) <= m < k ==> Strings.IsSpace(s[m])
  {
    SkipSpaceRun(s, TagEnd(s, i));
  }

  /** The group runs from the opening brace to the closing position. */
  lemma GroupSpan(s: string, i: nat, k: nat, c: nat)
    requires i <= |s| && BraceAfter(s, i) == Some(k) && CloseFrom(s, k + 1) == Some(c)
    ensures Group(s, i) == s[k..c + 1]
  {
  }

  /** The closing of a match: the group ends at a `}` that whitespace and "```" follow. */
  lemma ClosingFence(s: string, i: nat, k: nat, c: nat)
    requires i <= |s| && BraceAfter(s, i) == Some(k) && CloseFrom(s, k + 1) == Some(c)
    ensures s[c] == '}' && TicksAt(s, SkipSpace(s, c + 1))
  {
  }

  /** No `}` between the opening brace and the end of the group could have closed it. */
  lemma LazyClose(s: string, i: nat, k: nat, c: nat)
    requires i <= |s| && BraceAfter(s, i) == Some(k) && CloseFrom(s, k + 1) == Some(c)
    ensures forall m :: k < m < c ==> !ClosesAt(s, m)
  {
    CloseFromFirst(s, k + 1);
  }

  /** The search finds nothing exactly when the pattern matches at no position. */
  lemma {:induction false} FencedBlockNone(s: string)
    ensures FencedBlock(s).None? <==> forall j :: 0 <= j <= |s| ==> !FenceAt(s, j)
  {
    FirstFenceFirst(s, 0);
  }

  /** The search reports the group of the leftmost position where the pattern matches. */
  lemma {:induction false} FencedBlockLeftmost(s: string, j: nat)
    requires j <= |s| && FenceAt(s, j)
    requires forall j' :: 0 <= j' < j ==> !FenceAt(s, j')
    ensures FencedBlock(s) == Some(Group(s, j))
  {
    FirstFenceFirst(s, 0);
  }

  /** A match at the first position: its group runs from the brace to the close. */
  lemma FenceAtStart(s: string, k: nat, c: nat)
    requires BraceAfter(s, 0) == Some(k) && CloseFrom(s, k + 1) == Some(c)
    ensures FencedBlock(s) == Some(s[k..c + 1])
  {
    GroupSpan(s, 0, k, c);
    FencedBlockLeftmost(s, 0);
  }

  /** A tagged block: "```json", a newline, the object, a newline, "```". */
  lemma FencedBlockTagged(s: string)
    requires s == "```json\n{\"a\": 1}\n```"
    ensures FencedBlock(s) == Some("{\"a\": 1}")
  {
    TaggedOpening(s);
    TaggedClosing(s);
    FenceAtStart(s, 8, 15);
    assert s[8..16] == "{\"a\": 1}";
  }

  lemma TaggedOpening(s: string)
    requires s == "```json\n{\"a\": 1}\n```"
    ensures BraceAfter(s, 0) == Some(8)
  {
    assert TicksAt(s, 0) && TagEnd(s, 0) == 7;
    assert SkipSpace(s, 8) == 8 && SkipSpace(s, 7) == 8;
  }

  lemma TaggedClosing(s: string)
    requires s == "```json\n{\"a\": 1}\n```"
    ensures CloseFrom(s, 9) == Some(15)
  {
    assert SkipSpace(s, 17) == 17 && SkipSpace(s, 16) == 17 && TicksAt(s, 17);
    CloseFromAtClose(s, 9, 15);
  }

  /** The lazy group closes at the first fenced `}`: of two fenced blocks the first is
      taken. */
  lemma FencedBlockLazy(s: string)
    requires s == "```{a}``` ```{b}```"
    ensures FencedBlock(s) == Some("{a}")
  {
    LazyOpening(s);
    LazyClosing(s);
    FenceAtStart(s, 3, 5);
    assert s[3..6] == "{a}";
  }

  lemma LazyOpening(s: string)
    requires s == "```{a}``` ```{b}```"
    ensures BraceAfter(s, 0) == Some(3)
  {
    assert TicksAt(s, 0) && TagEnd(s, 0) == 3 && SkipSpace(s, 3) == 3;
  }

  lemma LazyClosing(s: string)
    requires s == "```{a}``` ```{b}```"
    ensures CloseFrom(s, 4) == Some(5)
  {
    assert SkipSpace(s, 6) == 6 && TicksAt(s, 6);
    CloseFromAtClose(s, 4, 5);
  }

  /** When `c` is the only candidate from `from` onward that could be a `}`, and it closes,
      the lazy search stops there. */
  lemma CloseFromAtClose(s: string, from: nat, c: nat)
    requires from <= c < |s| && ClosesAt(s, c)
    requires forall m :: from <= m < c ==> s[m] != '}'
    ensures CloseFrom(s, from) == Some(c)
    decreases c - from
  {
    if from < c {
      CloseFromAtClose(s, from + 1, c);
    }
  }

  /** `parse_response`: the fenced block when there is one and it decodes, else the whole
      text. Only decode errors are caught; anything else raised while splitting escapes. */
  function ParseResponse(codec: Codec, raw: string): (r: Result<(Json, string), PyError>)
    ensures r.Err? ==> r.error == AttributeError
  {
    var fenced := FencedBlock(raw);
    if fenced.Some? && codec.decode(fenced.value).Some? then SplitDecoded(codec, codec.decode(fenced.value).value)
    else if codec.decode(raw).Some? then SplitDecoded(codec, codec.decode(raw).value)
    else Ok((JString(""), raw))
  }

  /** The fallback chain: the fenced block when it decodes, else the whole text when it
      decodes, else `("", raw)` unchanged. */
  lemma ParseResponseChain(codec: Codec, raw: string)
    ensures var fenced := FencedBlock(raw);
       fenced.Some? && codec.decode(fenced.value).Some? ==>
      ParseResponse(codec, raw) == SplitDecoded(codec, codec.decode(fenced.value).value)
    ensures var fenced := FencedBlock(raw);
      (fenced.None? || codec.decode(fenced.value).None?) && codec.decode(raw).Some? ==>
      ParseResponse(codec, raw) == SplitDecoded(codec, codec.decode(raw).value)
    ensures var fenced := FencedBlock(raw);
      (fenced.None? || codec.decode(fenced.value).None?) && codec.decode(raw).None? ==>
      ParseResponse(codec, raw) == Ok((JString(""), raw))
  {
  }

  /** Whatever branch produced it, a parsed action is the serialisation of an object that
      has no `thinking` key, and a failure is a decoded value that is not an object. */
  lemma ActionHasNoThinking(codec: Codec, raw: string)
    ensures var r := ParseResponse(codec, raw);
      r.Ok? ==> r.value.1 == raw || exists fields :: r.value.1 == codec.encode(JObject(fields)) && !HasKey(fields, "thinking")
    ensures var r := ParseResponse(codec, raw);
      r.Err? ==> r.error == AttributeError
  {
    var r := ParseResponse(codec, raw);
    if r.Ok? && r.value.1 != raw {
      var fenced := FencedBlock(raw);
      var data := if fenced.Some? && codec.decode(fenced.value).Some? then codec.decode(fenced.value).value
                  else codec.decode(raw).value;
      assert r == SplitDecoded(codec, data);
      var fields := Without(data.fields, "thinking");
      assert r.value.1 == codec.encode(JObject(fields)) && !HasKey(fields, "thinking");
    }
  }

  /** `VLMResponse(thinking=..., action=..., raw_content=content, ...)` after
      `parse_response(content)`: the model validates `thinking` as a string, so a decoded
      non-string `thinking` value is rejected. */
  function ResponseOf(codec: Codec, content: string,
                      promptTokens: int, completionTokens: int, totalTokens: int): (r: Result<VLMResponse, PyError>)
    ensures r.Ok? ==>
      && r.value.rawContent == content && r.value.promptTokens == promptTokens
      && r.value.completionTokens == completionTokens && r.value.totalTokens == totalTokens
    ensures codec.decode(content).None? && (FencedBlock(content).None? || codec.decode(FencedBlock(content).value).None?) ==>
      r == Ok(VLMResponse("", content, content, promptTokens, completionTokens, totalTokens))
  {
    var parsed :- ParseResponse(codec, content);
    if !parsed.0.JString? then Err(ValidationError)
    else Ok(VLMResponse(parsed.0.s, parsed.1, content, promptTokens, completionTokens, totalTokens))
  }

  // ---------------------------------------------------------------------------------------
  // The system-message split shared by the Anthropic and Gemini clients

  /** The content of the last `system` message, `""` when there is none. */
  function SystemOf(ms: seq<Message>): (r: Content)
    ensures (forall i :: 0 <= i < |ms| ==> ms[i].role != "system") ==> r == Text("")
  {
    if |ms| == 0 then Text("")
    else if ms[|ms| - 1].role == "system" then ms[|ms| - 1].content
    else SystemOf(ms[..|ms| - 1])
  }

  /** The messages that are not `system` messages, in their original order. */
  function Conversation(ms: seq<Message>): (r: seq<Message>)
    ensures |r| <= |ms|
    ensures forall i :: 0 <= i < |r| ==> r[i].role != "system" && r[i] in ms
  {
    if |ms| == 0 then []
    else
      var init := Conversation(ms[..|ms| - 1]);
      if ms[|ms| - 1].role == "system" then init else init + [ms[|ms| - 1]]
  }

  /** A later system message replaces an earlier one, and other messages do not disturb
      it: the system prompt is the last system message's content. */
  lemma {:induction false} SystemOfLast(ms: seq<Message>, i: nat)
    requires i < |ms| && ms[i].role == "system"
    requires forall j :: i < j < |ms| ==> ms[j].role != "system"
    ensures SystemOf(ms) == ms[i].content
    decreases |ms|
  {
    if i < |ms| - 1 {
      SystemOfLast(ms[..|ms| - 1], i);
    }
  }

  /** The conversation of a concatenation is the conversations concatenated, so the split
      keeps the non-system messages in order. */
  lemma {:induction false} ConversationAppend(a: seq<Message>, b: seq<Message>)
    ensures Conversation(a + b) == Conversation(a) + Conversation(b)
    decreases |b|
  {
    if |b| == 0 {
      assert a + b == a;
    } else {
      assert (a + b)[..|a + b| - 1] == a + b[..|b| - 1];
      ConversationAppend(a, b[..|b| - 1]);
    }
  }

  /** Without system messages the conversation is the whole list. */
  lemma {:induction false} ConversationNoSystem(ms: seq<Message>)
    requires forall i :: 0 <= i < |ms| ==> ms[i].role != "system"
    ensures Conversation(ms) == ms
    decreases |ms|
  {
    if |ms| > 0 {
      ConversationNoSystem(ms[..|ms| - 1]);
      assert ms[..|ms| - 1] + [ms[|ms| - 1]] == ms;
    }
  }
}
