/** The client factory: which client a protocol name selects, and what each client is given.
    A client is described by the constructor arguments it receives. */
module ClientFactory {
  import opened Wrappers
  import opened Strings
  import opened JsonValues
  import opened Profiles

  /** The client the factory builds, with the arguments it passes on. */
  datatype ClientSpec =
    | OpenAISpec(apiKey: string, model: string, baseUrl: Option<string>, extraHeaders: Option<seq<(string, string)>>)
    | AnthropicSpec(apiKey: string, model: string, baseUrl: Option<string>)
    | GeminiSpec(apiKey: string, model: string)

  /** `create_vlm_client`: dispatch on the lower-cased protocol. The OpenAI client gets the
      base URL and the extra headers, the Anthropic client only the base URL, the Gemini
      client neither; any other protocol raises `ValueError`. */
  function CreateVlmClient(protocol: string, apiKey: string, model: string,
                           baseUrl: Option<string>, extraHeaders: Option<seq<(string, string)>>): (r: Result<ClientSpec, PyError>)
    ensures r.Err? <==> !ValidProtocol(Lower(protocol))
    ensures r.Err? ==> r.error == ValueError
    ensures Lower(protocol) == "openai" ==> r == Ok(OpenAISpec(apiKey, model, baseUrl, extraHeaders))
    ensures Lower(protocol) == "anthropic" ==> r == Ok(AnthropicSpec(apiKey, model, baseUrl))
    ensures Lower(protocol) == "google" ==> r == Ok(GeminiSpec(apiKey, model))
  {
    var p := Lower(protocol);
    if p == "openai" then Ok(OpenAISpec(apiKey, model, baseUrl, extraHeaders))
    else if p == "anthropic" then Ok(AnthropicSpec(apiKey, model, baseUrl))
    else if p == "google" then Ok(GeminiSpec(apiKey, model))
    else Err(ValueError)
  }

  /** Lower-casing twice is lower-casing once. */
  lemma LowerIdempotent(s: string)
    ensures Lower(Lower(s)) == Lower(s)
  {
  }

  /** The dispatch ignores case: "OpenAI", "OPENAI" and "openai" build the same client. */
  lemma CreateIgnoresCase(protocol: string, apiKey: string, model: string,
                          baseUrl: Option<string>, extraHeaders: Option<seq<(string, string)>>)
    ensures CreateVlmClient(protocol, apiKey, model, baseUrl, extraHeaders)
         == CreateVlmClient(Lower(protocol), apiKey, model, baseUrl, extraHeaders)
  {
    LowerIdempotent(protocol);
  }

  /** "gemini" is not a protocol the factory knows. */
  lemma GeminiNameRejected(apiKey: string, model: string, baseUrl: Option<string>, extraHeaders: Option<seq<(string, string)>>)
    ensures CreateVlmClient("gemini", apiKey, model, baseUrl, extraHeaders) == Err(ValueError)
  {
    assert Lower("gemini") == "gemini";
  }

  /** `create_vlm_client_from_profile`: the profile's protocol, key, model, base URL and
      headers, passed on unchanged. */
  function FromProfile(p: ModelProfile): (r: Result<ClientSpec, PyError>)
    ensures r.Ok? <==> ValidProtocol(Lower(p.protocol))
    ensures r.Err? ==> r.error == ValueError
    ensures Lower(p.protocol) == "openai" ==> r == Ok(OpenAISpec(p.apiKey, p.model, p.baseUrl, p.extraHeaders))
    ensures Lower(p.protocol) == "anthropic" ==> r == Ok(AnthropicSpec(p.apiKey, p.model, p.baseUrl))
    ensures Lower(p.protocol) == "google" ==> r == Ok(GeminiSpec(p.apiKey, p.model))
  {
    CreateVlmClient(p.protocol, p.apiKey, p.model, p.baseUrl, p.extraHeaders)
  }

  /** A profile that passed validation always yields a client, of its protocol's kind, with
      the profile's key and model. */
  lemma FromValidProfile(p: ModelProfile)
    requires ValidProtocol(p.protocol)
    ensures FromProfile(p).Ok?
    ensures p.protocol == "openai" ==> FromProfile(p) == Ok(OpenAISpec(p.apiKey, p.model, p.baseUrl, p.extraHeaders))
    ensures p.protocol == "anthropic" ==> FromProfile(p) == Ok(AnthropicSpec(p.apiKey, p.model, p.baseUrl))
    ensures p.protocol == "google" ==> FromProfile(p) == Ok(GeminiSpec(p.apiKey, p.model))
  {
    assert Lower("openai") == "openai";
    assert Lower("anthropic") == "anthropic";
    assert Lower("google") == "google";
  }
}
