/**
 * `LLMClient`: which provider a model name goes to, which SDK clients exist,
 * the request each provider is sent, and how its reply or failure becomes the
 * client's result or error. The providers themselves are outside the model:
 * their answer to the one call a request makes is an input (`Upstream`).
 */
module LlmClient {
  import opened Wrappers
  import opened Text
  import opened Settings

  datatype Provider = OpenAI | Claude | Ollama

  /** The only model names served by the local Ollama endpoint. */
  const OllamaModels: seq<string> := ["llama2", "codellama", "mistral", "phi"]

  /** The model names `GET /models` advertises, per provider. */
  const OpenAIModels: seq<string> := ["gpt-3.5-turbo", "gpt-4", "gpt-4-turbo"]
  const ClaudeModels: seq<string> := ["claude-3-sonnet", "claude-3-opus", "claude-3-haiku"]

  /** The provider a model name is routed to, or the "Unsupported model" error. */
  function Route(model: string): (r: Result<Provider, string>)
    ensures r == Success(OpenAI) <==> StartsWith(model, "gpt")
    ensures r == Success(Claude) <==> !StartsWith(model, "gpt") && StartsWith(model, "claude")
    ensures r == Success(Ollama) <==>
      !StartsWith(model, "gpt") && !StartsWith(model, "claude") && model in OllamaModels
    ensures r.Failure? ==> r.error == "Unsupported model: " + model
  {
    if StartsWith(model, "gpt") then Success(OpenAI)
    else if StartsWith(model, "claude") then Success(Claude)
    else if model in OllamaModels then Success(Ollama)
    else Failure("Unsupported model: " + model)
  }

  /** Every model `GET /models` lists is routed to the provider it is listed under. */
  lemma AdvertisedModelsRoute()
    ensures forall m :: m in OpenAIModels ==> Route(m) == Success(OpenAI)
    ensures forall m :: m in ClaudeModels ==> Route(m) == Success(Claude)
    ensures forall m :: m in OllamaModels ==> Route(m) == Success(Ollama)
  {
    assert "gpt-3.5-turbo"[..3] == "gpt" && "gpt-4"[..3] == "gpt" && "gpt-4-turbo"[..3] == "gpt";
    assert "claude-3-sonnet"[0] != 'g' && "claude-3-sonnet"[..6] == "claude";
    assert "claude-3-opus"[0] != 'g' && "claude-3-opus"[..6] == "claude";
    assert "claude-3-haiku"[0] != 'g' && "claude-3-haiku"[..6] == "claude";
    assert "llama2"[0] != 'g' && "llama2"[0] != 'c';
    assert "codellama"[0] != 'g' && "codellama"[1] != 'l';
    assert "mistral"[0] != 'g' && "mistral"[0] != 'c';
    assert |"phi"| < 6 && "phi"[0] != 'g';
  }

  /** An SDK client, created with the key it authenticates with. */
  datatype SdkClient = SdkClient(apiKey: string)

  datatype Message = Message(role: string, content: string)

  datatype OllamaPayload = OllamaPayload(
    model: string, prompt: string, stream: bool, numPredict: int, temperature: Temperature)

  /** The request a provider is sent. */
  datatype ProviderCall =
    | OpenAIChat(model: string, messages: seq<Message>, maxTokens: int, temperature: Temperature)
    | ClaudeMessages(model: string, maxTokens: int, temperature: Temperature, messages: seq<Message>)
    | OllamaGenerate(url: string, payload: OllamaPayload)

  /** The `response` field of a JSON body as `data.get("response", "")` reads
      it: absent, `null`, or a string. */
  datatype JsonField = Absent | Null | Text(text: string)

  /** The answer of the Ollama HTTP endpoint: a status with the `response` field
      of the JSON body, or a failure to get an answer at all. */
  datatype HttpReply = HttpReply(status: nat, response: JsonField) | HttpError(message: string)

  /** What the outside world answers to the one call a request makes: the SDK's
      text (`None` for a message without content) or the message of the
      exception it raised, and the Ollama reply. Only the part belonging to the
      routed provider is consulted. */
  datatype Upstream = Upstream(sdk: Result<Option<string>, string>, http: HttpReply)

  /** `data.get("response", "")`: an absent field reads as `""`, a `null` one as
      `None`. */
  function FieldText(field: JsonField): Option<string> {
    match field
    case Absent => Some("")
    case Null => None
    case Text(t) => Some(t)
  }

  class Client {
    const preferences: Preferences
    const openaiClient: Option<SdkClient>
    const claudeClient: Option<SdkClient>

    /** `__init__`: an SDK client exists exactly when its key is truthy. */
    constructor (preferences: Preferences)
      ensures this.preferences == preferences
      ensures openaiClient.Some? <==> Truthy(preferences.openaiApiKey)
      ensures openaiClient.Some? ==> openaiClient.value.apiKey == preferences.openaiApiKey.value
      ensures claudeClient.Some? <==> Truthy(preferences.claudeApiKey)
      ensures claudeClient.Some? ==> claudeClient.value.apiKey == preferences.claudeApiKey.value
    {
      this.preferences := preferences;
      openaiClient := if Truthy(preferences.openaiApiKey)
        then Some(SdkClient(preferences.openaiApiKey.value)) else None;
      claudeClient := if Truthy(preferences.claudeApiKey)
        then Some(SdkClient(preferences.claudeApiKey.value)) else None;
    }

    /**
     * The call `generate_response` makes, or the error it raises before any
     * call: an unsupported model, or a provider whose client is missing. The
     * prompt and every parameter are passed through unchanged.
     */
    function Request(prompt: string, model: string, maxTokens: int, temperature: Temperature)
      : (r: Result<ProviderCall, string>)
      ensures Route(model).Failure? ==> r == Failure("Unsupported model: " + model)
      ensures Route(model) == Success(OpenAI) ==>
        if openaiClient.None? then r == Failure("OpenAI API key not configured")
        else r == Success(OpenAIChat(model, [Message("user", prompt)], maxTokens, temperature))
      ensures Route(model) == Success(Claude) ==>
        if claudeClient.None? then r == Failure("Claude API key not configured")
        else r == Success(ClaudeMessages(model, maxTokens, temperature, [Message("user", prompt)]))
      ensures Route(model) == Success(Ollama) <==> r.Success? && r.value.OllamaGenerate?
      ensures r.Success? && r.value.OllamaGenerate? ==>
        && r.value.url == preferences.ollamaEndpoint + "/api/generate"
        && r.value.payload == OllamaPayload(model, prompt, false, maxTokens, temperature)
    {
      match Route(model)
      case Failure(e) => Failure(e)
      case Success(OpenAI) =>
        if openaiClient.None? then Failure("OpenAI API key not configured")
        else Success(OpenAIChat(model, [Message("user", prompt)], maxTokens, temperature))
      case Success(Claude) =>
        if claudeClient.None? then Failure("Claude API key not configured")
        else Success(ClaudeMessages(model, maxTokens, temperature, [Message("user", prompt)]))
      case Success(Ollama) =>
        Success(OllamaGenerate(preferences.ollamaEndpoint + "/api/generate",
          OllamaPayload(model, prompt, false, maxTokens, temperature)))
    }

    /**
     * `generate_response`: the provider's text, or the error raised. Failures
     * inside a provider call are wrapped as "<Provider> API error: ...", and a
     * non-200 Ollama status is such a failure; errors raised before the call
     * (unsupported model, missing key) are not wrapped.
     */
    function GenerateResponse(prompt: string, model: string, maxTokens: int,
                              temperature: Temperature, upstream: Upstream)
      : (r: Result<Option<string>, string>)
      ensures Request(prompt, model, maxTokens, temperature).Failure? ==>
        r == Failure(Request(prompt, model, maxTokens, temperature).error)
      ensures Route(model) == Success(OpenAI) && openaiClient.Some? ==>
        r == if upstream.sdk.Success? then Success(upstream.sdk.value)
             else Failure("OpenAI API error: " + upstream.sdk.error)
      ensures Route(model) == Success(Claude) && claudeClient.Some? ==>
        r == if upstream.sdk.Success? then Success(upstream.sdk.value)
             else Failure("Claude API error: " + upstream.sdk.error)
      ensures Route(model) == Success(Ollama) ==>
        match upstream.http
        case HttpReply(status, field) =>
          if status == 200 then
            && (field.Absent? ==> r == Success(Some("")))
            && (field.Null? ==> r == Success(None))
            && (field.Text? ==> r == Success(Some(field.text)))
          else r == Failure("Ollama API error: " + ("Ollama API returned status " + NatToString(status)))
        case HttpError(e) => r == Failure("Ollama API error: " + e)
    {
      match Request(prompt, model, maxTokens, temperature)
      case Failure(e) => Failure(e)
      case Success(call) => Answer(call, upstream)
    }
  }

  /** The prefix a provider's own failures are wrapped with. */
  function ErrorPrefix(call: ProviderCall): string {
    match call
    case OpenAIChat(_, _, _, _) => "OpenAI API error: "
    case ClaudeMessages(_, _, _, _) => "Claude API error: "
    case OllamaGenerate(_, _) => "Ollama API error: "
  }

  /**
   * How a provider's answer to a call becomes the client's result. An SDK
   * call gives the SDK's text or fails; the Ollama call succeeds exactly on
   * status 200. Every failure inside a provider call carries that provider's
   * prefix; what follows it is the SDK's message or, for Ollama, the
   * transport message or the status line.
   */
  function Answer(call: ProviderCall, upstream: Upstream): (r: Result<Option<string>, string>)
    ensures !call.OllamaGenerate? ==>
      r.Success? == upstream.sdk.Success? && (r.Success? ==> r.value == upstream.sdk.value)
    ensures call.OllamaGenerate? ==>
      (r.Success? <==> upstream.http.HttpReply? && upstream.http.status == 200)
    ensures call.OllamaGenerate? && r.Success? ==> r.value == FieldText(upstream.http.response)
    ensures r.Failure? ==> StartsWith(r.error, ErrorPrefix(call))
  {
    var prefix := ErrorPrefix(call);
    if call.OllamaGenerate? then
      match upstream.http
      case HttpReply(status, field) =>
        if status == 200 then Success(FieldText(field))
        else
          var line := "Ollama API returned status " + NatToString(status);
          PrefixStartsConcat(prefix, line);
          Failure(prefix + line)
      case HttpError(e) =>
        PrefixStartsConcat(prefix, e);
        Failure(prefix + e)
    else
      match upstream.sdk
      case Success(text) => Success(text)
      case Failure(e) =>
        PrefixStartsConcat(prefix, e);
        Failure(prefix + e)
  }

  lemma PrefixStartsConcat(p: string, tail: string)
    ensures StartsWith(p + tail, p)
  {
    assert (p + tail)[..|p|] == p;
  }
}
