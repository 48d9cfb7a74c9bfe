/**
 * `SimpleAgent.process_prompt`: wraps the user's prompt in a fixed template,
 * asks the client, and returns the reply with surrounding white space removed.
 */
module SimpleAgent {
  import opened Wrappers
  import opened Text
  import opened Settings
  import LlmClient

  const Preamble: string :=
    "Please provide a helpful, accurate, and well-structured response to the following:"
  const Head: string := Preamble + "\n\n"
  const Tail: string := "\n\nResponse:"

  /** The template: the preamble, a blank line, the prompt verbatim (not
      trimmed), a blank line and `Response:`. */
  function EnhancedPrompt(prompt: string): (r: string)
    ensures |r| == |Head| + |prompt| + |Tail|
    ensures r[..|Head|] == Head && r[|Head| + |prompt|..] == Tail
    ensures r[|Head|..|Head| + |prompt|] == prompt
  {
    Head + prompt + Tail
  }

  /** The user's prompt read back out of the template. */
  function UserPrompt(enhanced: string): string
    requires |enhanced| >= |Head| + |Tail|
  {
    enhanced[|Head|..|enhanced| - |Tail|]
  }

  /** The template loses nothing: the prompt can be read back out of it, so two
      different prompts never produce the same request text. */
  lemma UserPromptOfEnhanced(prompt: string)
    ensures UserPrompt(EnhancedPrompt(prompt)) == prompt
  {
    var r := EnhancedPrompt(prompt);
    assert |r| - |Tail| == |Head| + |prompt|;
  }

  lemma EnhancedPromptInjective(p: string, q: string)
    requires EnhancedPrompt(p) == EnhancedPrompt(q)
    ensures p == q
  {
    UserPromptOfEnhanced(p);
    UserPromptOfEnhanced(q);
  }

  /** The call the agent has the client make: the template as the prompt and the
      model, token limit and temperature exactly as given. */
  lemma SentCallCarriesParameters(client: LlmClient.Client, prompt: string, model: string,
                                  maxTokens: int, temperature: Temperature)
    ensures var call := client.Request(EnhancedPrompt(prompt), model, maxTokens, temperature);
      call.Success? ==>
        match call.value
        case OpenAIChat(m, msgs, k, t) =>
          m == model && k == maxTokens && t == temperature && msgs == [LlmClient.Message("user", EnhancedPrompt(prompt))]
        case ClaudeMessages(m, k, t, msgs) =>
          m == model && k == maxTokens && t == temperature && msgs == [LlmClient.Message("user", EnhancedPrompt(prompt))]
        case OllamaGenerate(_, payload) =>
          payload.model == model && payload.numPredict == maxTokens && payload.temperature == temperature
          && payload.prompt == EnhancedPrompt(prompt)
  {
  }

  /** What `None.strip()` raises, as `str()` of the exception renders it. */
  const NoneHasNoStrip: string := "'NoneType' object has no attribute 'strip'"

  /**
   * `process_prompt`: the client's reply to the template with its white space
   * removed at both ends and nothing else, or the client's error unchanged. A
   * reply without text (`None`) makes `strip` raise.
   */
  function ProcessPrompt(client: LlmClient.Client, prompt: string, model: string, maxTokens: int,
                         temperature: Temperature, upstream: LlmClient.Upstream)
    : (r: Result<string, string>)
    ensures var reply := client.GenerateResponse(EnhancedPrompt(prompt), model, maxTokens, temperature, upstream);
      && (reply.Failure? ==> r == Failure(reply.error))
      && (reply.Success? && reply.value.None? ==> r == Failure(NoneHasNoStrip))
      && (reply.Success? && reply.value.Some? ==> r.Success? && IsStripOf(r.value, reply.value.value, Python))
  {
    match client.GenerateResponse(EnhancedPrompt(prompt), model, maxTokens, temperature, upstream)
    case Failure(e) => Failure(e)
    case Success(None) => Failure(NoneHasNoStrip)
    case Success(Some(text)) =>
      StripRemovesOnlySpace(text, Python);
      Success(Strip(text, Python))
  }
}
