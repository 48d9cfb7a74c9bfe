/**
 * The FastAPI application's state and handlers: the current preferences, the
 * client and the pipeline built from them, start-up, the preferences
 * endpoints, the two prompt endpoints and `GET /history`.
 */
module Server {
  import opened Wrappers
  import opened Settings
  import LlmClient
  import PromptPipeline

  /** The body of `POST /prompt/simple` or `POST /prompt/chain-of-thought`: the
      prompt or problem and the optional overrides. */
  datatype PromptRequest = PromptRequest(
    text: string, model: Option<string>, maxTokens: Option<int>, temperature: Option<Temperature>)

  /** A handler's answer: the body of a 200 reply, or an `HTTPException`. */
  datatype Reply = Ok(output: PromptPipeline.Output) | HttpException(status: nat, detail: string)

  /** The records `GET /history` returns at most. */
  const HistoryLimit: int := 50

  /** The data passed to the pipeline: the text, with each override that is
      absent or falsy replaced by the preference. */
  function RequestDataFor(req: PromptRequest, p: Preferences): (d: PromptPipeline.RequestData)
    ensures d.text == req.text
    ensures d.model == ResolveModel(req.model, p)
    ensures d.maxTokens == ResolveMaxTokens(req.maxTokens, p)
    ensures d.temperature == ResolveTemperature(req.temperature, p)
  {
    PromptPipeline.RequestData(req.text, ResolveModel(req.model, p), ResolveMaxTokens(req.maxTokens, p),
                               ResolveTemperature(req.temperature, p))
  }

  class Server {
    var currentPreferences: Preferences
    var llmClient: LlmClient.Client?
    var pipeline: PromptPipeline.Pipeline?

    /** The pipeline, when there is one, has a bounded history and uses the
        client built from the current preferences. */
    ghost predicate Valid()
      reads this, pipeline
    {
      pipeline != null ==>
        && pipeline.Valid()
        && llmClient != null
        && pipeline.llmClient == llmClient
        && llmClient.preferences == currentPreferences
    }

    /** The module's globals before start-up: default preferences, no client and
        no pipeline. */
    constructor ()
      ensures currentPreferences == Defaults && llmClient == null && pipeline == null
      ensures Valid()
    {
      currentPreferences := Defaults;
      llmClient := null;
      pipeline := null;
    }

    /** `startup_event`: preferences from the environment, and a new client and
        pipeline (with an empty history) built from them. */
    method Startup(env: Environment)
      modifies this
      ensures currentPreferences == FromEnvironment(env)
      ensures llmClient != null && fresh(llmClient) && llmClient.preferences == currentPreferences
      ensures pipeline != null && fresh(pipeline) && pipeline.history == []
      ensures Valid()
    {
      currentPreferences := FromEnvironment(env);
      llmClient := new LlmClient.Client(currentPreferences);
      pipeline := new PromptPipeline.Pipeline(llmClient);
    }

    /** `GET /preferences`: the stored preferences with both keys masked. */
    function GetPreferences(): Preferences
      reads this
    {
      SafePreferences(currentPreferences)
    }

    /**
     * `POST /preferences`: store the new preferences, return the `.env` text
     * written, and replace the client and the pipeline with new ones built from
     * the new preferences, so the request history starts over empty.
     */
    method UpdatePreferences(prefs: Preferences, temperatureText: string)
      returns (envText: string, message: string)
      modifies this
      ensures currentPreferences == prefs
      ensures envText == EnvText(prefs, temperatureText)
      ensures message == "Preferences updated successfully"
      ensures llmClient != null && fresh(llmClient) && llmClient.preferences == prefs
      ensures pipeline != null && fresh(pipeline) && pipeline.history == []
      ensures Valid()
    {
      currentPreferences := prefs;
      envText := EnvText(prefs, temperatureText);
      llmClient := new LlmClient.Client(currentPreferences);
      pipeline := new PromptPipeline.Pipeline(llmClient);
      message := "Preferences updated successfully";
    }

    /** A prompt endpoint: 500 "Pipeline not initialized" without a pipeline;
        otherwise the pipeline's output, or 500 with its error message. */
    method Prompt(requestType: string, req: PromptRequest, timestamp: string, upstream: LlmClient.Upstream)
      returns (reply: Reply)
      requires Valid()
      modifies pipeline
      ensures Valid()
      ensures old(pipeline) == null ==> reply == HttpException(500, "Pipeline not initialized")
      ensures pipeline != null ==>
        var data := RequestDataFor(req, currentPreferences);
        var r := PromptPipeline.Handle(llmClient, requestType, data, upstream);
        && reply == (if r.Success? then Ok(r.value) else HttpException(500, r.error))
        && pipeline.history == PromptPipeline.Retained(old(pipeline.history)
             + [PromptPipeline.EntryFor(requestType, |old(pipeline.history)|, timestamp, data, r)])
    {
      if pipeline == null {
        reply := HttpException(500, "Pipeline not initialized");
      } else {
        var data := RequestDataFor(req, currentPreferences);
        var r := pipeline.ProcessRequest(requestType, data, timestamp, upstream);
        reply := if r.Success? then Ok(r.value) else HttpException(500, r.error);
      }
    }

    /** `POST /prompt/simple`: `Prompt` with the type `simple`; a success is
        the simple agent's reply. */
    method SimplePrompt(req: PromptRequest, timestamp: string, upstream: LlmClient.Upstream)
      returns (reply: Reply)
      requires Valid()
      modifies pipeline
      ensures Valid()
      ensures old(pipeline) == null ==> reply == HttpException(500, "Pipeline not initialized")
      ensures pipeline != null ==>
        var data := RequestDataFor(req, currentPreferences);
        var r := PromptPipeline.Handle(llmClient, "simple", data, upstream);
        && reply == (if r.Success? then Ok(r.value) else HttpException(500, r.error))
        && pipeline.history == PromptPipeline.Retained(old(pipeline.history)
             + [PromptPipeline.EntryFor("simple", |old(pipeline.history)|, timestamp, data, r)])
      ensures pipeline != null && reply.Ok? ==> reply.output.SimpleOutput?
    {
      reply := Prompt("simple", req, timestamp, upstream);
    }

    /** `POST /prompt/chain-of-thought`: `Prompt` with the type
        `chain_of_thought`; a success holds at least one step. */
    method ChainOfThoughtPrompt(req: PromptRequest, timestamp: string, upstream: LlmClient.Upstream)
      returns (reply: Reply)
      requires Valid()
      modifies pipeline
      ensures Valid()
      ensures old(pipeline) == null ==> reply == HttpException(500, "Pipeline not initialized")
      ensures pipeline != null ==>
        var data := RequestDataFor(req, currentPreferences);
        var r := PromptPipeline.Handle(llmClient, "chain_of_thought", data, upstream);
        && reply == (if r.Success? then Ok(r.value) else HttpException(500, r.error))
        && pipeline.history == PromptPipeline.Retained(old(pipeline.history)
             + [PromptPipeline.EntryFor("chain_of_thought", |old(pipeline.history)|, timestamp, data, r)])
      ensures pipeline != null && reply.Ok? ==>
        reply.output.ReasoningOutput? && |reply.output.reasoning.steps| > 0
    {
      reply := Prompt("chain_of_thought", req, timestamp, upstream);
    }

    /** `GET /history`: the newest 50 entries, or none without a pipeline. */
    function History(): (r: seq<PromptPipeline.LogEntry>)
      reads this, pipeline
      ensures pipeline == null ==> r == []
      ensures pipeline != null ==>
        && |r| == (if |pipeline.history| < HistoryLimit then |pipeline.history| else HistoryLimit)
        && r == pipeline.history[|pipeline.history| - |r|..]
    {
      if pipeline != null then pipeline.GetHistory(Some(HistoryLimit)) else []
    }
  }
}
