/**
 * `PromptPipeline`: dispatches a request to the simple or the chain-of-thought
 * agent, logs every request (successful or not) in a history bounded to the
 * last 100 entries, and serves slices of that history.
 */
module PromptPipeline {
  import opened Wrappers
  import opened Text
  import opened Settings
  import LlmClient
  import SimpleAgent
  import ChainOfThought

  /** The most entries the history keeps. */
  const MaxHistory: nat := 100

  /** The request data the server passes on: the prompt (for `simple`) or the
      problem (for `chain_of_thought`), with the resolved parameters. */
  datatype RequestData = RequestData(text: string, model: string, maxTokens: int, temperature: Temperature)

  /** What a request produced: the simple agent's text, the chain-of-thought
      result, or, for a failed request, the error message. */
  datatype Output =
    | SimpleOutput(response: string)
    | ReasoningOutput(reasoning: ChainOfThought.Reasoning)
    | ErrorOutput(error: string)

  datatype LogEntry = LogEntry(
    id: string, requestType: string, timestamp: string, input: RequestData, output: Output, success: bool)

  /** The request id: the type, an underscore and the history length. */
  function RequestId(requestType: string, count: nat): (id: string)
    ensures StartsWith(id, requestType + "_")
    ensures id[|requestType| + 1..] == NatToString(count)
  {
    requestType + "_" + NatToString(count)
  }

  /** Ids of one type differ as long as the history length differs. */
  lemma RequestIdInjective(requestType: string, m: nat, n: nat)
    requires RequestId(requestType, m) == RequestId(requestType, n)
    ensures m == n
  {
    assert NatToString(m) == RequestId(requestType, m)[|requestType| + 1..];
    NatToStringInjective(m, n);
  }

  /**
   * What the agents make of a request: `simple` and `chain_of_thought` go to
   * their agent, any other type is an error; the error of a failing agent is
   * passed on as its message.
   */
  function Handle(client: LlmClient.Client, requestType: string, data: RequestData,
                  upstream: LlmClient.Upstream): (r: Result<Output, string>)
    ensures requestType != "simple" && requestType != "chain_of_thought" ==>
      r == Failure("Unknown request type: " + requestType)
    ensures requestType == "simple" ==>
      var reply := SimpleAgent.ProcessPrompt(client, data.text, data.model, data.maxTokens, data.temperature, upstream);
      r == if reply.Success? then Success(SimpleOutput(reply.value)) else Failure(reply.error)
    ensures requestType == "chain_of_thought" ==>
      var reply := ChainOfThought.Solve(client, data.text, data.model, data.maxTokens, data.temperature, upstream);
      r == if reply.Success? then Success(ReasoningOutput(reply.value)) else Failure(reply.error)
    ensures r.Success? ==> !r.value.ErrorOutput?
  {
    if requestType == "simple" then
      match SimpleAgent.ProcessPrompt(client, data.text, data.model, data.maxTokens, data.temperature, upstream)
      case Success(text) => Success(SimpleOutput(text))
      case Failure(e) => Failure(e)
    else if requestType == "chain_of_thought" then
      match ChainOfThought.Solve(client, data.text, data.model, data.maxTokens, data.temperature, upstream)
      case Success(reasoning) => Success(ReasoningOutput(reasoning))
      case Failure(e) => Failure(e)
    else Failure("Unknown request type: " + requestType)
  }

  /** The history after an append: the last 100 entries. */
  function Retained(h: seq<LogEntry>): (r: seq<LogEntry>)
    ensures |r| == if |h| > MaxHistory then MaxHistory else |h|
    ensures r == h[|h| - |r|..]
  {
    if |h| > MaxHistory then h[|h| - MaxHistory..] else h
  }

  /** Appending to a history within the bound keeps it within the bound, and the
      appended entry is the newest one kept. */
  lemma RetainedKeepsNewest(h: seq<LogEntry>, e: LogEntry)
    requires |h| <= MaxHistory
    ensures var r := Retained(h + [e]);
      |r| <= MaxHistory && r[|r| - 1] == e && r[..|r| - 1] == h[|h| + 1 - |r|..]
  {
    var r := Retained(h + [e]);
    assert r == (h + [e])[|h| + 1 - |r|..];
  }

  /** Once the history is full its length stays 100, so every later request of
      a type gets the same id: ids are unique only among the first 100. */
  lemma IdsRepeatWhenFull(h: seq<LogEntry>, e: LogEntry, requestType: string)
    requires |h| == MaxHistory
    ensures RequestId(requestType, |Retained(h + [e])|) == RequestId(requestType, |h|)
  {
  }

  /** The entry logged for a request and its outcome. */
  function EntryFor(requestType: string, count: nat, timestamp: string, data: RequestData,
                    outcome: Result<Output, string>): (e: LogEntry)
    ensures e.id == RequestId(requestType, count) && e.requestType == requestType && e.timestamp == timestamp
    ensures e.input == data && e.success == outcome.Success?
    ensures outcome.Success? ==> e.output == outcome.value
    ensures outcome.Failure? ==> e.output == ErrorOutput(outcome.error)
  {
    LogEntry(RequestId(requestType, count), requestType, timestamp, data,
             if outcome.Success? then outcome.value else ErrorOutput(outcome.error), outcome.Success?)
  }

  class Pipeline {
    const llmClient: LlmClient.Client
    var history: seq<LogEntry>

    /** The history never holds more than 100 entries. */
    ghost predicate Valid()
      reads this
    {
      |history| <= MaxHistory
    }

    constructor (llmClient: LlmClient.Client)
      ensures this.llmClient == llmClient && history == [] && Valid()
    {
      this.llmClient := llmClient;
      history := [];
    }

    /** `_log_request`: append the entry, then drop the oldest beyond 100. */
    method LogRequest(entry: LogEntry)
      requires Valid()
      modifies this
      ensures Valid()
      ensures history == Retained(old(history) + [entry])
    {
      history := history + [entry];
      if |history| > MaxHistory {
        history := history[|history| - MaxHistory..];
      }
    }

    /**
     * `process_request`: the agents' outcome, returned as is (a failure is
     * re-raised), after logging it under the id made from the type and the
     * history length before the call.
     */
    method ProcessRequest(requestType: string, data: RequestData, timestamp: string,
                          upstream: LlmClient.Upstream)
      returns (r: Result<Output, string>)
      requires Valid()
      modifies this
      ensures Valid()
      ensures r == Handle(llmClient, requestType, data, upstream)
      ensures history == Retained(old(history) + [EntryFor(requestType, |old(history)|, timestamp, data, r)])
    {
      var requestId := RequestId(requestType, |history|);
      if requestType == "simple" {
        var reply := SimpleAgent.ProcessPrompt(llmClient, data.text, data.model, data.maxTokens,
                                               data.temperature, upstream);
        r := if reply.Success? then Success(SimpleOutput(reply.value)) else Failure(reply.error);
      } else if requestType == "chain_of_thought" {
        var reply := ChainOfThought.ProcessProblem(llmClient, data.text, data.model, data.maxTokens,
                                                   data.temperature, upstream);
        r := if reply.Success? then Success(ReasoningOutput(reply.value)) else Failure(reply.error);
      } else {
        r := Failure("Unknown request type: " + requestType);
      }
      if r.Success? {
        LogRequest(LogEntry(requestId, requestType, timestamp, data, r.value, true));
      } else {
        LogRequest(LogEntry(requestId, requestType, timestamp, data, ErrorOutput(r.error), false));
      }
    }

    /** `get_history`: with a truthy `limit`, Python's `history[-limit:]` (the
        newest `limit` entries, or, for a negative limit, all but the oldest
        `-limit`); otherwise the whole history. */
    function GetHistory(limit: Option<int>): (r: seq<LogEntry>)
      reads this
      ensures limit.None? || limit.value == 0 ==> r == history
      ensures limit.Some? && limit.value > 0 ==>
        |r| == (if limit.value < |history| then limit.value else |history|)
      ensures limit.Some? && limit.value < 0 ==>
        |r| == (if -limit.value < |history| then |history| + limit.value else 0)
      ensures r == history[|history| - |r|..]
    {
      if limit.None? || limit.value == 0 then history
      else if limit.value > 0 then
        if limit.value < |history| then history[|history| - limit.value..] else history
      else
        if -limit.value < |history| then history[-limit.value..] else []
    }
  }
}
