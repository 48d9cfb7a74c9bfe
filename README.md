# AI Toolkit core, modelled in Dafny

This project models the request-handling core of the AI Toolkit, with proofs.
The toolkit has two halves:

- a FastAPI backend. It holds the user's LLM preferences, builds an `LLMClient` from them, and sends prompts through a `PromptPipeline`. The pipeline dispatches to a simple agent or a chain-of-thought agent, and it keeps a bounded request history.
- an Express/Mongoose service. It stores prompt records and serves a mock prompt endpoint.

The modules follow the source files:

| module | file | source |
|---|---|---|
| `Wrappers` | wrappers.dfy | `Option` and `Result` |
| `Text` | text.dfy | Python's `str.strip` and JavaScript's `String.prototype.trim` white-space sets, ASCII `lower()`, `str.split`, decimal rendering |
| `Settings` | settings.dfy | `PreferencesModel`, start-up from the environment, key masking, the falsy fallback of request parameters, the `.env` text |
| `LlmClient` | llm_client.dfy | `LLMClient`: model routing, SDK clients, the request per provider, error wrapping |
| `SimpleAgent` | simple_agent.dfy | `SimpleAgent.process_prompt` |
| `ChainOfThought` | chain_of_thought.dfy | `ChainOfThoughtAgent`: the reasoning prompt and `_parse_response` (the loop as a method, proved equal to a fold of one `Step` per line) |
| `PromptPipeline` | prompt_pipeline.dfy | class `Pipeline`: `process_request`, `_log_request`, `get_history` |
| `Server` | server.dfy | class `Server`: the module globals and the handlers of `server.py` |
| `PromptModel` | prompt_model.dfy | the Mongoose `Prompt` schema: required paths, trim setters, defaults, the pre-save hook |
| `PromptRoutes` | prompt_routes.dfy | class `PromptRouter`: the CRUD router of `services/prompt.js` over a map of records |
| `MockApi` | mock_api.dfy | the mock `POST /simple-prompt` route |

The outside world enters as parameters:

- what an LLM provider answers (`LlmClient.Upstream`);
- the ISO time stamp of a request;
- the start-up environment;
- whether the database is reachable (`storeUp`);
- the id the database gives a new record.

`Date.now()` is a clock field of the router that advances by one at each reading.

Behaviour a reader might not expect:

- `GET /:id` with a malformed id answers 500. It does not answer 400, because that route does not catch `CastError`.
- A record that fails Mongoose validation on save answers 500, not a validation error.
- Environment keys are read only at start-up. They do not override preferences posted later.
- `max_tokens` and `temperature` are not range-checked.

## Model

| member | source | states |
|---|---|---|
| Text.Strip | backend/core/agents/chain_of_thought_agent.py:50 | the result has no white space at either end and is the infix of the input that starts after its leading white space |
| Text.StripRemovesOnlySpace | backend/core/agents/simple_agent.py:21 | `strip` removes exactly the leading and trailing white space: the result is stripped, it is the infix of the input after the leading space, everything after it is white space, and it is empty exactly when the input is all white space |
| Text.StripOfUnique | backend/core/agents/simple_agent.py:21 | a string that is the input with only its leading and trailing white space removed, and stripped itself, is `strip` of the input |
| Text.StripEmptyIffAllSpace | backend/core/agents/chain_of_thought_agent.py:50-52 | a line strips to the empty string exactly when all its characters are white space |
| Text.StripStripped | backend/core/agents/chain_of_thought_agent.py:81 | stripping a stripped string changes nothing |
| Text.Lower | backend/core/agents/chain_of_thought_agent.py:55 | `lower()` keeps the length and lowers each character |
| Text.Split | backend/core/agents/chain_of_thought_agent.py:42 | `split` always yields at least one piece; with `JoinSplit`, `SplitPiecesLackSeparator` and `SplitIsLeftmost` it is the unique leftmost cutting (`SplitUnique`) |
| Text.SplitPiecesLackSeparator | backend/core/agents/chain_of_thought_agent.py:42 | no piece of a split contains the separator |
| Text.JoinSplit | backend/core/agents/chain_of_thought_agent.py:77 | joining the pieces with the separator gives back the text |
| Text.SplitIsLeftmost | backend/core/agents/chain_of_thought_agent.py:77 | each cut is at the leftmost occurrence: no piece but the last, followed by all but the last character of the separator, contains the separator |
| Text.SplitUnique | backend/core/agents/chain_of_thought_agent.py:77 | the split is the only cutting that joins back to the text, has no piece containing the separator and cuts leftmost |
| Text.SplitAtFirstPiece | backend/core/agents/chain_of_thought_agent.py:42 | a piece that holds no occurrence of the separator, even one running into the separator after it, is cut off first |
| Text.DigitsValueOfNatToString | backend/core/pipelines/prompt_pipeline.py:15 | the decimal rendering of a count reads back as that count |
| Text.NatToStringInjective | backend/core/pipelines/prompt_pipeline.py:15 | different counts render differently |
| Settings.FromEnvironment | backend/core/server.py:71-78 | keys are taken as found; every other setting falls back to its default exactly when its variable is unset |
| Settings.MaskKey | backend/core/server.py:99-102 | a truthy key becomes `***` plus at most its last four characters; an absent or empty key is returned as is |
| Settings.MaskedKeyRevealsAtMostFour | backend/core/server.py:100 | every shown character of a masked key is the matching character of the key's last four |
| Settings.SafePreferences | backend/core/server.py:94-103 | both keys masked; endpoint, model, token limit and temperature unchanged |
| Settings.ResolveModel | backend/core/server.py:140 | the requested model when truthy, otherwise the default model |
| Settings.ResolveMaxTokens | backend/core/server.py:141 | the requested limit unless it is absent or 0, otherwise the preference |
| Settings.ResolveTemperature | backend/core/server.py:142 | the requested temperature unless it is absent or 0.0, so a request cannot ask for 0 |
| Settings.EnvLines | backend/core/server.py:114-120 | six lines in fixed key order, each its key followed by the value: the OpenAI and Claude keys (empty when absent), the endpoint, the model, the printed token limit and the printed temperature |
| Settings.SplitLines | backend/core/server.py:114-120 | newline-free lines, each ended by a newline, split back into those lines plus an empty tail |
| Settings.EnvTextReadsBack | backend/core/server.py:114-120 | the `.env` text reads back as exactly its six `KEY=value` lines |
| LlmClient.Route | backend/core/models/llm_client.py:25-32 | `gpt*` goes to OpenAI and `claude*` to Claude, in that order of precedence; the four local names go to Ollama; anything else fails with "Unsupported model: ..." |
| LlmClient.AdvertisedModelsRoute | backend/core/server.py:181-188 | every model `GET /models` lists is routed to the provider it is listed under |
| LlmClient.Client.constructor | backend/core/models/llm_client.py:11-20 | an SDK client exists exactly when its key is truthy, and it holds that key |
| LlmClient.Client.Request | backend/core/models/llm_client.py:22-91 | a missing client is an error before any call; otherwise the call carries the prompt and parameters unchanged, and Ollama is posted to `<endpoint>/api/generate` with `stream: false` |
| LlmClient.Client.GenerateResponse | backend/core/models/llm_client.py:34-91 | the provider's text, which may be `None`; an SDK failure is wrapped "OpenAI API error: " or "Claude API error: "; on 200 Ollama gives `response`, `""` when the field is absent and `None` when it is null; any other status is "Ollama API error: Ollama API returned status <n>", and a transport failure is wrapped "Ollama API error: " |
| LlmClient.Answer | backend/core/models/llm_client.py:34-91 | an SDK call succeeds exactly when the SDK does, with its text; an Ollama call succeeds exactly on a 200 reply, with the text its `response` field yields; every failure starts with that provider's prefix |
| SimpleAgent.EnhancedPrompt | backend/core/agents/simple_agent.py:8-12 | the template holds the prompt verbatim between the fixed preamble and `Response:` |
| SimpleAgent.UserPromptOfEnhanced | backend/core/agents/simple_agent.py:8-12 | the prompt can be read back out of the template |
| SimpleAgent.EnhancedPromptInjective | backend/core/agents/simple_agent.py:8-12 | different prompts give different request texts |
| SimpleAgent.SentCallCarriesParameters | backend/core/agents/simple_agent.py:14-19 | the call sent carries the template and the model, token limit and temperature as given |
| SimpleAgent.ProcessPrompt | backend/core/agents/simple_agent.py:5-21 | the client's error unchanged; for a `None` text the `AttributeError` of `None.strip`; otherwise the reply with exactly its leading and trailing Python white space removed |
| ChainOfThought.OccursFromIsContains | backend/core/agents/chain_of_thought_agent.py:55 | the keyword search from a position finds a word exactly when it occurs there or later |
| ChainOfThought.OccursIsContains | backend/core/agents/chain_of_thought_agent.py:55 | `word in line` is substring containment |
| ChainOfThought.MentionsIsContains | backend/core/agents/chain_of_thought_agent.py:55-61 | `any(word in line.lower() for word in words)`: the test holds exactly when some word is contained in the lower-cased line |
| ChainOfThought.LeadingDigits | backend/core/agents/chain_of_thought_agent.py:55 | the count of leading digits: all of them are digits and the next character, if any, is not |
| ChainOfThought.Classify | backend/core/agents/chain_of_thought_agent.py:50-69 | a line is blank exactly when it strips to nothing |
| ChainOfThought.Step | backend/core/agents/chain_of_thought_agent.py:49-69 | one pass of the loop adds at most the pending step, leaves the state alone on a blank line, and never leaves the conclusion |
| ChainOfThought.RunFrom | backend/core/agents/chain_of_thought_agent.py:49-69 | steps are only appended, so those found so far stay at the front, and the conclusion is never left |
| ChainOfThought.FinalSteps | backend/core/agents/chain_of_thought_agent.py:71-73 | the pending step is added after the loop exactly when the conclusion was not reached |
| ChainOfThought.Paragraphs | backend/core/agents/chain_of_thought_agent.py:77 | every paragraph kept is non-empty and stripped |
| ChainOfThought.NumberedLineIsStep | backend/core/agents/chain_of_thought_agent.py:55-60 | whatever else it holds, a numbered line pushes the pending step and becomes the pending one; the conclusion is neither entered nor left |
| ChainOfThought.Parse | backend/core/agents/chain_of_thought_agent.py:40-81 | the definition the loop is proved against; what it promises is stated by `ParseIsStripped`, `BlankLinesIgnored`, `LeadingPlainLinesDropped` and `ConclusionCollectsPlainLines`: when the line pass yields steps, those steps and the stripped answer; otherwise every paragraph but the last as steps and the last as answer, with the placeholders |
| ChainOfThought.Fallback | backend/core/agents/chain_of_thought_agent.py:76-79 | paragraphs but the last as steps ("Analyzing the problem..." with fewer than two); the last as answer ("Analysis complete." with none) |
| ChainOfThought.ParseIsStripped | backend/core/agents/chain_of_thought_agent.py:40-81 | whatever the text, there is at least one step, and every step and the answer are stripped |
| ChainOfThought.FallbackIsStripped | backend/core/agents/chain_of_thought_agent.py:77-79 | the fallback's steps and answer are stripped |
| ChainOfThought.StepsAreStripped | backend/core/agents/chain_of_thought_agent.py:58-73 | every step the loop records is stripped |
| ChainOfThought.ParseResponse | backend/core/agents/chain_of_thought_agent.py:40-81 | the loop, the last-step push, the fallback and the final strip compute `Parse` |
| ChainOfThought.BlankLinesIgnored | backend/core/agents/chain_of_thought_agent.py:51-52 | removing the blank lines does not change the loop's outcome |
| ChainOfThought.LeadingPlainLinesDropped | backend/core/agents/chain_of_thought_agent.py:68-69 | before any step or conclusion, plain and blank lines leave the start state unchanged |
| ChainOfThought.PlainLineInConclusion | backend/core/agents/chain_of_thought_agent.py:66-67 | in the conclusion a plain line is appended after one space and a blank line is skipped |
| ChainOfThought.ConclusionCollectsPlainLines | backend/core/agents/chain_of_thought_agent.py:66-73 | after the conclusion, plain lines build the answer with single spaces; steps and the pending step stay put, and the pending step is not pushed at the end |
| ChainOfThought.NoConclusionNoAnswer | backend/core/agents/chain_of_thought_agent.py:44-67 | a loop that ends outside the conclusion was never in it, and the answer is what it started as |
| ChainOfThought.AnswerEmptyWithoutConclusion | backend/core/agents/chain_of_thought_agent.py:72-81 | when the lines yield steps but no conclusion, the parsed answer is `""` |
| ChainOfThought.ConclusionLineStep | backend/core/agents/chain_of_thought_agent.py:61-65 | a conclusion line pushes the pending step, enters the conclusion and sets the answer, but keeps the pending step |
| ChainOfThought.StepLineStep | backend/core/agents/chain_of_thought_agent.py:55-60 | a step line pushes the pending step and becomes the pending one |
| ChainOfThought.StaleStepPushedAgain | backend/core/agents/chain_of_thought_agent.py:58-65 | the pending step survives a conclusion line, so a step line after it pushes the same step a second time |
| ChainOfThought.ThinkingPrompt | backend/core/agents/chain_of_thought_agent.py:12-22 | the problem appears verbatim between the fixed instructions |
| ChainOfThought.Solve | backend/core/agents/chain_of_thought_agent.py:9-38 | the client's error unchanged; for a `None` text the `AttributeError` of `None.split`; otherwise the parse of the reply, with at least one step and a stripped answer, and the raw reply as the reasoning process |
| ChainOfThought.ProcessProblem | backend/core/agents/chain_of_thought_agent.py:9-38 | computes `Solve`: one client call with the reasoning prompt, then the parse |
| PromptPipeline.RequestId | backend/core/pipelines/prompt_pipeline.py:15 | the id is the type, `_`, and the decimal history length |
| PromptPipeline.RequestIdInjective | backend/core/pipelines/prompt_pipeline.py:15 | ids of one type coincide only for equal history lengths |
| PromptPipeline.Handle | backend/core/pipelines/prompt_pipeline.py:17-47 | `simple` goes to the simple agent and `chain_of_thought` to the reasoning agent, passing their errors on; any other type fails with "Unknown request type: ..." |
| PromptPipeline.Retained | backend/core/pipelines/prompt_pipeline.py:62-64 | the newest 100 entries of the history, in order |
| PromptPipeline.RetainedKeepsNewest | backend/core/pipelines/prompt_pipeline.py:60-64 | after an append the history stays within 100, the new entry is the last, and the entries before it are the newest of the old ones |
| PromptPipeline.IdsRepeatWhenFull | backend/core/pipelines/prompt_pipeline.py:15-64 | once the history is full its length stays 100, so later requests of one type all get the same id |
| PromptPipeline.EntryFor | backend/core/pipelines/prompt_pipeline.py:49-59 | the entry carries the id, the request type, the input, the outcome's output or `{error}`, the success flag and the time stamp |
| PromptPipeline.Pipeline.constructor | backend/core/pipelines/prompt_pipeline.py:7-9 | keeps the client; the history starts empty |
| PromptPipeline.Pipeline.LogRequest | backend/core/pipelines/prompt_pipeline.py:49-64 | the new history is the newest 100 of the old one plus the entry |
| PromptPipeline.Pipeline.ProcessRequest | backend/core/pipelines/prompt_pipeline.py:11-32 | returns `Handle`'s outcome (a failure is re-raised) and logs it, success or not, under the id taken before the call |
| PromptPipeline.Pipeline.GetHistory | backend/core/pipelines/prompt_pipeline.py:66-70 | `history[-limit:]` for a truthy limit, including a negative one; the whole history for none or 0 |
| Server.RequestDataFor | backend/core/server.py:140-149 | the text as given, and each parameter from the falsy fallback |
| Server.Server.constructor | backend/core/server.py:61-63 | default preferences, no client, no pipeline |
| Server.Server.Startup | backend/core/server.py:66-81 | preferences from the environment; a new client and a pipeline with an empty history |
| Server.Server.UpdatePreferences | backend/core/server.py:106-130 | the new preferences are stored, the `.env` text is written, and a new client and pipeline replace the old ones, so the history restarts empty |
| Server.Server.Prompt | backend/core/server.py:133-178 | 500 "Pipeline not initialized" without a pipeline; otherwise the pipeline's output, or 500 with its message, and the request is logged |
| Server.Server.SimplePrompt | backend/core/server.py:133-154 | with a pipeline, the reply is the pipeline's `"simple"` outcome: 200 with a simple reply on success, else 500 with the error; without one, 500 "Pipeline not initialized" |
| Server.Server.ChainOfThoughtPrompt | backend/core/server.py:157-178 | with a pipeline, the reply is the pipeline's `"chain_of_thought"` outcome: 200 with at least one step on success, else 500 with the error; without one, 500 "Pipeline not initialized" |
| Server.Server.History | backend/core/server.py:191-196 | with a pipeline, the last `min(len, 50)` entries, in order; none without a pipeline |
| PromptModel.TrimField | frontend/src/support/models/Prompt.js:4-28 | an absent value stays absent; a present one is stored with exactly its leading and trailing JavaScript white space removed |
| PromptModel.TrimFieldKeepsTrimmed | frontend/src/support/models/Prompt.js:4-28 | a value without white space at either end is stored unchanged |
| PromptModel.TrimFieldIdempotent | frontend/src/support/models/Prompt.js:4-28 | trimming a trimmed value changes nothing |
| PromptModel.Trimmed | frontend/src/support/models/Prompt.js:3-36 | the six trimmed paths are trimmed; `combinedPrompt` and `response` are kept as given |
| PromptModel.Cast | frontend/src/support/models/Prompt.js:33-36 | the setters apply, and `response` defaults to `''` |
| PromptModel.TrimmedIdempotent | frontend/src/support/models/Prompt.js:4-28 | setting trimmed values again changes nothing |
| PromptModel.ValidationError | frontend/src/support/models/Prompt.js:4-32 | validation passes exactly when `title` and `combinedPrompt` are non-empty |
| PromptModel.ValidationFailsOnlyForBlankTitle | frontend/src/services/prompt.js:20-37 | a body the router accepts fails validation exactly when its title is all white space |
| PromptModel.PromptDocument.constructor | frontend/src/support/models/Prompt.js:37-44 | cast fields; both time stamps the current time |
| PromptModel.PromptDocument.PreSave | frontend/src/support/models/Prompt.js:48-51 | `updatedAt` becomes now; nothing else changes |
| PromptRoutes.NewestExists | frontend/src/services/prompt.js:55-56 | a non-empty set of records has a newest one |
| PromptRoutes.TakeNewest | frontend/src/services/prompt.js:55-57 | listing the newest remaining record keeps the selection newest-first and complete |
| PromptRoutes.SelectionDone | frontend/src/services/prompt.js:55-57 | a selection with 50 records, or with none left, is the listing |
| PromptRoutes.PromptRouter.constructor | frontend/src/services/prompt.js:1-3 | an empty collection |
| PromptRoutes.PromptRouter.Now | frontend/src/support/models/Prompt.js:37-51 | the clock advances and its new value is read |
| PromptRoutes.PromptRouter.Save | frontend/src/services/prompt.js:6-50 | 400 for a missing title or combined prompt; 500 for failed validation, a down store or a taken id; otherwise 201 with the stored record, which a later get finds |
| PromptRoutes.PromptRouter.List | frontend/src/services/prompt.js:53-68 | 500 when the store is down; otherwise up to 50 records, no duplicates, newest first, and none omitted that is newer than one listed |
| PromptRoutes.PromptRouter.Get | frontend/src/services/prompt.js:71-90 | 200 with the record, 404 when absent, 500 for a malformed id or a down store |
| PromptRoutes.PromptRouter.Update | frontend/src/services/prompt.js:93-161 | 400 for an incomplete body, a malformed id, or a validation failure with its message; 500 for a down store; 404 when absent; otherwise all fields replaced, `createdAt` kept and `updatedAt` set to now |
| PromptRoutes.PromptRouter.Delete | frontend/src/services/prompt.js:164-191 | 400 for a malformed id, 500 for a down store, 404 when absent; otherwise the record is returned and removed, and a later get gives 404 |
| MockApi.MockResponse | frontend/src/support/routes/api.js:13 | the fixed lead-in, the prompt's first 50 characters at most, and `..."` even when nothing was cut |
| MockApi.QuotedPartRecoversShortPrompt | frontend/src/support/routes/api.js:13 | a prompt of up to 50 characters is quoted whole; a longer one is cut to its first 50 |
| MockApi.MockResponseSeesOnlyFifty | frontend/src/support/routes/api.js:13 | two prompts sharing their first 50 characters get the same reply |
| MockApi.SimplePromptRoute | frontend/src/support/routes/api.js:5-26 | `{data: {response}}` for a string prompt; 500 "Failed to process prompt" when it is missing |

## Left out

- Network I/O, the OpenAI, Anthropic and Ollama SDKs, `aiohttp`, and `async` scheduling are left out. A provider's answer to the one call a request makes is an input.
- The `.env` file write and `os.makedirs` are left out. `UpdatePreferences` returns the text it would write.
- Floating point is left out. A temperature is a `real`, and its printed form in the `.env` text is an input string.
- `int()` and `float()` parsing of environment variables is left out. The environment arrives already converted, so a malformed variable's start-up crash is not modelled.
- `datetime.now().isoformat()` is an input string. `Date.now()` is a logical clock that advances by one at each reading.
- `Text.Lower` and the step test's `\d` cover ASCII only. Python's full Unicode case mapping and Unicode digits are not modelled.
- An ObjectId is a 24-character hexadecimal string. Mongoose's other castable forms, such as 12-byte strings, are not modelled.
- A Mongoose update with an absent field is modelled as clearing it. Mongoose's omission of `undefined` keys from an update is not modelled.
- The schema's two `Date.now` defaults are one reading in the model, so `createdAt` equals `updatedAt` before the pre-save hook.
- Request-body values are strings or absent. Non-string JSON values and the cast errors they would raise are left out.
- The router's `console.error` logging is left out.
- MockApi.MockResponse: quotes the first 50 Unicode scalar values of the prompt. JavaScript's `substring` counts UTF-16 code units, so a prompt with characters outside the Basic Multilingual Plane is quoted further than in the source.
- `GET /`, `GET /health` and `GET /models` are constant replies. Only the model lists of `/models` are modelled, in `LlmClient.AdvertisedModelsRoute`.
- `services/api.js`, the React components, the hooks and the CLI are not part of this model. They hold no prompt composer and no session controller; neither is in any file of the program.
- `support/server.js` mounts a `./routes/prompts` module that is not part of this model. The CRUD router is modelled as written in `services/prompt.js`.
- CORS and the HTTP framing of FastAPI and Express are left out. Replies are a status with a body value.
- Server.Server.GetPreferences: states no contract of its own. It delegates to `Settings.SafePreferences`, which carries the masking contract.
