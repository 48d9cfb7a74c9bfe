/**
 * The server's preferences record (`PreferencesModel`): its defaults, the
 * start-up values read from the environment, the masked view `GET
 * /preferences` returns, the `.env` text `POST /preferences` writes, and the
 * falsy-fallback that fills a prompt request's optional parameters.
 */
module Settings {
  import opened Wrappers
  import opened Text

  /** Sampling temperature. Only whether it is zero matters to the model. */
  type Temperature = real

  datatype Preferences = Preferences(
    openaiApiKey: Option<string>,
    claudeApiKey: Option<string>,
    ollamaEndpoint: string,
    defaultModel: string,
    maxTokens: int,
    temperature: Temperature)

  /** The field defaults of `PreferencesModel`. */
  const Defaults: Preferences :=
    Preferences(None, None, "http://localhost:11434", "gpt-3.5-turbo", 2048, 0.7)

  /** Python truthiness of an optional string: present and non-empty. */
  predicate Truthy(s: Option<string>) {
    s.Some? && s.value != ""
  }

  /** The environment variables read at start-up, after `int`/`float` conversion;
      `None` is an unset variable. */
  datatype Environment = Environment(
    openaiApiKey: Option<string>,
    claudeApiKey: Option<string>,
    ollamaEndpoint: Option<string>,
    defaultModel: Option<string>,
    maxTokens: Option<int>,
    temperature: Option<Temperature>)

  /** The preferences built at start-up: a key is taken as found (possibly unset);
      every other variable falls back to its default only when it is unset. */
  function FromEnvironment(env: Environment): (p: Preferences)
    ensures p.openaiApiKey == env.openaiApiKey && p.claudeApiKey == env.claudeApiKey
    ensures env.ollamaEndpoint.None? ==> p.ollamaEndpoint == Defaults.ollamaEndpoint
    ensures env.ollamaEndpoint.Some? ==> p.ollamaEndpoint == env.ollamaEndpoint.value
    ensures env.defaultModel.None? ==> p.defaultModel == Defaults.defaultModel
    ensures env.defaultModel.Some? ==> p.defaultModel == env.defaultModel.value
    ensures env.maxTokens.None? ==> p.maxTokens == 2048
    ensures env.maxTokens.Some? ==> p.maxTokens == env.maxTokens.value
    ensures env.temperature.None? ==> p.temperature == 0.7
    ensures env.temperature.Some? ==> p.temperature == env.temperature.value
  {
    Preferences(
      env.openaiApiKey,
      env.claudeApiKey,
      env.ollamaEndpoint.GetOr(Defaults.ollamaEndpoint),
      env.defaultModel.GetOr(Defaults.defaultModel),
      env.maxTokens.GetOr(Defaults.maxTokens),
      env.temperature.GetOr(Defaults.temperature))
  }

  /** Python's `s[-4:]`: the last four characters, or all of them. */
  function LastFour(s: string): (r: string)
    ensures |r| == if |s| < 4 then |s| else 4
    ensures r == s[|s| - |r|..]
  {
    if |s| <= 4 then s else s[|s| - 4..]
  }

  /** How `GET /preferences` reports a key: a truthy key becomes `***` followed by
      at most its last four characters; a missing or empty key is reported as is. */
  function MaskKey(key: Option<string>): (r: Option<string>)
    ensures !Truthy(key) ==> r == key
    ensures Truthy(key) ==> r.Some? && 3 < |r.value| <= 7 && r.value[..3] == "***"
    ensures Truthy(key) ==>
      var shown := r.value[3..];
      |shown| == (if |key.value| < 4 then |key.value| else 4)
      && shown == key.value[|key.value| - |shown|..]
  {
    if Truthy(key) then Some("***" + LastFour(key.value)) else key
  }

  /** A masked key gives away at most four characters of the real key. */
  lemma MaskedKeyRevealsAtMostFour(key: Option<string>)
    requires Truthy(key)
    ensures var m := MaskKey(key).value;
      |m| - 3 <= 4 && (forall k :: 3 <= k < |m| ==> m[k] == key.value[|key.value| - (|m| - 3) + (k - 3)])
  {
    var m := MaskKey(key).value;
    var shown := m[3..];
    var tail := key.value[|key.value| - |shown|..];
    assert shown == tail;
    forall k | 3 <= k < |m|
      ensures m[k] == key.value[|key.value| - (|m| - 3) + (k - 3)]
    {
      assert m[k] == shown[k - 3] == tail[k - 3];
    }
  }

  /** `GET /preferences`: a copy of the preferences with both keys masked and
      every other field as stored. */
  function SafePreferences(p: Preferences): (r: Preferences)
    ensures r.openaiApiKey == MaskKey(p.openaiApiKey)
    ensures r.claudeApiKey == MaskKey(p.claudeApiKey)
    ensures r.ollamaEndpoint == p.ollamaEndpoint && r.defaultModel == p.defaultModel
    ensures r.maxTokens == p.maxTokens && r.temperature == p.temperature
  {
    p.(openaiApiKey := MaskKey(p.openaiApiKey), claudeApiKey := MaskKey(p.claudeApiKey))
  }

  /** `request.model or default_model`: an absent or empty model name falls back. */
  function ResolveModel(requested: Option<string>, p: Preferences): (model: string)
    ensures Truthy(requested) ==> model == requested.value
    ensures !Truthy(requested) ==> model == p.defaultModel
  {
    if Truthy(requested) then requested.value else p.defaultModel
  }

  /** `request.max_tokens or max_tokens`: an absent value or 0 falls back. */
  function ResolveMaxTokens(requested: Option<int>, p: Preferences): (n: int)
    ensures requested.Some? && requested.value != 0 ==> n == requested.value
    ensures requested.None? || requested.value == 0 ==> n == p.maxTokens
  {
    if requested.Some? && requested.value != 0 then requested.value else p.maxTokens
  }

  /** `request.temperature or temperature`: an absent value or 0.0 falls back, so a
      request cannot ask for temperature zero when the default is not zero. */
  function ResolveTemperature(requested: Option<Temperature>, p: Preferences): (t: Temperature)
    ensures requested.Some? && requested.value != 0.0 ==> t == requested.value
    ensures requested.None? || requested.value == 0.0 ==> t == p.temperature
  {
    if requested.Some? && requested.value != 0.0 then requested.value else p.temperature
  }

  /** The six `KEY=value` lines of the `.env` file, in their fixed order. The
      rendering of the temperature as Python prints a float is an input. */
  function EnvLines(p: Preferences, temperatureText: string): (lines: seq<string>)
    ensures |lines| == 6
    ensures StartsWith(lines[0], "OPENAI_API_KEY=") && StartsWith(lines[1], "CLAUDE_API_KEY=")
    ensures StartsWith(lines[2], "OLLAMA_ENDPOINT=") && StartsWith(lines[3], "DEFAULT_MODEL=")
    ensures StartsWith(lines[4], "MAX_TOKENS=") && StartsWith(lines[5], "TEMPERATURE=")
    ensures lines[0][15..] == p.openaiApiKey.GetOr("") && lines[1][15..] == p.claudeApiKey.GetOr("")
    ensures lines[2][16..] == p.ollamaEndpoint && lines[3][14..] == p.defaultModel
    ensures lines[4][11..] == IntToString(p.maxTokens) && lines[5][12..] == temperatureText
    ensures !Truthy(p.openaiApiKey) ==> lines[0] == "OPENAI_API_KEY="
    ensures !Truthy(p.claudeApiKey) ==> lines[1] == "CLAUDE_API_KEY="
  {
    [ "OPENAI_API_KEY=" + p.openaiApiKey.GetOr(""),
      "CLAUDE_API_KEY=" + p.claudeApiKey.GetOr(""),
      "OLLAMA_ENDPOINT=" + p.ollamaEndpoint,
      "DEFAULT_MODEL=" + p.defaultModel,
      "MAX_TOKENS=" + IntToString(p.maxTokens),
      "TEMPERATURE=" + temperatureText ]
  }

  /** Each line followed by a newline. */
  function Lines(lines: seq<string>): string
    decreases |lines|
  {
    if lines == [] then "" else lines[0] + "\n" + Lines(lines[1..])
  }

  /** The text `POST /preferences` writes to `config/.env`. */
  function EnvText(p: Preferences, temperatureText: string): string {
    Lines(EnvLines(p, temperatureText))
  }

  /** Lines without newlines, each ended by one, split back on newlines into
      those lines and an empty tail. */
  lemma {:induction false} SplitLines(lines: seq<string>)
    requires forall k :: 0 <= k < |lines| ==> !Contains(lines[k], "\n")
    ensures Split(Lines(lines), "\n") == lines + [""]
    decreases |lines|
  {
    if lines == [] {
      assert IndexFrom("", "\n", 0).None?;
    } else {
      SplitLines(lines[1..]);
      assert lines[0] + "\n"[..0] == lines[0];
      SplitAtFirstPiece(lines[0], "\n", Lines(lines[1..]));
      assert [lines[0]] + (lines[1..] + [""]) == lines + [""];
    }
  }

  /** When no value holds a newline, the `.env` text reads back, line by line,
      as exactly the six `KEY=value` lines and nothing else. */
  lemma EnvTextReadsBack(p: Preferences, temperatureText: string)
    requires forall k :: 0 <= k < 6 ==> !Contains(EnvLines(p, temperatureText)[k], "\n")
    ensures Split(EnvText(p, temperatureText), "\n") == EnvLines(p, temperatureText) + [""]
  {
    SplitLines(EnvLines(p, temperatureText));
  }
}
