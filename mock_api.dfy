/**
 * The placeholder `POST /simple-prompt` route of the support server: it echoes
 * the start of the prompt in a fixed sentence instead of calling a model.
 */
module MockApi {
  import opened Wrappers
  import opened Text

  const Lead: string := "This is a mock response to: \""
  const Trail: string := "...\""

  /** How many characters of the prompt are quoted. */
  const Quoted: nat := 50

  /** JavaScript's `s.substring(0, n)` for `n >= 0`: the first `n` characters,
      or all of them. */
  function Prefix(s: string, n: nat): (r: string)
    ensures |r| == if |s| < n then |s| else n
    ensures r == s[..|r|]
  {
    if |s| < n then s else s[..n]
  }

  /** The mock sentence: the lead-in, at most the first 50 characters of the
      prompt, and `..."`, which is added even when nothing was cut. */
  function MockResponse(prompt: string): (r: string)
    ensures |Lead| + |Trail| <= |r| <= |Lead| + Quoted + |Trail|
    ensures StartsWith(r, Lead) && r[|r| - |Trail|..] == Trail
    ensures |r| - |Lead| - |Trail| <= |prompt|
    ensures r[|Lead|..|r| - |Trail|] == prompt[..|r| - |Lead| - |Trail|]
  {
    var quoted := Prefix(prompt, Quoted);
    var r := Lead + quoted + Trail;
    assert r[|Lead|..|r| - |Trail|] == quoted;
    r
  }

  /** The quoted part read back out of a mock sentence. */
  function QuotedPart(r: string): string
    requires |r| >= |Lead| + |Trail|
  {
    r[|Lead|..|r| - |Trail|]
  }

  /** A prompt of at most 50 characters is quoted whole, so it can be read
      back; a longer one is cut to its first 50. */
  lemma QuotedPartRecoversShortPrompt(prompt: string)
    ensures |prompt| <= Quoted ==> QuotedPart(MockResponse(prompt)) == prompt
    ensures |prompt| > Quoted ==> QuotedPart(MockResponse(prompt)) == prompt[..Quoted]
  {
    var r := MockResponse(prompt);
    assert |r| - |Lead| - |Trail| == (if |prompt| < Quoted then |prompt| else Quoted);
    if |prompt| <= Quoted {
      assert prompt[..|prompt|] == prompt;
    }
  }

  /** Two prompts that agree on their first 50 characters get the same reply. */
  lemma MockResponseSeesOnlyFifty(p: string, q: string)
    requires |p| >= Quoted && |q| >= Quoted && p[..Quoted] == q[..Quoted]
    ensures MockResponse(p) == MockResponse(q)
  {
  }

  /** The route's answer: `{data: {response}}`, or, when `prompt` is missing or
      not a string (so `substring` throws), 500 with a fixed detail. */
  datatype MockReply = MockOk(response: string) | MockFailure(status: nat, detail: string)

  function SimplePromptRoute(prompt: Option<string>): (r: MockReply)
    ensures prompt.None? ==> r == MockFailure(500, "Failed to process prompt")
    ensures prompt.Some? ==> r == MockOk(MockResponse(prompt.value))
    ensures prompt.Some? && |prompt.value| <= Quoted ==> QuotedPart(r.response) == prompt.value
  {
    match prompt
    case None => MockFailure(500, "Failed to process prompt")
    case Some(p) =>
      QuotedPartRecoversShortPrompt(p);
      MockOk(MockResponse(p))
  }
}
