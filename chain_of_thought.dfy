/**
 * `ChainOfThoughtAgent`: the reasoning prompt it sends, and `_parse_response`,
 * a line-by-line state machine that splits the model's text into steps and a
 * final answer, with a paragraph-based fallback when no step is recognised.
 *
 * `ParseResponse` is the loop as the agent runs it; `Parse` is the same
 * behaviour as a fold of `Step` over the lines, and the lemmas below state what
 * the fold does.
 */
module ChainOfThought {
  import opened Wrappers
  import opened Text
  import opened Settings
  import LlmClient

  /** Words that, anywhere in a lower-cased line, make it the start of a step. */
  const StepWords: seq<string> :=
    ["understanding:", "analysis:", "step", "first", "second", "third", "next"]

  /** Words that, anywhere in a lower-cased line, make it the conclusion. */
  const ConclusionWords: seq<string> := ["conclusion:", "final answer:", "therefore:", "result:"]

  const NoStepsFound: string := "Analyzing the problem..."
  const NoAnswerFound: string := "Analysis complete."

  /** Python's `w in s`, decided by trying each position from `i` on. */
  predicate OccursFrom(s: string, w: string, i: nat)
    decreases |s| - i
  {
    i + |w| <= |s| && (s[i..i + |w|] == w || OccursFrom(s, w, i + 1))
  }

  /** The search finds `w` exactly when `w` occurs at or after `i`. */
  lemma {:induction false} OccursFromIsContains(s: string, w: string, i: nat)
    ensures OccursFrom(s, w, i) <==> exists j :: i <= j && OccursAt(s, w, j)
    decreases |s| - i
  {
    if i + |w| <= |s| {
      OccursFromIsContains(s, w, i + 1);
      if s[i..i + |w|] == w {
        assert OccursAt(s, w, i);
      }
      if exists j :: i <= j && OccursAt(s, w, j) {
        var j :| i <= j && OccursAt(s, w, j);
        if j != i {
          assert i + 1 <= j && OccursAt(s, w, j);
        }
      }
    } else {
      assert forall j :: i <= j ==> !OccursAt(s, w, j);
    }
  }

  /** Searching from the start is Python's `w in s`. */
  lemma OccursIsContains(s: string, w: string)
    ensures OccursFrom(s, w, 0) <==> Contains(s, w)
  {
    OccursFromIsContains(s, w, 0);
  }

  /** Some word of `words` occurs in the lower-cased line. */
  predicate Mentions(line: string, words: seq<string>)
    decreases |words|
  {
    words != [] && (OccursFrom(Lower(line), words[0], 0) || Mentions(line, words[1..]))
  }

  /** `Mentions` holds exactly when one of the words is contained in the
      lower-cased line. */
  lemma {:induction false} MentionsIsContains(line: string, words: seq<string>)
    ensures Mentions(line, words) <==> exists i :: 0 <= i < |words| && Contains(Lower(line), words[i])
    decreases |words|
  {
    if words != [] {
      OccursIsContains(Lower(line), words[0]);
      MentionsIsContains(line, words[1..]);
      if Mentions(line, words[1..]) {
        var i :| 0 <= i < |words[1..]| && Contains(Lower(line), words[1..][i]);
        assert Contains(Lower(line), words[i + 1]);
      }
      if exists i :: 0 <= i < |words| && Contains(Lower(line), words[i]) {
        var i :| 0 <= i < |words| && Contains(Lower(line), words[i]);
        if i > 0 {
          assert words[1..][i - 1] == words[i];
        }
      }
    }
  }

  /** Number of ASCII digits at the start of `s`. */
  function LeadingDigits(s: string): (n: nat)
    ensures n <= |s|
    ensures forall i :: 0 <= i < n ==> IsDigit(s[i])
    ensures n < |s| ==> !IsDigit(s[n])
  {
    if |s| == 0 || !IsDigit(s[0]) then 0 else 1 + LeadingDigits(s[1..])
  }

  /** The regular expression `^\d+\.` matches: digits, then a full stop. */
  predicate IsNumbered(line: string) {
    var n := LeadingDigits(line);
    0 < n < |line| && line[n] == '.'
  }

  /** What a stripped line is to the parser. The tests are made in this order,
      so a numbered line or one with a step word is a step line even when it
      also holds a conclusion word. */
  datatype LineKind = Blank | StepLine | ConclusionLine | PlainLine

  function Classify(line: string): (k: LineKind)
    ensures k == Blank <==> line == ""
  {
    if line == "" then Blank
    else if IsNumbered(line) || Mentions(line, StepWords) then StepLine
    else if Mentions(line, ConclusionWords) then ConclusionLine
    else PlainLine
  }

  /** The parser's state: steps found, the step being built, whether the
      conclusion has been reached, and the answer text. */
  datatype ParseState = ParseState(
    steps: seq<string>, currentStep: string, inConclusion: bool, finalAnswer: string)

  const Start: ParseState := ParseState([], "", false, "")

  /** The steps with the pending step added, if there is one. */
  function Pushed(st: ParseState): seq<string> {
    if st.currentStep != "" then st.steps + [Strip(st.currentStep, Python)] else st.steps
  }

  /** One iteration of the line loop. A line adds at most the pending step, a
      blank line changes nothing, and the conclusion, once reached, is never
      left. */
  function Step(st: ParseState, raw: string): (r: ParseState)
    ensures r.steps == st.steps || r.steps == Pushed(st)
    ensures st.inConclusion ==> r.inConclusion
    ensures Strip(raw, Python) == "" ==> r == st
  {
    var line := Strip(raw, Python);
    match Classify(line)
    case Blank => st
    case StepLine => st.(steps := Pushed(st), currentStep := line)
    case ConclusionLine => st.(steps := Pushed(st), inConclusion := true, finalAnswer := line)
    case PlainLine =>
      if st.inConclusion then st.(finalAnswer := st.finalAnswer + " " + line)
      else if st.currentStep != "" then st.(currentStep := st.currentStep + " " + line)
      else st
  }

  /** The state after the loop has run over `lines`, starting from `st`. Steps
      are only ever appended, so those found so far stay at the front, and the
      conclusion, once reached, is never left. */
  function RunFrom(st: ParseState, lines: seq<string>): (r: ParseState)
    ensures |st.steps| <= |r.steps| && r.steps[..|st.steps|] == st.steps
    ensures st.inConclusion ==> r.inConclusion
    decreases |lines|
  {
    if lines == [] then st
    else
      var before := RunFrom(st, lines[..|lines| - 1]);
      assert Pushed(before)[..|before.steps|] == before.steps;
      Step(before, lines[|lines| - 1])
  }

  /** The steps after the loop: the pending step is added unless the
      conclusion has been reached. */
  function FinalSteps(st: ParseState): (r: seq<string>)
    ensures st.inConclusion ==> r == st.steps
    ensures !st.inConclusion ==> r == Pushed(st)
  {
    if st.currentStep != "" && !st.inConclusion then st.steps + [Strip(st.currentStep, Python)]
    else st.steps
  }

  /** The stripped, non-empty pieces, in order. */
  function NonEmptyStripped(pieces: seq<string>): (r: seq<string>)
    ensures forall k :: 0 <= k < |r| ==> r[k] != "" && IsStripped(r[k], Python)
    decreases |pieces|
  {
    if pieces == [] then []
    else
      var p := Strip(pieces[0], Python);
      (if p != "" then [p] else []) + NonEmptyStripped(pieces[1..])
  }

  /** The fallback's paragraphs: the text split on blank lines, stripped, with
      the empty ones dropped. */
  function Paragraphs(response: string): (r: seq<string>)
    ensures forall k :: 0 <= k < |r| ==> r[k] != "" && IsStripped(r[k], Python)
  {
    NonEmptyStripped(Split(response, "\n\n"))
  }

  datatype Parsed = Parsed(steps: seq<string>, finalAnswer: string)

  /**
   * `_parse_response` as a function of the text. When the lines yield steps,
   * those are the steps and the conclusion text, stripped, is the answer.
   * Otherwise all paragraphs but the last are the steps (a placeholder when
   * there are fewer than two) and the last paragraph is the answer (a
   * placeholder when there is none), whatever a conclusion line may have set.
   */
  function Parse(response: string): (r: Parsed)
    ensures var st := RunFrom(Start, Split(response, "\n"));
      FinalSteps(st) != [] ==> r == Parsed(FinalSteps(st), Strip(st.finalAnswer, Python))
    ensures var st := RunFrom(Start, Split(response, "\n")); var ps := Paragraphs(response);
      FinalSteps(st) == [] ==>
        && r.steps == (if |ps| > 1 then ps[..|ps| - 1] else [NoStepsFound])
        && r.finalAnswer == (if ps == [] then NoAnswerFound else ps[|ps| - 1])
  {
    var st := RunFrom(Start, Split(response, "\n"));
    var steps := FinalSteps(st);
    if steps != [] then Parsed(steps, Strip(st.finalAnswer, Python)) else Fallback(response)
  }

  /** The fallback when the lines yield no step: the paragraphs but the last
      as steps, the last as the answer, each replaced by a placeholder when
      missing; the final strip leaves the answer as it is. */
  function Fallback(response: string): (r: Parsed)
    ensures var ps := Paragraphs(response);
      && r.steps == (if |ps| > 1 then ps[..|ps| - 1] else [NoStepsFound])
      && r.finalAnswer == (if ps == [] then NoAnswerFound else ps[|ps| - 1])
  {
    var ps := Paragraphs(response);
    var answer := if ps == [] then NoAnswerFound else ps[|ps| - 1];
    FallbackAnswerKept(ps);
    Parsed(if |ps| > 1 then ps[..|ps| - 1] else [NoStepsFound], Strip(answer, Python))
  }

  /** Whatever the text, the parse has at least one step, and every step and
      the answer are stripped. */
  lemma ParseIsStripped(response: string)
    ensures var r := Parse(response);
      |r.steps| > 0 && AllStripped(r.steps) && IsStripped(r.finalAnswer, Python)
  {
    var st := RunFrom(Start, Split(response, "\n"));
    StepsAreStripped(Start, Split(response, "\n"));
    if FinalSteps(st) == [] {
      FallbackIsStripped(Paragraphs(response));
    }
  }

  /** The fallback's steps and answer, made from stripped paragraphs, are
      stripped. */
  lemma FallbackIsStripped(ps: seq<string>)
    requires forall k :: 0 <= k < |ps| ==> IsStripped(ps[k], Python)
    ensures AllStripped(if |ps| > 1 then ps[..|ps| - 1] else [NoStepsFound])
    ensures IsStripped(if ps == [] then NoAnswerFound else ps[|ps| - 1], Python)
  {
    assert IsStripped(NoStepsFound, Python) && IsStripped(NoAnswerFound, Python);
    if |ps| > 1 {
      assert forall k :: 0 <= k < |ps| - 1 ==> ps[..|ps| - 1][k] == ps[k];
    }
  }

  /** The final strip leaves the fallback's answer as it is. */
  lemma FallbackAnswerKept(ps: seq<string>)
    requires forall k :: 0 <= k < |ps| ==> IsStripped(ps[k], Python)
    ensures var answer := if ps == [] then NoAnswerFound else ps[|ps| - 1];
      Strip(answer, Python) == answer
  {
    FallbackIsStripped(ps);
    StripStripped(if ps == [] then NoAnswerFound else ps[|ps| - 1], Python);
  }

  /** Every step in the list is stripped. */
  predicate AllStripped(steps: seq<string>) {
    forall k :: 0 <= k < |steps| ==> IsStripped(steps[k], Python)
  }

  lemma PushedAllStripped(st: ParseState)
    requires AllStripped(st.steps)
    ensures AllStripped(Pushed(st)) && AllStripped(FinalSteps(st))
  {
  }

  /** Every step the loop records is stripped. */
  lemma {:induction false} StepsAreStripped(st: ParseState, lines: seq<string>)
    requires AllStripped(st.steps)
    ensures AllStripped(RunFrom(st, lines).steps) && AllStripped(FinalSteps(RunFrom(st, lines)))
    decreases |lines|
  {
    if lines != [] {
      var before := RunFrom(st, lines[..|lines| - 1]);
      StepsAreStripped(st, lines[..|lines| - 1]);
      PushedAllStripped(before);
    }
    PushedAllStripped(RunFrom(st, lines));
  }

  /**
   * The loop of `_parse_response`, over the lines of the text, followed by the
   * last-step push, the fallback and the final strip.
   */
  method ParseResponse(response: string) returns (steps: seq<string>, finalAnswer: string)
    ensures Parsed(steps, finalAnswer) == Parse(response)
  {
    var lines := Split(response, "\n");
    steps := [];
    finalAnswer := "";
    var currentStep := "";
    var inConclusion := false;
    var i := 0;
    while i < |lines|
      invariant 0 <= i <= |lines|
      invariant ParseState(steps, currentStep, inConclusion, finalAnswer) == RunFrom(Start, lines[..i])
    {
      var line := Strip(lines[i], Python);
      match Classify(line) {
        case Blank =>
        case StepLine =>
          if currentStep != "" {
            steps := steps + [Strip(currentStep, Python)];
          }
          currentStep := line;
        case ConclusionLine =>
          if currentStep != "" {
            steps := steps + [Strip(currentStep, Python)];
          }
          inConclusion := true;
          finalAnswer := line;
        case PlainLine =>
          if inConclusion {
            finalAnswer := finalAnswer + " " + line;
          } else if currentStep != "" {
            currentStep := currentStep + " " + line;
          }
      }
      assert lines[..i + 1][..i] == lines[..i];
      i := i + 1;
    }
    assert lines[..i] == lines;
    if currentStep != "" && !inConclusion {
      steps := steps + [Strip(currentStep, Python)];
    }
    if steps == [] {
      var paragraphs := Paragraphs(response);
      steps := if |paragraphs| > 1 then paragraphs[..|paragraphs| - 1] else [NoStepsFound];
      finalAnswer := if paragraphs != [] then paragraphs[|paragraphs| - 1] else NoAnswerFound;
    }
    finalAnswer := Strip(finalAnswer, Python);
  }

  /** The lines that are not blank after stripping, in order. */
  function NonBlank(lines: seq<string>): seq<string>
    decreases |lines|
  {
    if lines == [] then []
    else
      var last := lines[|lines| - 1];
      NonBlank(lines[..|lines| - 1]) + (if Strip(last, Python) == "" then [] else [last])
  }

  /** Blank lines have no effect: the loop ends in the same state without them. */
  lemma {:induction false} BlankLinesIgnored(st: ParseState, lines: seq<string>)
    ensures RunFrom(st, lines) == RunFrom(st, NonBlank(lines))
    decreases |lines|
  {
    if lines != [] {
      var init, last := lines[..|lines| - 1], lines[|lines| - 1];
      BlankLinesIgnored(st, init);
      if Strip(last, Python) != "" {
        var kept := NonBlank(init) + [last];
        assert NonBlank(lines) == kept;
        assert kept[..|kept| - 1] == NonBlank(init);
        assert RunFrom(st, kept) == Step(RunFrom(st, NonBlank(init)), last);
      } else {
        assert NonBlank(lines) == NonBlank(init);
        assert RunFrom(st, lines) == RunFrom(st, init);
      }
    }
  }

  /** Every line is blank or plain. */
  predicate AllPlain(lines: seq<string>) {
    forall k :: 0 <= k < |lines| ==> Classify(Strip(lines[k], Python)) in {Blank, PlainLine}
  }

  /** Lines before the first step or conclusion line are dropped: from the start
      state, plain and blank lines leave the state unchanged. */
  lemma {:induction false} LeadingPlainLinesDropped(lines: seq<string>)
    requires AllPlain(lines)
    ensures RunFrom(Start, lines) == Start
    decreases |lines|
  {
    if lines != [] {
      var init := lines[..|lines| - 1];
      assert AllPlain(init) by {
        forall k | 0 <= k < |init| ensures init[k] == lines[k] { }
      }
      LeadingPlainLinesDropped(init);
      assert Classify(Strip(lines[|lines| - 1], Python)) in {Blank, PlainLine};
    }
  }

  /** What one plain or blank line adds to the answer: a space and the
      stripped line, or nothing for a blank one. */
  function Tail(raw: string): string {
    var line := Strip(raw, Python);
    if line == "" then "" else " " + line
  }

  /** What plain lines add to the text they follow: a space and each stripped
      non-blank line. */
  function Continuation(lines: seq<string>): string
    decreases |lines|
  {
    if lines == [] then "" else Continuation(lines[..|lines| - 1]) + Tail(lines[|lines| - 1])
  }

  /** In the conclusion, a plain line is appended to the answer and a blank
      line is skipped. */
  lemma PlainLineInConclusion(st: ParseState, raw: string)
    requires st.inConclusion
    requires Classify(Strip(raw, Python)) in {Blank, PlainLine}
    ensures Step(st, raw) == st.(finalAnswer := st.finalAnswer + Tail(raw))
  {
    var line := Strip(raw, Python);
    if line != "" {
      ConcatAssociative(st.finalAnswer, " ", line);
    }
  }

  /** Appending to an answer that already extends the starting one. */
  lemma AnswerExtended(st: ParseState, before: ParseState, c: string, t: string)
    requires before == st.(finalAnswer := st.finalAnswer + c)
    ensures before.(finalAnswer := before.finalAnswer + t) == st.(finalAnswer := st.finalAnswer + (c + t))
  {
    ConcatAssociative(st.finalAnswer, c, t);
  }

  /** The inductive step of `ConclusionCollectsPlainLines`: one more plain or
      blank line. */
  lemma ConclusionCollectsOneMore(st: ParseState, lines: seq<string>)
    requires st.inConclusion && lines != []
    requires Classify(Strip(lines[|lines| - 1], Python)) in {Blank, PlainLine}
    requires RunFrom(st, lines[..|lines| - 1])
      == st.(finalAnswer := st.finalAnswer + Continuation(lines[..|lines| - 1]))
    ensures RunFrom(st, lines) == st.(finalAnswer := st.finalAnswer + Continuation(lines))
  {
    var init := lines[..|lines| - 1];
    var raw := lines[|lines| - 1];
    var before := RunFrom(st, init);
    PlainLineInConclusion(before, raw);
    AnswerExtended(st, before, Continuation(init), Tail(raw));
  }

  lemma ConcatAssociative(a: string, b: string, c: string)
    ensures a + b + c == a + (b + c)
  {
  }

  /**
   * Once the conclusion is reached, plain lines are appended to the answer with
   * single spaces; the steps and the pending step stay as they are (so the
   * pending step is neither extended nor, at the end, pushed again).
   */
  lemma {:induction false} ConclusionCollectsPlainLines(st: ParseState, lines: seq<string>)
    requires st.inConclusion
    requires AllPlain(lines)
    ensures RunFrom(st, lines) == st.(finalAnswer := st.finalAnswer + Continuation(lines))
    ensures FinalSteps(RunFrom(st, lines)) == st.steps
    decreases |lines|
  {
    if lines != [] {
      var init := lines[..|lines| - 1];
      assert AllPlain(init) by {
        forall k | 0 <= k < |init| ensures init[k] == lines[k] { }
      }
      ConclusionCollectsPlainLines(st, init);
      ConclusionCollectsOneMore(st, lines);
    }
  }

  /** The conclusion, once reached, is never left; until it is reached the
      answer text is never set. */
  lemma {:induction false} NoConclusionNoAnswer(st: ParseState, lines: seq<string>)
    ensures var end := RunFrom(st, lines);
      !end.inConclusion ==> !st.inConclusion && end.finalAnswer == st.finalAnswer
    decreases |lines|
  {
    if lines != [] {
      NoConclusionNoAnswer(st, lines[..|lines| - 1]);
    }
  }

  /** When the lines yield steps but no conclusion line, the answer is empty. */
  lemma AnswerEmptyWithoutConclusion(response: string)
    requires !RunFrom(Start, Split(response, "\n")).inConclusion
    requires FinalSteps(RunFrom(Start, Split(response, "\n"))) != []
    ensures Parse(response).finalAnswer == ""
  {
    NoConclusionNoAnswer(Start, Split(response, "\n"));
  }

  /** Whatever else it holds, a numbered line starts a new step: the pending
      step is added and the line becomes the pending one, and the conclusion
      is neither entered nor left. */
  lemma NumberedLineIsStep(st: ParseState, raw: string)
    requires IsNumbered(Strip(raw, Python))
    ensures Step(st, raw) == st.(steps := Pushed(st), currentStep := Strip(raw, Python))
  {
    assert Classify(Strip(raw, Python)) == StepLine;
    StepLineStep(st, raw);
  }

  /** A conclusion line adds the pending step and starts the answer; the
      pending step stays as it was. */
  lemma ConclusionLineStep(st: ParseState, raw: string)
    requires Classify(Strip(raw, Python)) == ConclusionLine
    ensures Step(st, raw) == st.(steps := Pushed(st), inConclusion := true, finalAnswer := Strip(raw, Python))
  {
  }

  /** A step line adds the pending step and makes the line the pending one. */
  lemma StepLineStep(st: ParseState, raw: string)
    requires Classify(Strip(raw, Python)) == StepLine
    ensures Step(st, raw) == st.(steps := Pushed(st), currentStep := Strip(raw, Python))
  {
  }

  /** The loop over two lines is two steps. */
  lemma RunFromTwo(st: ParseState, a: string, b: string)
    ensures RunFrom(st, [a, b]) == Step(Step(st, a), b)
  {
    assert [a, b][..1] == [a];
    assert [a][..0] == [];
    assert RunFrom(st, [a]) == Step(RunFrom(st, []), a);
    assert RunFrom(st, [a, b]) == Step(RunFrom(st, [a]), b);
  }

  /**
   * A conclusion line does not clear the pending step, so a step line after it
   * pushes that stale step a second time.
   */
  lemma StaleStepPushedAgain(st: ParseState, conclusion: string, next: string)
    requires !st.inConclusion && st.currentStep != ""
    requires Classify(Strip(conclusion, Python)) == ConclusionLine
    requires Classify(Strip(next, Python)) == StepLine
    ensures var end := RunFrom(st, [conclusion, next]);
      var pending := Strip(st.currentStep, Python);
      end.steps == st.steps + [pending, pending] && end.inConclusion
      && end.currentStep == Strip(next, Python) && FinalSteps(end) == end.steps
  {
    RunFromTwo(st, conclusion, next);
    ConclusionLineStep(st, conclusion);
    var mid := Step(st, conclusion);
    StepLineStep(mid, next);
    var pending := Strip(st.currentStep, Python);
    assert mid.steps == st.steps + [pending];
    assert Pushed(mid) == st.steps + [pending] + [pending];
  }

  const ThinkingHead: string := "Please solve this problem using clear step-by-step reasoning:\n\n"
  const ThinkingTail: string :=
    "\n\nPlease structure your response as follows:\n"
    + "1. Understanding: What is being asked?\n"
    + "2. Analysis: Break down the problem\n"
    + "3. Steps: Work through each part systematically\n"
    + "4. Conclusion: Provide your final answer\n\n"
    + "Be thorough and show your reasoning process clearly."

  /** The reasoning prompt: fixed instructions around the problem, verbatim. */
  function ThinkingPrompt(problem: string): (r: string)
    ensures |r| == |ThinkingHead| + |problem| + |ThinkingTail|
    ensures r[..|ThinkingHead|] == ThinkingHead && r[|ThinkingHead| + |problem|..] == ThinkingTail
    ensures r[|ThinkingHead|..|ThinkingHead| + |problem|] == problem
  {
    ThinkingHead + problem + ThinkingTail
  }

  /** The result of `process_problem`. */
  datatype Reasoning = Reasoning(steps: seq<string>, finalAnswer: string, reasoningProcess: string)

  /** What `None.split('\n')` raises, as `str()` of the exception renders it. */
  const NoneHasNoSplit: string := "'NoneType' object has no attribute 'split'"

  /** What `process_problem` returns: the parse of the model's reply, with the
      reply itself, unchanged, as the reasoning process; or the client's error.
      A reply without text (`None`) makes the parse raise. */
  function Solve(client: LlmClient.Client, problem: string, model: string, maxTokens: int,
                 temperature: Temperature, upstream: LlmClient.Upstream): (r: Result<Reasoning, string>)
    ensures var reply := client.GenerateResponse(ThinkingPrompt(problem), model, maxTokens, temperature, upstream);
      && (reply.Failure? ==> r == Failure(reply.error))
      && (reply.Success? && reply.value.None? ==> r == Failure(NoneHasNoSplit))
      && (reply.Success? && reply.value.Some? ==>
            && r.Success? && r.value.reasoningProcess == reply.value.value
            && Parsed(r.value.steps, r.value.finalAnswer) == Parse(reply.value.value)
            && |r.value.steps| > 0 && IsStripped(r.value.finalAnswer, Python))
  {
    match client.GenerateResponse(ThinkingPrompt(problem), model, maxTokens, temperature, upstream)
    case Failure(e) => Failure(e)
    case Success(None) => Failure(NoneHasNoSplit)
    case Success(Some(text)) =>
      var p := Parse(text);
      ParseIsStripped(text);
      Success(Reasoning(p.steps, p.finalAnswer, text))
  }

  /** `process_problem`: one call to the client with the reasoning prompt, then
      the parse. */
  method ProcessProblem(client: LlmClient.Client, problem: string, model: string, maxTokens: int,
                        temperature: Temperature, upstream: LlmClient.Upstream)
    returns (r: Result<Reasoning, string>)
    ensures r == Solve(client, problem, model, maxTokens, temperature, upstream)
  {
    var reply := client.GenerateResponse(ThinkingPrompt(problem), model, maxTokens, temperature, upstream);
    match reply
    case Failure(e) =>
      r := Failure(e);
    case Success(None) =>
      r := Failure(NoneHasNoSplit);
    case Success(Some(text)) =>
      var steps, finalAnswer := ParseResponse(text);
      r := Success(Reasoning(steps, finalAnswer, text));
  }
}
