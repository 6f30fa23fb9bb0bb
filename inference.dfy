/**
 * The helpers of the inference pipeline (`AbstractInferencePipeline`):
 * input preprocessing, prompt construction, generation with a rater, chained
 * generation and the post-processing of a generated argdown reconstruction.
 * The language model itself is the `generateRaw` function of a `Pipeline`.
 */
module Inference {
  import opened Wrappers
  import opened Text
  import opened Analysis

  /** A generation step: the field to produce from the named input fields. */
  datatype GenerativeMode = GenerativeMode(target: string, input: seq<string>)

  /** The model's inputs: field names to text, or `None`. */
  type Inputs = map<string, Option<string>>

  /** One record the model returns; on success it carries `"generated_text"`. */
  type Output = map<string, string>

  /** What a user is later asked to rate: the inputs, the mode and the generated text. */
  datatype InferenceRater = InferenceRater(inputs: Inputs, mode: GenerativeMode, generatedText: string)

  /**
   * A language-model pipeline: the raw generation call (`_generate`), the
   * post-processed reconstruction it generates from a source text for the
   * evaluator's cache, and the verdicts of the three loss-based coherence
   * checks of the evaluator (given the item, and the default reconstruction
   * or the cached parse of the reconstruction the check lays the item out
   * with).
   */
  datatype Pipeline = Pipeline(
    generateRaw: (Inputs, GenerativeMode) -> seq<Output>,
    defaultReconstruction: Item -> string,
    recoCoheres: (Item, string) -> bool,
    reasConjCoheres: (Item, Option<Argument>) -> bool,
    formCoheres: (Item, Argument) -> bool)

  /** `preprocess_inputs`: same keys, `None` kept, every line break of a text turned into a space. */
  function PreprocessInputs(inputs: Inputs): (r: Inputs)
    ensures r.Keys == inputs.Keys
    ensures forall k :: k in inputs ==> (r[k].None? <==> inputs[k].None?)
    ensures forall k :: k in inputs && inputs[k].Some? ==>
      |r[k].value| == |inputs[k].value| && '\n' !in r[k].value &&
      forall i :: 0 <= i < |inputs[k].value| && inputs[k].value[i] != '\n' ==> r[k].value[i] == inputs[k].value[i]
  {
    map k | k in inputs :: if inputs[k].None? then None else Some(ReplaceNewlines(inputs[k].value))
  }

  /** Preprocessing twice is preprocessing once. */
  lemma PreprocessIdempotent(inputs: Inputs)
    ensures PreprocessInputs(PreprocessInputs(inputs)) == PreprocessInputs(inputs)
  {
    var once := PreprocessInputs(inputs);
    var twice := PreprocessInputs(once);
    forall k | k in once && once[k].Some?
      ensures twice[k] == once[k]
    {
      assert twice[k].value == once[k].value;
    }
  }

  /** How a value is written into a prompt: `None` prints as `None`. */
  function Render(v: Option<string>): string
  {
    if v.None? then "None" else v.value
  }

  /** The prompt for `target` from the given input keys, or the `KeyError` of the first missing key. */
  function Prompt(inputs: Inputs, target: string, keys: seq<string>): Result<string, Fault>
    decreases |keys|
  {
    if |keys| == 0 then Success(target + ":")
    else
      match Prompt(inputs, target, keys[..|keys| - 1])
      case Failure(e) => Failure(e)
      case Success(p) =>
        var k := keys[|keys| - 1];
        if k in inputs then Success(p + " " + k + ": " + Render(inputs[k])) else Failure(KeyError(k))
  }

  /** `construct_prompt`. */
  method ConstructPrompt(inputs: Inputs, mode: GenerativeMode) returns (r: Result<string, Fault>)
    ensures r == Prompt(inputs, mode.target, mode.input)
  {
    var prompt := mode.target + ":";
    var i := 0;
    while i < |mode.input|
      invariant 0 <= i <= |mode.input|
      invariant Prompt(inputs, mode.target, mode.input[..i]) == Success(prompt)
    {
      var key := mode.input[i];
      assert mode.input[..i + 1][..i] == mode.input[..i];
      if key !in inputs {
        PromptFailureSticks(inputs, mode.target, mode.input, i + 1);
        return Failure(KeyError(key));
      }
      prompt := prompt + " " + key + ": " + Render(inputs[key]);
      i := i + 1;
    }
    assert mode.input[..i] == mode.input;
    return Success(prompt);
  }

  /** Once a prefix of the keys fails, the whole key list fails with the same error. */
  lemma {:induction false} PromptFailureSticks(inputs: Inputs, target: string, keys: seq<string>, n: nat)
    requires n <= |keys|
    requires Prompt(inputs, target, keys[..n]).Failure?
    ensures Prompt(inputs, target, keys) == Prompt(inputs, target, keys[..n])
    decreases |keys| - n
  {
    if n < |keys| {
      assert keys[..n + 1][..n] == keys[..n];
      PromptFailureSticks(inputs, target, keys, n + 1);
    } else {
      assert keys[..n] == keys;
    }
  }

  /** A prompt exists exactly when every input key is present, and then it starts with `target:`. */
  lemma {:induction false} PromptDefinedIffKeysPresent(inputs: Inputs, target: string, keys: seq<string>)
    ensures Prompt(inputs, target, keys).Success? <==> forall k :: k in keys ==> k in inputs
    ensures Prompt(inputs, target, keys).Success? ==> target + ":" <= Prompt(inputs, target, keys).value
    decreases |keys|
  {
    if |keys| > 0 {
      var init := keys[..|keys| - 1];
      PromptDefinedIffKeysPresent(inputs, target, init);
      assert keys == init + [keys[|keys| - 1]];
      assert forall k :: k in keys <==> k in init || k == keys[|keys| - 1];
    }
  }

  /**
   * `generate`: the outputs unchanged, and a rater exactly when the first
   * output carries a generated text; an empty output list raises `IndexError`.
   */
  function Generate(p: Pipeline, inputs: Inputs, mode: GenerativeMode): (r: Result<(seq<Output>, Option<InferenceRater>), Fault>)
    ensures r.Failure? <==> |p.generateRaw(inputs, mode)| == 0
    ensures r.Success? ==> r.value.0 == p.generateRaw(inputs, mode)
    ensures r.Success? ==> (r.value.1.Some? <==> "generated_text" in r.value.0[0])
    ensures r.Success? && r.value.1.Some? ==>
      r.value.1.value == InferenceRater(inputs, mode, r.value.0[0]["generated_text"])
  {
    var outputs := p.generateRaw(inputs, mode);
    if |outputs| == 0 then Failure(IndexError)
    else if "generated_text" in outputs[0] then
      Success((outputs, Some(InferenceRater(inputs, mode, outputs[0]["generated_text"]))))
    else Success((outputs, None))
  }

  /** The text generated for a mode, when the model returned one. */
  function Generated(p: Pipeline, inputs: Inputs, mode: GenerativeMode): Result<Option<string>, Fault>
  {
    match Generate(p, inputs, mode)
    case Failure(e) => Failure(e)
    case Success((_, rater)) => Success(if rater.Some? then Some(rater.value.generatedText) else None)
  }

  /** The outcome of a generation chain: the completed data, the `{"error": ...}` record of the failing step, or an exception. */
  datatype ChainResult = Completed(data: Inputs) | StepFailed(step: GenerativeMode) | Raised(fault: Fault)

  /** What running the remaining steps on `data` yields. */
  function RunChain(p: Pipeline, data: Inputs, chain: seq<GenerativeMode>): ChainResult
    decreases |chain|
  {
    if |chain| == 0 then Completed(data)
    else
      var outputs := p.generateRaw(data, chain[0]);
      if |outputs| == 0 then Raised(IndexError)
      else if "generated_text" in outputs[0] then
        RunChain(p, data[chain[0].target := Some(outputs[0]["generated_text"])], chain[1..])
      else StepFailed(chain[0])
  }

  /** `generate_with_chain`: the steps run in order on a copy of the inputs, each one seeing the texts generated before it. */
  method GenerateWithChain(p: Pipeline, inputs: Inputs, chain: seq<GenerativeMode>) returns (r: ChainResult)
    ensures r == RunChain(p, inputs, chain)
  {
    var data := inputs;
    var i := 0;
    while i < |chain|
      invariant 0 <= i <= |chain|
      invariant RunChain(p, inputs, chain) == RunChain(p, data, chain[i..])
    {
      var mode := chain[i];
      var outputs := p.generateRaw(data, mode);
      assert chain[i..][1..] == chain[i + 1..];
      if |outputs| == 0 {
        return Raised(IndexError);
      }
      if "generated_text" in outputs[0] {
        data := data[mode.target := Some(outputs[0]["generated_text"])];
      } else {
        return StepFailed(mode);
      }
      i := i + 1;
    }
    return Completed(data);
  }

  /**
   * A completed chain keeps every input key, sets every step's target, and
   * leaves the value of a key no step targets as it was.
   */
  lemma {:induction false} ChainCompletedKeepsAndSets(p: Pipeline, data: Inputs, chain: seq<GenerativeMode>)
    requires RunChain(p, data, chain).Completed?
    ensures data.Keys <= RunChain(p, data, chain).data.Keys
    ensures forall step :: step in chain ==> step.target in RunChain(p, data, chain).data
    ensures forall k :: k in data && (forall step :: step in chain ==> step.target != k) ==>
      RunChain(p, data, chain).data[k] == data[k]
    decreases |chain|
  {
    if |chain| > 0 {
      var outputs := p.generateRaw(data, chain[0]);
      var next := data[chain[0].target := Some(outputs[0]["generated_text"])];
      ChainCompletedKeepsAndSets(p, next, chain[1..]);
      assert forall step :: step in chain ==> step == chain[0] || step in chain[1..];
    }
  }

  /** The end of the run of decimal digits starting at `k`. */
  function DigitsEnd(s: string, k: nat): (r: nat)
    requires k <= |s|
    ensures k <= r <= |s| && AllDigits(s[k..r]) && (r == |s| || !IsDigit(s[r]))
    decreases |s| - k
  {
    if k < |s| && IsDigit(s[k]) then
      var r := DigitsEnd(s, k + 1);
      assert s[k..r] == [s[k]] + s[k + 1..r];
      r
    else k
  }

  /** A match of ` \(([0-9]*)\) ` at index `i`, or `None`. */
  function LabelMatchAt(s: string, i: nat): (r: Option<Span>)
    requires i <= |s|
    ensures r.Some? ==> r.value.start == i && i + 4 <= r.value.end <= |s|
    ensures r.Some? ==> s[i] == ' ' && s[i + 1] == '(' && s[r.value.end - 2] == ')' && s[r.value.end - 1] == ' '
    ensures r.Some? ==> AllDigits(s[i + 2..r.value.end - 2])
  {
    if i + 1 < |s| && s[i] == ' ' && s[i + 1] == '(' then
      var j := DigitsEnd(s, i + 2);
      if j + 1 < |s| && s[j] == ')' && s[j + 1] == ' ' then Some(Span(i, j + 2)) else None
    else None
  }

  /** `re.finditer(r" \(([0-9]*)\) ", s)` from position `pos`. */
  function LabelMatches(s: string, pos: nat): (r: seq<Span>)
    requires pos <= |s|
    ensures SpansIn(s, r) && NonEmptySpans(r)
    ensures forall k :: 0 <= k < |r| ==> pos <= r[k].start
    decreases |s| - pos
  {
    if pos == |s| then []
    else
      match LabelMatchAt(s, pos)
      case Some(m) => [m] + LabelMatches(s, m.end)
      case None => LabelMatches(s, pos + 1)
  }

  /** Every match `LabelMatches` reports is a match of the label pattern at its start. */
  lemma {:induction false} LabelMatchesAreMatches(s: string, pos: nat, k: nat)
    requires pos <= |s| && k < |LabelMatches(s, pos)|
    ensures LabelMatchAt(s, LabelMatches(s, pos)[k].start) == Some(LabelMatches(s, pos)[k])
    decreases |s| - pos
  {
    match LabelMatchAt(s, pos)
    case Some(m) =>
      if k > 0 {
        LabelMatchesAreMatches(s, m.end, k - 1);
      }
    case None =>
      LabelMatchesAreMatches(s, pos + 1, k);
  }

  /** Every span covers at least one character. */
  predicate NonEmptySpans(spans: seq<Span>)
  {
    forall k :: 0 <= k < |spans| ==> spans[k].start < spans[k].end
  }

  /** The start positions of the spans from index `k` on. */
  function Starts(spans: seq<Span>, k: nat): set<int>
    requires k <= |spans|
    decreases |spans| - k
  {
    if k == |spans| then {} else {spans[k].start} + Starts(spans, k + 1)
  }

  /** Every start from index `k` on lies at or after the `k`-th span's start, and past its end unless it is that start. */
  lemma {:induction false} StartsBounded(s: string, spans: seq<Span>, k: nat, i: int)
    requires SpansIn(s, spans) && NonEmptySpans(spans) && k <= |spans|
    requires i in Starts(spans, k)
    ensures k < |spans| && spans[k].start <= i
    ensures i != spans[k].start ==> spans[k].end <= i
    decreases |spans| - k
  {
    if i != spans[k].start {
      StartsBounded(s, spans, k + 1, i);
    }
  }

  /** The text from `pointer` on with the first character of each match from the `k`-th on turned into a line break. */
  function BreakFrom(s: string, matches: seq<Span>, k: nat, pointer: nat): string
    requires SpansIn(s, matches) && NonEmptySpans(matches) && k <= |matches| && pointer <= |s|
    requires k < |matches| ==> pointer <= matches[k].start
    decreases |matches| - k
  {
    if k == |matches| then s[pointer..]
    else
      var m := matches[k];
      assert k + 1 < |matches| ==> matches[k].end <= matches[k + 1].start;
      s[pointer..m.start] + "\n" + s[m.start + 1..m.end] + BreakFrom(s, matches, k + 1, m.end)
  }

  lemma {:induction false} BreakFromLength(s: string, matches: seq<Span>, k: nat, pointer: nat)
    requires SpansIn(s, matches) && NonEmptySpans(matches) && k <= |matches| && pointer <= |s|
    requires k < |matches| ==> pointer <= matches[k].start
    ensures |BreakFrom(s, matches, k, pointer)| == |s| - pointer
    decreases |matches| - k
  {
    if k < |matches| {
      assert k + 1 < |matches| ==> matches[k].end <= matches[k + 1].start;
      BreakFromLength(s, matches, k + 1, matches[k].end);
    }
  }

  /** `BreakFrom` turns the character at index `i` into a line break exactly when a match starts there. */
  lemma {:induction false} BreakFromAt(s: string, matches: seq<Span>, k: nat, pointer: nat, i: int)
    requires SpansIn(s, matches) && NonEmptySpans(matches) && k <= |matches| && pointer <= |s|
    requires k < |matches| ==> pointer <= matches[k].start
    requires pointer <= i < |s|
    ensures |BreakFrom(s, matches, k, pointer)| == |s| - pointer
    ensures BreakFrom(s, matches, k, pointer)[i - pointer] == (if i in Starts(matches, k) then '\n' else s[i])
    decreases |matches| - k
  {
    BreakFromLength(s, matches, k, pointer);
    if k < |matches| {
      var m := matches[k];
      assert k + 1 < |matches| ==> matches[k].end <= matches[k + 1].start;
      var rest := BreakFrom(s, matches, k + 1, m.end);
      BreakFromLength(s, matches, k + 1, m.end);
      var head := s[pointer..m.start] + "\n" + s[m.start + 1..m.end];
      assert BreakFrom(s, matches, k, pointer) == head + rest;
      if i < m.end {
        assert BreakFrom(s, matches, k, pointer)[i - pointer] == head[i - pointer];
        if i in Starts(matches, k) {
          StartsBounded(s, matches, k, i);
        }
      } else {
        BreakFromAt(s, matches, k + 1, m.end, i);
        assert BreakFrom(s, matches, k, pointer)[i - pointer] == rest[i - m.end];
      }
    }
  }

  /** One match's worth of `BreakFrom`. */
  lemma BreakFromStep(s: string, matches: seq<Span>, k: nat, pointer: nat)
    requires SpansIn(s, matches) && NonEmptySpans(matches) && k < |matches| && pointer <= matches[k].start
    ensures matches[k].start < matches[k].end <= |s|
    ensures k + 1 < |matches| ==> matches[k].end <= matches[k + 1].start
    ensures BreakFrom(s, matches, k, pointer) ==
      s[pointer..matches[k].start] + "\n" + s[matches[k].start + 1..matches[k].end] + BreakFrom(s, matches, k + 1, matches[k].end)
  {
  }

  /** The loop of `newlines_between_propositions` keeps its output a prefix of the result, one match at a time. */
  lemma BreakFromAdvance(s: string, matches: seq<Span>, k: nat, pointer: nat, r: string, next: string, whole: string)
    requires SpansIn(s, matches) && NonEmptySpans(matches) && k < |matches| && pointer <= matches[k].start
    requires r + BreakFrom(s, matches, k, pointer) == whole
    requires matches[k].end <= |s|
    requires next == r + (s[pointer..matches[k].start] + "\n" + s[matches[k].start + 1..matches[k].end])
    ensures k + 1 < |matches| ==> matches[k].end <= matches[k + 1].start
    ensures next + BreakFrom(s, matches, k + 1, matches[k].end) == whole
  {
    BreakFromStep(s, matches, k, pointer);
    var piece := s[pointer..matches[k].start] + "\n" + s[matches[k].start + 1..matches[k].end];
    assert (r + piece) + BreakFrom(s, matches, k + 1, matches[k].end) == r + (piece + BreakFrom(s, matches, k + 1, matches[k].end));
  }

  /** The result of `newlines_between_propositions`. */
  function Newlines(s: string): string
  {
    BreakFrom(s, LabelMatches(s, 0), 0, 0)
  }

  /** `newlines_between_propositions` keeps the length and turns the leading space of each label match, and nothing else, into a line break. */
  lemma NewlinesAt(s: string, i: int)
    requires 0 <= i < |s|
    ensures |Newlines(s)| == |s|
    ensures Newlines(s)[i] == (if i in Starts(LabelMatches(s, 0), 0) then '\n' else s[i])
  {
    BreakFromAt(s, LabelMatches(s, 0), 0, 0, i);
  }

  lemma NewlinesLength(s: string)
    ensures |Newlines(s)| == |s|
  {
    BreakFromLength(s, LabelMatches(s, 0), 0, 0);
  }

  /** The loop of `newlines_between_propositions` over the label matches `matches` of `s`. */
  method BreakAtMatches(s: string, matches: seq<Span>) returns (r: string)
    requires SpansIn(s, matches) && NonEmptySpans(matches)
    ensures r == BreakFrom(s, matches, 0, 0)
  {
    ghost var whole := BreakFrom(s, matches, 0, 0);
    var pointer: nat := 0;
    r := "";
    for k := 0 to |matches|
      invariant pointer <= |s|
      invariant k < |matches| ==> pointer <= matches[k].start
      invariant r + BreakFrom(s, matches, k, pointer) == whole
    {
      var m := matches[k];
      assert m.start < m.end <= |s| by { BreakFromStep(s, matches, k, pointer); }
      var next := r + (s[pointer..m.start] + "\n" + s[m.start + 1..m.end]);
      BreakFromAdvance(s, matches, k, pointer, r, next, whole);
      r, pointer := next, m.end;
    }
    assert BreakFrom(s, matches, |matches|, pointer) == s[pointer..];
    r := r + s[pointer..];
  }

  /** `newlines_between_propositions`. */
  method NewlinesBetweenPropositions(s: string) returns (r: string)
    ensures r == Newlines(s)
  {
    var matches := LabelMatches(s, 0);
    r := BreakAtMatches(s, matches);
  }

  /** The part of a match that `postprocess_argdown` keeps: everything but its first and last character. */
  function Inner(s: string, sp: Span): string
    requires 0 <= sp.start <= sp.end <= |s|
  {
    if sp.end - sp.start >= 2 then s[sp.start + 1..sp.end - 1] else ""
  }

  /** The post-processed text from `pointer` on, given the inference matches from the `k`-th on. */
  function PostprocessFrom(s: string, spans: seq<Span>, k: nat, pointer: nat): string
    requires SpansIn(s, spans) && k <= |spans| && pointer <= |s|
    requires k < |spans| ==> pointer <= spans[k].start
    decreases |spans| - k
  {
    if k == |spans| then Newlines(s[pointer..])
    else
      var sp := spans[k];
      assert k + 1 < |spans| ==> spans[k].end <= spans[k + 1].start;
      Newlines(s[pointer..sp.start]) + "\n" + Inner(s, sp) + "\n" + PostprocessFrom(s, spans, k + 1, sp.end)
  }

  /** One inference match's worth of `PostprocessFrom`. */
  lemma PostprocessStep(s: string, spans: seq<Span>, k: nat, pointer: nat)
    requires SpansIn(s, spans) && k < |spans| && pointer <= spans[k].start
    ensures spans[k].start <= spans[k].end <= |s|
    ensures k + 1 < |spans| ==> spans[k].end <= spans[k + 1].start
    ensures PostprocessFrom(s, spans, k, pointer) ==
      Newlines(s[pointer..spans[k].start]) + "\n" + Inner(s, spans[k]) + "\n" + PostprocessFrom(s, spans, k + 1, spans[k].end)
  {
  }

  /** The result of `postprocess_argdown` for the given inference matches. */
  function Postprocessed(s: string, finder: SpanFinder): string
  {
    PostprocessFrom(s, finder(s), 0, 0)
  }

  /** The loop of `postprocess_argdown` over the inference matches `spans` of `s`. */
  method PostprocessAtMatches(s: string, spans: seq<Span>) returns (r: string)
    requires SpansIn(s, spans)
    ensures r == PostprocessFrom(s, spans, 0, 0)
  {
    var pointer: nat := 0;
    r := "";
    for k := 0 to |spans|
      invariant pointer <= |s|
      invariant k < |spans| ==> pointer <= spans[k].start
      invariant r + PostprocessFrom(s, spans, k, pointer) == PostprocessFrom(s, spans, 0, 0)
    {
      var sp := spans[k];
      var segment := NewlinesBetweenPropositions(s[pointer..sp.start]);
      var piece := segment + "\n" + Inner(s, sp) + "\n";
      PostprocessStep(s, spans, k, pointer);
      ghost var rest := PostprocessFrom(s, spans, k + 1, sp.end);
      assert (r + piece) + rest == r + (piece + rest);
      r := r + piece;
      pointer := sp.end;
    }
    var tail := NewlinesBetweenPropositions(s[pointer..]);
    r := r + tail;
  }

  /** `postprocess_argdown`: line breaks around every inference and between the propositions in between. */
  method PostprocessArgdown(s: string, finder: SpanFinder) returns (r: string)
    ensures r == Postprocessed(s, finder)
  {
    r := PostprocessAtMatches(s, finder(s));
  }

  /** Every inference match is at least two characters long: it starts and ends with the whitespace it replaces. */
  predicate LongSpans(spans: seq<Span>)
  {
    forall k :: 0 <= k < |spans| ==> spans[k].end - spans[k].start >= 2
  }

  lemma {:induction false} PostprocessLength(s: string, spans: seq<Span>, k: nat, pointer: nat)
    requires SpansIn(s, spans) && LongSpans(spans) && k <= |spans| && pointer <= |s|
    requires k < |spans| ==> pointer <= spans[k].start
    ensures |PostprocessFrom(s, spans, k, pointer)| == |s| - pointer
    decreases |spans| - k
  {
    if k == |spans| {
      NewlinesLength(s[pointer..]);
    } else {
      var sp := spans[k];
      assert k + 1 < |spans| ==> spans[k].end <= spans[k + 1].start;
      NewlinesLength(s[pointer..sp.start]);
      PostprocessLength(s, spans, k + 1, sp.end);
    }
  }

  /** A character of a segment between inferences, after its line breaks are inserted, is the original one or a line break. */
  lemma NewlinesOnlyBreaks(x: string, j: int)
    requires 0 <= j < |x|
    ensures |Newlines(x)| == |x|
    ensures Newlines(x)[j] == x[j] || Newlines(x)[j] == '\n'
  {
    NewlinesAt(x, j);
  }

  /** The post-processed text as the segment before the `k`-th match, the match's replacement, and the rest. */
  lemma PostprocessPieces(s: string, spans: seq<Span>, k: nat, pointer: nat)
    requires SpansIn(s, spans) && k < |spans| && pointer <= spans[k].start
    ensures spans[k].start <= spans[k].end <= |s|
    ensures k + 1 < |spans| ==> spans[k].end <= spans[k + 1].start
    ensures PostprocessFrom(s, spans, k, pointer) ==
      Newlines(s[pointer..spans[k].start]) + ("\n" + Inner(s, spans[k]) + "\n") + PostprocessFrom(s, spans, k + 1, spans[k].end)
  {
    PostprocessStep(s, spans, k, pointer);
    Regroup(Newlines(s[pointer..spans[k].start]), Inner(s, spans[k]), PostprocessFrom(s, spans, k + 1, spans[k].end));
  }

  lemma Regroup(h: string, x: string, r: string)
    ensures h + "\n" + x + "\n" + r == h + ("\n" + x + "\n") + r
  {
  }

  lemma IndexLeft(h: string, m: string, r: string, n: int)
    requires 0 <= n < |h|
    ensures (h + m + r)[n] == h[n]
  {
  }

  lemma IndexMiddle(h: string, m: string, r: string, n: int)
    requires |h| <= n < |h| + |m|
    ensures (h + m + r)[n] == m[n - |h|]
  {
  }

  /** `PostprocessOnlyBreaksLines` for an index before the `k`-th inference match. */
  lemma PostprocessHeadAt(s: string, spans: seq<Span>, k: nat, pointer: nat, i: int)
    requires SpansIn(s, spans) && LongSpans(spans) && k < |spans| && pointer <= spans[k].start
    requires pointer <= i < spans[k].start
    ensures |PostprocessFrom(s, spans, k, pointer)| == |s| - pointer
    ensures PostprocessFrom(s, spans, k, pointer)[i - pointer] == s[i] || PostprocessFrom(s, spans, k, pointer)[i - pointer] == '\n'
  {
    PostprocessLength(s, spans, k, pointer);
    var segment := s[pointer..spans[k].start];
    var out := PostprocessFrom(s, spans, k, pointer);
    assert out[i - pointer] == segment[i - pointer] || out[i - pointer] == '\n' by {
      PostprocessPieces(s, spans, k, pointer);
      HeadOnlyBreaks(out, segment, "\n" + Inner(s, spans[k]) + "\n", PostprocessFrom(s, spans, k + 1, spans[k].end), i - pointer);
    }
    assert segment[i - pointer] == s[i];
  }

  /** A character of a text that starts with the line-broken `segment` is a line break or the segment's own. */
  lemma HeadOnlyBreaks(out: string, segment: string, mid: string, rest: string, j: int)
    requires out == Newlines(segment) + mid + rest && 0 <= j < |segment|
    ensures j < |out| && (out[j] == segment[j] || out[j] == '\n')
  {
    NewlinesOnlyBreaks(segment, j);
    IndexLeft(Newlines(segment), mid, rest, j);
  }

  /** `PostprocessOnlyBreaksLines` for an index inside the `k`-th inference match. */
  lemma PostprocessMidAt(s: string, spans: seq<Span>, k: nat, pointer: nat, i: int)
    requires SpansIn(s, spans) && LongSpans(spans) && k < |spans| && pointer <= spans[k].start
    requires spans[k].start <= i < spans[k].end
    ensures |PostprocessFrom(s, spans, k, pointer)| == |s| - pointer
    ensures PostprocessFrom(s, spans, k, pointer)[i - pointer] == s[i] || PostprocessFrom(s, spans, k, pointer)[i - pointer] == '\n'
  {
    PostprocessLength(s, spans, k, pointer);
    PostprocessPieces(s, spans, k, pointer);
    var sp := spans[k];
    var inner := Inner(s, sp);
    var mid := "\n" + inner + "\n";
    NewlinesLength(s[pointer..sp.start]);
    IndexMiddle(Newlines(s[pointer..sp.start]), mid, PostprocessFrom(s, spans, k + 1, sp.end), i - pointer);
    MarkedInner(s, sp, i);
  }

  /** A character of the replacement of a match is a line break or the original character. */
  lemma MarkedInner(s: string, sp: Span, i: int)
    requires 0 <= sp.start <= i < sp.end <= |s| && sp.end - sp.start >= 2
    ensures |"\n" + Inner(s, sp) + "\n"| == sp.end - sp.start
    ensures ("\n" + Inner(s, sp) + "\n")[i - sp.start] == s[i] || ("\n" + Inner(s, sp) + "\n")[i - sp.start] == '\n'
  {
    var j := i - sp.start;
    var inner := Inner(s, sp);
    if 0 < j < sp.end - sp.start - 1 {
      assert ("\n" + inner + "\n")[j] == inner[j - 1];
      assert inner[j - 1] == s[i];
    }
  }

  /**
   * When every inference match is at least two characters long (it starts and
   * ends with the whitespace it replaces), post-processing keeps the length and
   * only ever turns a character into a line break.
   */
  lemma {:induction false} PostprocessOnlyBreaksLines(s: string, spans: seq<Span>, k: nat, pointer: nat, i: int)
    requires SpansIn(s, spans) && LongSpans(spans) && k <= |spans| && pointer <= |s|
    requires k < |spans| ==> pointer <= spans[k].start
    requires pointer <= i < |s|
    ensures |PostprocessFrom(s, spans, k, pointer)| == |s| - pointer
    ensures PostprocessFrom(s, spans, k, pointer)[i - pointer] == s[i] || PostprocessFrom(s, spans, k, pointer)[i - pointer] == '\n'
    decreases |spans| - k, 1
  {
    PostprocessLength(s, spans, k, pointer);
    if k == |spans| {
      var tail := s[pointer..];
      NewlinesOnlyBreaks(tail, i - pointer);
      assert tail[i - pointer] == s[i];
    } else if i < spans[k].start {
      PostprocessHeadAt(s, spans, k, pointer, i);
    } else if i < spans[k].end {
      PostprocessMidAt(s, spans, k, pointer, i);
    } else {
      PostprocessRestAt(s, spans, k, pointer, i);
    }
  }

  /** `PostprocessOnlyBreaksLines` for an index past the `k`-th inference match. */
  lemma {:induction false} PostprocessRestAt(s: string, spans: seq<Span>, k: nat, pointer: nat, i: int)
    requires SpansIn(s, spans) && LongSpans(spans) && k < |spans| && pointer <= spans[k].start
    requires spans[k].end <= i < |s|
    ensures |PostprocessFrom(s, spans, k, pointer)| == |s| - pointer
    ensures PostprocessFrom(s, spans, k, pointer)[i - pointer] == s[i] || PostprocessFrom(s, spans, k, pointer)[i - pointer] == '\n'
    decreases |spans| - k, 0
  {
    var sp := spans[k];
    PostprocessLength(s, spans, k, pointer);
    PostprocessStep(s, spans, k, pointer);
    NewlinesLength(s[pointer..sp.start]);
    PostprocessOnlyBreaksLines(s, spans, k + 1, sp.end, i);
    var rest := PostprocessFrom(s, spans, k + 1, sp.end);
    var front := Newlines(s[pointer..sp.start]) + "\n" + Inner(s, sp) + "\n";
    assert |front| == sp.end - pointer;
    assert PostprocessFrom(s, spans, k, pointer)[i - pointer] == (front + rest)[i - pointer] == rest[i - sp.end];
  }
}
