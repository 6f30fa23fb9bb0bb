/**
 * The four handlers of reconstruction phase 1 (`phase_one_handler.py`):
 * no reasons or conjectures yet, reasons or conjectures that do not refer
 * to the reconstruction, and the catch-all. Each adds one condition to the
 * phase test, a feedback remark and a list of options.
 */
module PhaseOne {
  import opened Wrappers
  import opened Analysis
  import opened Inference
  import opened Metrics
  import opened InputOptions
  import opened Views

  datatype Kind = NoRJ | RNotAlgn | JNotAlgn | CatchAll

  /** The condition each handler adds to the phase test. */
  predicate Condition(kind: Kind, v: Incoming)
  {
    match kind
    case NoRJ => !Filled(v.item, Reasons) && !Filled(v.item, Conjectures)
    case RNotAlgn => Filled(v.item, ArgdownReconstruction) && Filled(v.item, Reasons) && !Holds(ScoreOf(v.metrics, ReasonsAligned))
    case JNotAlgn =>
      Filled(v.item, ArgdownReconstruction) && Filled(v.item, Conjectures) && !Holds(ScoreOf(v.metrics, ConjecturesAligned))
    case CatchAll => true
  }

  /** `is_responsible`: the analysis is in phase 1 and the handler's condition holds. */
  predicate Responsible(kind: Kind, v: Incoming)
  {
    v.phase == 1 && Condition(kind, v)
  }

  /** The catch-all answers exactly the analyses in phase 1; no phase-1 handler answers outside phase 1. */
  lemma ResponsibleInPhaseOne(kind: Kind, v: Incoming)
    ensures Responsible(kind, v) ==> v.phase == 1
    ensures Responsible(CatchAll, v) <==> v.phase == 1
  {
  }

  /**
   * The conditions of the two alignment handlers and of `NoRJ` exclude each
   * other: a handler for unaligned quotes needs some quotes.
   */
  lemma NoRJExcludesAlignment(v: Incoming)
    ensures Condition(NoRJ, v) ==> !Condition(RNotAlgn, v) && !Condition(JNotAlgn, v)
  {
  }

  const DefaultFeedback: string := "Default Feedback Phase One."
  const RNotAlgnRemark: string := " But the reason statements identified don't refer to premises in your argument reconstruction."
  const JNotAlgnRemark: string := " But the conjecture statements identified don't refer to premises in your argument reconstruction."
  const CatchAllRemark: string :=
    " Revise and expand so that your reasons and conjectures better cohere with the rest of the analysis (esp. argument reconstruction)."

  /** The remark each handler appends to the default feedback; `NoRJ` keeps the default. */
  function Remark(kind: Kind): string
  {
    match kind
    case NoRJ => ""
    case RNotAlgn => RNotAlgnRemark
    case JNotAlgn => JNotAlgnRemark
    case CatchAll => CatchAllRemark
  }

  /** `get_feedback`: the default phase-1 feedback, with the handler's remark appended. */
  function Feedback(kind: Kind): (r: string)
    ensures |r| >= |DefaultFeedback| && r[..|DefaultFeedback|] == DefaultFeedback
    ensures kind == NoRJ ==> r == DefaultFeedback
  {
    DefaultFeedback + Remark(kind)
  }

  // ---------------------------------------------------------------------
  // NoRJ: generated quotes for reasons and conjectures
  // ---------------------------------------------------------------------

  /** The two rounds of `NoRJ`: the quote field and the angle of the generation mode. */
  const QuoteRoundsOrder: seq<(Field, string)> := [(Reasons, "r"), (Conjectures, "j")]

  /** The question of a generated quote option. */
  function AddOrRevise(field: Field): string
  {
    "Please add or revise " + FieldName(field) + "."
  }

  /** The generation of a round: mode `s+a => r` for reasons, `s+a => j` for conjectures. */
  function RoundGeneration(tools: Tools, gen: Generator, rev: Revised, angle: string): Result<(Option<string>, Option<InferenceRater>), Fault>
  {
    gen(tools.modeFromKeys("s+a => " + angle))
  }

  /** The quote option of a round, built from the quotes it uses and the generation's rater. */
  function RoundOption(field: Field, source: string, quotes: seq<Quote>, rater: Option<InferenceRater>): (r: InputOption)
    ensures r.QuoteOption? && r.field == field && r.sourceText == source && r.initialQuotes == quotes
    ensures r.question == Some(AddOrRevise(field)) && r.rater == rater
  {
    NewQuoteOption(AddOrRevise(field), field, source, None, quotes, rater)
  }

  /**
   * The quotes a round uses: those parsed from the generated text, if there
   * is one; otherwise the quotes of the previous round (`None` when there is
   * none, as the variable is then unbound).
   */
  function RoundQuotes(parse: string -> seq<Quote>, generated: Option<string>, previous: Option<seq<Quote>>): (r: Option<seq<Quote>>)
    ensures generated.Some? ==> r == Some(parse(generated.value))
    ensures generated.None? ==> r == previous
  {
    if generated.Some? then Some(parse(generated.value)) else previous
  }

  /**
   * The options the remaining rounds produce, given the quotes left by the
   * previous round: a failed generation raises, and so does a round without
   * generated text when no earlier round left quotes.
   */
  function QuoteRounds(tools: Tools, gen: Generator, rev: Revised, rounds: seq<(Field, string)>, previous: Option<seq<Quote>>)
    : (r: Result<seq<InputOption>, Fault>)
    ensures r.Success? ==> |r.value| == |rounds|
    decreases |rounds|
  {
    if |rounds| == 0 then Success([])
    else
      var (field, angle) := rounds[0];
      match RoundGeneration(tools, gen, rev, angle)
      case Failure(e) => Failure(e)
      case Success((text, rater)) =>
        var quotes := RoundQuotes(tools.ext.parseQuotes, text, previous);
        if quotes.None? then Failure(UnboundLocalError("quotes"))
        else
          var option := RoundOption(field, rev.item.sourceText, quotes.value, rater);
          match QuoteRounds(tools, gen, rev, rounds[1..], quotes)
          case Failure(e) => Failure(e)
          case Success(rest) => Success([option] + rest)
  }

  /** `options` followed by the outcome of the remaining rounds. */
  function After(options: seq<InputOption>, r: Result<seq<InputOption>, Fault>): Result<seq<InputOption>, Fault>
  {
    match r
    case Failure(e) => Failure(e)
    case Success(rest) => Success(options + rest)
  }

  /** One round of `QuoteRounds`, unfolded. */
  lemma RoundUnfold(tools: Tools, gen: Generator, rev: Revised, rounds: seq<(Field, string)>, previous: Option<seq<Quote>>)
    requires |rounds| > 0
    ensures var g := RoundGeneration(tools, gen, rev, rounds[0].1);
      var r := QuoteRounds(tools, gen, rev, rounds, previous);
      (g.Failure? ==> r == Failure(g.error)) &&
      (g.Success? ==>
        var q := RoundQuotes(tools.ext.parseQuotes, g.value.0, previous);
        (q.None? ==> r == Failure(UnboundLocalError("quotes"))) &&
        (q.Some? ==> r == After([RoundOption(rounds[0].0, rev.item.sourceText, q.value, g.value.1)],
                                QuoteRounds(tools, gen, rev, rounds[1..], q))))
  {
  }

  /** Appending in two steps is appending once. */
  lemma AfterAfter(a: seq<InputOption>, b: seq<InputOption>, r: Result<seq<InputOption>, Fault>)
    ensures After(a, After(b, r)) == After(a + b, r)
  {
    if r.Success? {
      assert a + (b + r.value) == a + b + r.value;
    }
  }

  /** Nothing before the outcome leaves it as it is. */
  lemma AfterNothing(r: Result<seq<InputOption>, Fault>)
    ensures After([], r) == r
  {
    if r.Success? {
      assert [] + r.value == r.value;
    }
  }

  /** The loop of `NoRJ.get_input_options`: one generated quote option per round, in order. */
  method QuoteRoundOptions(tools: Tools, gen: Generator, rev: Revised, rounds: seq<(Field, string)>) returns (r: Result<seq<InputOption>, Fault>)
    ensures r == QuoteRounds(tools, gen, rev, rounds, None)
  {
    var options: seq<InputOption> := [];
    var quotes: Option<seq<Quote>> := None;
    AfterNothing(QuoteRounds(tools, gen, rev, rounds, None));
    for i := 0 to |rounds|
      invariant QuoteRounds(tools, gen, rev, rounds, None) == After(options, QuoteRounds(tools, gen, rev, rounds[i..], quotes))
    {
      RoundUnfold(tools, gen, rev, rounds[i..], quotes);
      assert rounds[i..][1..] == rounds[i + 1..];
      var (field, angle) := rounds[i];
      var g := RoundGeneration(tools, gen, rev, angle);
      if g.Failure? {
        return Failure(g.error);
      }
      var (text, rater) := g.value;
      if text.Some? {
        quotes := Some(tools.ext.parseQuotes(text.value));
      }
      if quotes.None? {
        return Failure(UnboundLocalError("quotes"));
      }
      var option := RoundOption(field, rev.item.sourceText, quotes.value, rater);
      AfterAfter(options, [option], QuoteRounds(tools, gen, rev, rounds[i + 1..], quotes));
      options := options + [option];
    }
    assert rounds[|rounds|..] == [];
    assert options + [] == options;
    r := Success(options);
  }

  /** `NoRJ.get_input_options`: one generated quote option for reasons, then one for conjectures. */
  method NoRJOptions(tools: Tools, gen: Generator, rev: Revised) returns (r: Result<seq<InputOption>, Fault>)
    ensures r == QuoteRounds(tools, gen, rev, QuoteRoundsOrder, None)
  {
    r := QuoteRoundOptions(tools, gen, rev, QuoteRoundsOrder);
  }

  /**
   * What two rounds offer: an option for the first field and one for the
   * second, each with the quotes parsed from its own generation; when the
   * second generation has no text, the second option repeats the first one's
   * quotes, and when the first generation has none, the handler raises.
   */
  lemma {:induction false} TwoRoundsQuotes(tools: Tools, gen: Generator, rev: Revised, rounds: seq<(Field, string)>)
    requires |rounds| == 2
    ensures var r := QuoteRounds(tools, gen, rev, rounds, None);
      var g := RoundGeneration(tools, gen, rev, rounds[0].1);
      var h := RoundGeneration(tools, gen, rev, rounds[1].1);
      (g.Success? && g.value.0.None? ==> r == Failure(UnboundLocalError("quotes"))) &&
      (r.Success? ==>
        g.Success? && h.Success? && g.value.0.Some? &&
        var first := tools.ext.parseQuotes(g.value.0.value);
        var second := if h.value.0.Some? then tools.ext.parseQuotes(h.value.0.value) else first;
        r.value == [RoundOption(rounds[0].0, rev.item.sourceText, first, g.value.1),
                    RoundOption(rounds[1].0, rev.item.sourceText, second, h.value.1)])
  {
    RoundUnfold(tools, gen, rev, rounds, None);
    var g := RoundGeneration(tools, gen, rev, rounds[0].1);
    if g.Success? && g.value.0.Some? {
      var q := Some(tools.ext.parseQuotes(g.value.0.value));
      assert rounds[1..][0] == rounds[1];
      assert rounds[1..][1..] == [];
      RoundUnfold(tools, gen, rev, rounds[1..], q);
    }
  }

  // ---------------------------------------------------------------------
  // RNotAlgn, JNotAlgn: revise the unaligned quotes
  // ---------------------------------------------------------------------

  const ReasonsQuestion: string := "Please add or revise reasons given you argument reconstruction."
  const ConjecturesQuestion: string := "Please add or revise conjectures given you argument reconstruction."

  /**
   * `RNotAlgn` and `JNotAlgn`: a quote option holding the item's current
   * quotes of the unaligned field, then the reconstruction, pre-filled.
   */
  function AlignmentOptions(tools: Tools, rev: Revised, field: Field): (r: seq<InputOption>)
    requires field in {Reasons, Conjectures}
    ensures |r| == 2
    ensures r[0].QuoteOption? && r[0].field == field && r[0].sourceText == rev.item.sourceText
    ensures r[0].initialQuotes == QuotesIn(rev.item, field) && r[0].rater.None?
    ensures r[0].question == Some(if field == Reasons then ReasonsQuestion else ConjecturesQuestion)
    ensures r[1] == TextOptionFor(tools.ext.layout, ArgdownReconstruction, Some(rev.item), true)
  {
    var question := if field == Reasons then ReasonsQuestion else ConjecturesQuestion;
    [NewQuoteOption(question, field, rev.item.sourceText, None, QuotesIn(rev.item, field), None)] +
    TextOptions(tools.ext.layout, [ArgdownReconstruction], Some(rev.item), true)
  }

  // ---------------------------------------------------------------------
  // CatchAll: a generated reconstruction, then every quote and text field
  // ---------------------------------------------------------------------

  const QuoteFields: seq<Field> := [Reasons, Conjectures]

  /** The generation mode of the catch-all: a reconstruction from the source text, the filled quote fields and the filled cues. */
  function CatchAllMode(item: Item): (m: GenerativeMode)
    ensures m.target == "argdown_reconstruction"
    ensures m.input == ["source_text"] + FilledNames(item, QuoteFields) + FilledNames(item, CueFields)
  {
    GenerativeMode("argdown_reconstruction", ["source_text"] + FilledNames(item, QuoteFields) + FilledNames(item, CueFields))
  }

  const GeneratedContext: string := "Based on your hints, SEPPL has come up with an alternative reconstruction. Feel free to adapt it."

  /** The text option offering a generated reconstruction to adapt. */
  function GeneratedReconstruction(alt: string, rater: Option<InferenceRater>): (r: InputOption)
    ensures r.TextOption? && r.field == ArgdownReconstruction && r.initialText == Some(alt) && r.rater == rater
  {
    TextOption([GeneratedContext], None, ArgdownReconstruction, Some(alt), rater)
  }

  /** The reconstruction the catch-all offers: the generated text with line breaks inserted, if there is one. */
  function Alternative(finder: SpanFinder, generated: Option<string>): (r: Option<string>)
    ensures generated.None? <==> r.None?
    ensures generated.Some? ==> r == Some(Postprocessed(generated.value, finder))
  {
    if generated.Some? then Some(Postprocessed(generated.value, finder)) else None
  }

  /**
   * The options the catch-all assembles from the postprocessed generation:
   * the generated reconstruction when it is not empty, a pre-filled quote
   * option for reasons and for conjectures, and the reconstruction and every
   * cue field, pre-filled.
   */
  function CatchAllAssembled(layout: Item -> Field -> Option<string>, item: Item,
                             alt: Option<string>, rater: Option<InferenceRater>): (r: seq<InputOption>)
    ensures var extra := if Truthful(alt) then 1 else 0;
      |r| == 7 + extra &&
      (Truthful(alt) ==> r[0] == GeneratedReconstruction(alt.value, rater)) &&
      r[extra] == QuoteOptionFor(Reasons, item, true) &&
      r[extra + 1] == QuoteOptionFor(Conjectures, item, true) &&
      r[extra + 2..] == TextOptions(layout, [ArgdownReconstruction] + CueFields, Some(item), true)
  {
    var offered := if Truthful(alt) then [GeneratedReconstruction(alt.value, rater)] else [];
    var quotes := QuoteOptions(QuoteFields, Some(item), true).value;
    assert quotes[0] == QuoteOptionFor(Reasons, item, true) && quotes[1] == QuoteOptionFor(Conjectures, item, true);
    var texts := TextOptions(layout, [ArgdownReconstruction] + CueFields, Some(item), true);
    var r := offered + quotes + texts;
    assert r[|offered|] == quotes[0] && r[|offered| + 1] == quotes[1];
    assert r[|offered| + 2..] == texts;
    r
  }

  /**
   * `CatchAll.get_input_options`: the options assembled from the model's
   * answer, its text postprocessed; a failed generation raises.
   */
  function CatchAllOptions(tools: Tools, gen: Generator, rev: Revised): (r: Result<seq<InputOption>, Fault>)
    ensures match gen(CatchAllMode(rev.item))
      case Failure(e) => r == Failure(e)
      case Success(g) =>
        r == Success(CatchAllAssembled(tools.ext.layout, rev.item, Alternative(tools.ext.inferenceSpans, g.0), g.1))
  {
    match gen(CatchAllMode(rev.item))
    case Failure(e) => Failure(e)
    case Success((text, rater)) =>
      Success(CatchAllAssembled(tools.ext.layout, rev.item, Alternative(tools.ext.inferenceSpans, text), rater))
  }
}
