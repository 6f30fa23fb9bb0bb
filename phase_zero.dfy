/**
 * The six handlers of reconstruction phase 0 (`phase_zero_handler.py`):
 * no cues yet, no reconstruction, an ill-formed reconstruction, a redundant
 * one, a conclusion that does not match it, and the catch-all. Each adds
 * one condition to the phase test, a feedback suffix and a list of options.
 *
 * As written, the six classes derive from the abstract handler rather than
 * from `PhaseZeroHandler`, so their `super().is_responsible` is the abstract
 * stub, which answers `None`; `ResponsibleAsWritten` models that, and
 * `Responsible` the documented rule that the model's chain uses.
 */
module PhaseZero {
  import opened Wrappers
  import opened Analysis
  import opened Inference
  import opened Metrics
  import opened InputOptions
  import opened Views

  datatype Kind = NoCues | NoArgd | IllfArgd | Redund | MismatchCA | CatchAll

  /** The condition each handler adds to the phase test, read on the incoming snapshot. */
  predicate Condition(kind: Kind, v: Incoming)
  {
    match kind
    case NoCues => |Present(v.item, CueFields)| == 0
    case NoArgd => !Filled(v.item, ArgdownReconstruction)
    case IllfArgd => !Holds(ScoreOf(v.metrics, ValidArgdown))
    case Redund => !Holds(ScoreOf(v.metrics, NoPetitio)) || !Holds(ScoreOf(v.metrics, NoRedundancy))
    case MismatchCA =>
      Filled(v.item, ArgdownReconstruction) && Filled(v.item, Conclusion) &&
      Holds(ScoreOf(v.metrics, ValidArgdown)) && !Holds(ScoreOf(v.metrics, ConclMatchesReco))
    case CatchAll => true
  }

  /** The documented rule: the analysis is in phase 0 and the handler's condition holds. */
  predicate Responsible(kind: Kind, v: Incoming)
  {
    v.phase == 0 && Condition(kind, v)
  }

  /** The abstract `is_responsible` of the base handler: its body is a docstring, so it answers `None`. */
  function AbstractIsResponsible(): Option<bool>
  {
    None
  }

  /** `is_responsible` as written: `super().is_responsible(request) and condition`, where `super()` is the abstract stub. */
  predicate ResponsibleAsWritten(kind: Kind, v: Incoming)
  {
    AbstractIsResponsible() == Some(true) && Condition(kind, v)
  }

  /** As written, no phase-0 handler ever answers, not even the catch-all on an analysis in phase 0. */
  lemma CatchAllSilentAsWritten(v: Incoming)
    requires v.phase == 0
    ensures Responsible(CatchAll, v) && !ResponsibleAsWritten(CatchAll, v)
  {
  }

  /** The catch-all answers exactly the analyses in phase 0, and each other handler a part of them. */
  lemma ResponsibleInPhaseZero(kind: Kind, v: Incoming)
    ensures Responsible(kind, v) ==> v.phase == 0
    ensures Responsible(CatchAll, v) <==> v.phase == 0
  {
  }

  /** `NoCues` answers exactly when none of conclusion, gist, context and source paraphrase is filled. */
  lemma NoCuesCondition(v: Incoming)
    ensures Condition(NoCues, v) <==>
      !Filled(v.item, Conclusion) && !Filled(v.item, Gist) && !Filled(v.item, Context) && !Filled(v.item, SourceParaphrase)
  {
    NothingPresent(v.item, CueFields);
  }

  const DefaultFeedback: string := "Default Feedback Phase Zero"

  const NoArgdRemark: string := "But there is no argument reconstruction."
  const IllfArgdRemark: string := "But the argument reconstruction is ill-formed (illegal argdown syntax)."
  const RedundRemark: string := "But your argument reconstruction is redundant (premises and/or conclusions occur more than once)."
  const MismatchRemark: string := "But the conclusion statement separately provided doesn't match your argument reconstruction."
  const CatchAllRemark: string := " Revise and expand so that your items better cohere."

  /** The remark each handler appends to the default feedback (none for `NoCues`). */
  function Remark(kind: Kind): string
  {
    match kind
    case NoCues => ""
    case NoArgd => NoArgdRemark
    case IllfArgd => IllfArgdRemark
    case Redund => RedundRemark
    case MismatchCA => MismatchRemark
    case CatchAll => CatchAllRemark
  }

  /** `get_feedback`: the default phase-0 feedback, with the handler's remark appended. */
  function Feedback(kind: Kind): (r: string)
    ensures |r| >= |DefaultFeedback| && r[..|DefaultFeedback|] == DefaultFeedback
    ensures kind == NoCues ==> r == DefaultFeedback
  {
    DefaultFeedback + Remark(kind)
  }

  /** `NoCues.get_input_options`: an empty text option for each cue field, in order. */
  function NoCuesOptions(tools: Tools): (r: seq<InputOption>)
    ensures |r| == 4
    ensures forall i :: 0 <= i < 4 ==>
      r[i].TextOption? && r[i].field == CueFields[i] && r[i].initialText == Some("") &&
      r[i].question == Some("Please enter a " + FieldName(CueFields[i]) + ".")
  {
    TextOptions(tools.ext.layout, CueFields, None, false)
  }

  /** `NoArgd.get_input_options`: the reconstruction, then each cue field, pre-filled from the revised item. */
  function NoArgdOptions(tools: Tools, rev: Revised): (r: seq<InputOption>)
    ensures |r| == 5
    ensures r[0] == TextOptionFor(tools.ext.layout, ArgdownReconstruction, Some(rev.item), true)
    ensures forall i :: 0 <= i < |CueFields| ==> r[i + 1] == TextOptionFor(tools.ext.layout, CueFields[i], Some(rev.item), true)
  {
    TextOptions(tools.ext.layout, [ArgdownReconstruction] + CueFields, Some(rev.item), true)
  }

  /** `IllfArgd` and `Redund`: one option, the reconstruction pre-filled from the revised item. */
  function ReconstructionOption(tools: Tools, rev: Revised): (r: seq<InputOption>)
    ensures r == [TextOptionFor(tools.ext.layout, ArgdownReconstruction, Some(rev.item), true)]
  {
    TextOptions(tools.ext.layout, [ArgdownReconstruction], Some(rev.item), true)
  }

  /**
   * The parse `MismatchCA` takes its conclusion from: the cached parse, else
   * a fresh parse of the reconstruction (of the empty text when there is
   * none); without a parse, reading its statements raises.
   */
  function ParsedForMismatch(tools: Tools, rev: Revised): (r: Result<Argument, Fault>)
    ensures LayoutArgument(rev.cache).Some? ==> r == Success(LayoutArgument(rev.cache).value)
    ensures r.Failure? ==> r.error == AttributeError("statements")
  {
    var cached := LayoutArgument(rev.cache);
    if cached.Some? then Success(cached.value)
    else
      match tools.ext.parseArgdown(rev.item.argdownReconstruction.GetOr(""))
      case Some(a) => Success(a)
      case None => Failure(AttributeError("statements"))
  }

  const TakeContext: string := "Conclusion in argument reconstruction: "
  const TakeQuestion: string := "Do you want to use this conclusion?"
  const AdoptContext: string := "SEPPL has come up with its own reconstruction:\n "
  const AdoptQuestion: string := "Do you want to adopt this reconstruction and further improve it?"

  /** The choice to take over the reconstruction's conclusion as the conclusion statement. */
  function TakeConclusion(concl: string): (r: InputOption)
    ensures r.ChoiceOption? && r.field == Conclusion && r.answers == [("yes", concl)] && r.rater.None?
  {
    ChoiceOption([TakeContext + concl], Some(TakeQuestion),
                 Conclusion, [("yes", concl)], None)
  }

  /** The choice to adopt a generated reconstruction, carrying the generation's rater. */
  function AdoptReconstruction(alt: string, rater: Option<InferenceRater>): (r: InputOption)
    ensures r.ChoiceOption? && r.field == ArgdownReconstruction && r.answers == [("yes", alt)] && r.rater == rater
  {
    ChoiceOption([AdoptContext + alt], Some(AdoptQuestion), ArgdownReconstruction, [("yes", alt)], rater)
  }

  /** The conclusion `MismatchCA` offers: the text of the parse's last statement. */
  function LastConclusion(a: Argument): string
  {
    a[|a| - 1].text
  }

  /**
   * The options `MismatchCA` assembles from the reconstruction's conclusion
   * and the generation's answer: the choice to take over the conclusion; the
   * choice to adopt the generated reconstruction, when it is not empty; then
   * text options for conclusion and reconstruction.
   */
  function MismatchAssembled(layout: Item -> Field -> Option<string>, item: Item, concl: string,
                             alt: Option<string>, rater: Option<InferenceRater>): (r: seq<InputOption>)
    ensures var extra := if Truthful(alt) then 1 else 0;
      |r| == 3 + extra &&
      r[0] == TakeConclusion(concl) &&
      (Truthful(alt) ==> r[1] == AdoptReconstruction(alt.value, rater)) &&
      r[1 + extra] == TextOptionFor(layout, Conclusion, Some(item), true) &&
      r[2 + extra] == TextOptionFor(layout, ArgdownReconstruction, Some(item), true)
  {
    var adopt := if Truthful(alt) then [AdoptReconstruction(alt.value, rater)] else [];
    [TakeConclusion(concl)] + adopt + TextOptions(layout, [Conclusion, ArgdownReconstruction], Some(item), true)
  }

  /**
   * `MismatchCA.get_input_options`: the options assembled from the parse's
   * last statement and the model's answer to mode `s+c => a`; a missing
   * parse or a failed generation raises.
   */
  function MismatchOptions(tools: Tools, gen: Generator, rev: Revised): (r: Result<seq<InputOption>, Fault>)
    ensures ParsedForMismatch(tools, rev).Failure? ==> r == Failure(ParsedForMismatch(tools, rev).error)
    ensures ParsedForMismatch(tools, rev).Success? ==>
      match gen(tools.modeFromKeys("s+c => a"))
      case Failure(e) => r == Failure(e)
      case Success(g) =>
        r == Success(MismatchAssembled(tools.ext.layout, rev.item, LastConclusion(ParsedForMismatch(tools, rev).value), g.0, g.1))
  {
    match ParsedForMismatch(tools, rev)
    case Failure(e) => Failure(e)
    case Success(a) =>
      match gen(tools.modeFromKeys("s+c => a"))
      case Failure(e) => Failure(e)
      case Success((alt, rater)) => Success(MismatchAssembled(tools.ext.layout, rev.item, LastConclusion(a), alt, rater))
  }

  /** The generation mode of the catch-all: a reconstruction from the source text and the filled cues. */
  function CatchAllMode(item: Item): (m: GenerativeMode)
    ensures m.target == "argdown_reconstruction"
    ensures m.input == ["source_text"] + FilledNames(item, CueFields)
  {
    GenerativeMode("argdown_reconstruction", ["source_text"] + FilledNames(item, CueFields))
  }

  const GeneratedContext: string := "Based on your hints, SEPPL has come up with an alternative reconstruction. Feel free to adapt it."

  /** The text option offering a generated reconstruction to adapt. */
  function GeneratedReconstruction(alt: Option<string>, rater: Option<InferenceRater>): (r: InputOption)
    ensures r.TextOption? && r.field == ArgdownReconstruction && r.initialText == alt && r.rater == rater && r.question.None?
  {
    TextOption([GeneratedContext], None, ArgdownReconstruction, alt, rater)
  }

  /**
   * The options the catch-all assembles from the generation's answer: the
   * generated reconstruction, when it is not empty; then the reconstruction
   * and every cue field, pre-filled from the revised item.
   */
  function CatchAllAssembled(layout: Item -> Field -> Option<string>, item: Item,
                             alt: Option<string>, rater: Option<InferenceRater>): (r: seq<InputOption>)
    ensures var extra := if Truthful(alt) then 1 else 0;
      |r| == 5 + extra &&
      (Truthful(alt) ==> r[0] == GeneratedReconstruction(alt, rater)) &&
      r[extra..] == TextOptions(layout, [ArgdownReconstruction] + CueFields, Some(item), true)
  {
    var generated := if Truthful(alt) then [GeneratedReconstruction(alt, rater)] else [];
    var manual := TextOptions(layout, [ArgdownReconstruction] + CueFields, Some(item), true);
    assert (generated + manual)[|generated|..] == manual;
    generated + manual
  }

  /** `CatchAll.get_input_options`: the options assembled from the model's answer; a failed generation raises. */
  function CatchAllOptions(tools: Tools, gen: Generator, rev: Revised): (r: Result<seq<InputOption>, Fault>)
    ensures match gen(CatchAllMode(rev.item))
      case Failure(e) => r == Failure(e)
      case Success(g) => r == Success(CatchAllAssembled(tools.ext.layout, rev.item, g.0, g.1))
  {
    match gen(CatchAllMode(rev.item))
    case Failure(e) => Failure(e)
    case Success((alt, rater)) => Success(CatchAllAssembled(tools.ext.layout, rev.item, alt, rater))
  }

  /** `get_input_options` of each handler. */
  function Options(kind: Kind, tools: Tools, gen: Generator, rev: Revised): Result<seq<InputOption>, Fault>
  {
    match kind
    case NoCues => Success(NoCuesOptions(tools))
    case NoArgd => Success(NoArgdOptions(tools, rev))
    case IllfArgd | Redund => Success(ReconstructionOption(tools, rev))
    case MismatchCA => MismatchOptions(tools, gen, rev)
    case CatchAll => CatchAllOptions(tools, gen, rev)
  }
}
