/**
 * The deep argument analysis item (deepa2's `DeepA2Item`) the tutor works
 * on, the parsed forms of its reconstruction and formalizations, and the
 * collaborators from the deepa2 library and the Prover9 prover that the
 * core calls but that are not part of this model.
 */
module Analysis {
  import opened Wrappers

  /** A quote of the source text (`QuotedStatement`); `startsAt` is -1 when not known. */
  datatype Quote = Quote(text: string, refReco: int, startsAt: int)

  /** A proposition stored in the item (`ArgdownStatement`), with the label it has in the reconstruction. */
  datatype Proposition = Proposition(text: string, refReco: int)

  /** A first-order formula given as text, with the label of the statement it formalizes. */
  datatype Formalization = Formalization(form: string, refReco: int)

  /** A placeholder key and what it stands for. */
  datatype Substitution = Substitution(key: string, value: string)

  /** One statement of a parsed reconstruction: its number `(n)`, whether it is inferred, and the labels it is inferred from. */
  datatype Statement = Statement(number: int, isConclusion: bool, uses: seq<int>, text: string)

  /** A parsed reconstruction; the parser yields at least one statement or no argument at all. */
  type Argument = s: seq<Statement> | |s| > 0 witness [Statement(1, false, [], "")]

  /** A parsed first-order formula. */
  datatype Formula = Formula(repr: string)

  /**
   * The fields of an item. An absent source text is the empty string; an
   * absent list and an empty list are the same value.
   */
  datatype Item = Item(
    sourceText: string,
    title: Option<string>,
    gist: Option<string>,
    sourceParaphrase: Option<string>,
    context: Option<string>,
    argdownReconstruction: Option<string>,
    erroneousArgdown: Option<string>,
    reasons: seq<Quote>,
    conjectures: seq<Quote>,
    premises: seq<Proposition>,
    intermediaryConclusions: seq<Proposition>,
    conclusion: seq<Proposition>,
    premisesFormalized: seq<Formalization>,
    intermediaryConclusionsFormalized: seq<Formalization>,
    conclusionFormalized: seq<Formalization>,
    plchdSubstitutions: seq<Substitution>,
    distractors: seq<string>)

  /** `DeepA2Item(source_text=...)`: every other field empty. */
  function NewItem(sourceText: string): (r: Item)
    ensures r.sourceText == sourceText
    ensures forall f :: f != SourceText ==> !Truthy(Get(r, f))
  {
    Item(sourceText, None, None, None, None, None, None, [], [], [], [], [], [], [], [], [], [])
  }

  datatype Field =
    | SourceText | Title | Gist | SourceParaphrase | Context
    | ArgdownReconstruction | ErroneousArgdown
    | Reasons | Conjectures
    | Premises | IntermediaryConclusions | Conclusion
    | PremisesFormalized | IntermediaryConclusionsFormalized | ConclusionFormalized
    | PlchdSubstitutions | Distractors

  /** The attribute name of a field. */
  function FieldName(f: Field): string
  {
    match f
    case SourceText => "source_text"
    case Title => "title"
    case Gist => "gist"
    case SourceParaphrase => "source_paraphrase"
    case Context => "context"
    case ArgdownReconstruction => "argdown_reconstruction"
    case ErroneousArgdown => "erroneous_argdown"
    case Reasons => "reasons"
    case Conjectures => "conjectures"
    case Premises => "premises"
    case IntermediaryConclusions => "intermediary_conclusions"
    case Conclusion => "conclusion"
    case PremisesFormalized => "premises_formalized"
    case IntermediaryConclusionsFormalized => "intermediary_conclusions_formalized"
    case ConclusionFormalized => "conclusion_formalized"
    case PlchdSubstitutions => "plchd_substitutions"
    case Distractors => "distractors"
  }

  /** The cue fields a student may fill before reconstructing: conclusion, gist, context, source paraphrase. */
  const CueFields: seq<Field> := [Conclusion, Gist, Context, SourceParaphrase]

  /** The formalization fields: premises, intermediary conclusions, conclusion. */
  const FormFields: seq<Field> := [PremisesFormalized, IntermediaryConclusionsFormalized, ConclusionFormalized]

  /** The value of one field, whatever its type. */
  datatype Value =
    | Text(text: Option<string>)
    | Quotes(quotes: seq<Quote>)
    | Propositions(propositions: seq<Proposition>)
    | Formalizations(formalizations: seq<Formalization>)
    | Substitutions(substitutions: seq<Substitution>)
    | Strings(strings: seq<string>)

  /** Python truthiness of a field value: neither `None` nor empty. */
  predicate Truthy(v: Value)
  {
    match v
    case Text(t) => t.Some? && |t.value| > 0
    case Quotes(q) => |q| > 0
    case Propositions(p) => |p| > 0
    case Formalizations(f) => |f| > 0
    case Substitutions(s) => |s| > 0
    case Strings(s) => |s| > 0
  }

  /** `getattr(item, field)`. */
  function Get(item: Item, f: Field): Value
  {
    match f
    case SourceText => Text(Some(item.sourceText))
    case Title => Text(item.title)
    case Gist => Text(item.gist)
    case SourceParaphrase => Text(item.sourceParaphrase)
    case Context => Text(item.context)
    case ArgdownReconstruction => Text(item.argdownReconstruction)
    case ErroneousArgdown => Text(item.erroneousArgdown)
    case Reasons => Quotes(item.reasons)
    case Conjectures => Quotes(item.conjectures)
    case Premises => Propositions(item.premises)
    case IntermediaryConclusions => Propositions(item.intermediaryConclusions)
    case Conclusion => Propositions(item.conclusion)
    case PremisesFormalized => Formalizations(item.premisesFormalized)
    case IntermediaryConclusionsFormalized => Formalizations(item.intermediaryConclusionsFormalized)
    case ConclusionFormalized => Formalizations(item.conclusionFormalized)
    case PlchdSubstitutions => Substitutions(item.plchdSubstitutions)
    case Distractors => Strings(item.distractors)
  }

  /** The field is non-empty in the item. */
  predicate Filled(item: Item, f: Field)
  {
    Truthy(Get(item, f))
  }

  /** A value of the right type for the field. */
  predicate Fits(f: Field, v: Value)
  {
    match f
    case SourceText => v.Text? && v.text.Some?
    case Title | Gist | SourceParaphrase | Context | ArgdownReconstruction | ErroneousArgdown => v.Text?
    case Reasons | Conjectures => v.Quotes?
    case Premises | IntermediaryConclusions | Conclusion => v.Propositions?
    case PremisesFormalized | IntermediaryConclusionsFormalized | ConclusionFormalized => v.Formalizations?
    case PlchdSubstitutions => v.Substitutions?
    case Distractors => v.Strings?
  }

  /** `setattr(item, field, value)`: the field takes the value and every other field keeps its own. */
  function Set(item: Item, f: Field, v: Value): (r: Item)
    requires Fits(f, v)
    ensures Get(r, f) == v
    ensures forall g :: g != f ==> Get(r, g) == Get(item, g)
  {
    match f
    case SourceText => item.(sourceText := v.text.value)
    case Title => item.(title := v.text)
    case Gist => item.(gist := v.text)
    case SourceParaphrase => item.(sourceParaphrase := v.text)
    case Context => item.(context := v.text)
    case ArgdownReconstruction => item.(argdownReconstruction := v.text)
    case ErroneousArgdown => item.(erroneousArgdown := v.text)
    case Reasons => item.(reasons := v.quotes)
    case Conjectures => item.(conjectures := v.quotes)
    case Premises => item.(premises := v.propositions)
    case IntermediaryConclusions => item.(intermediaryConclusions := v.propositions)
    case Conclusion => item.(conclusion := v.propositions)
    case PremisesFormalized => item.(premisesFormalized := v.formalizations)
    case IntermediaryConclusionsFormalized => item.(intermediaryConclusionsFormalized := v.formalizations)
    case ConclusionFormalized => item.(conclusionFormalized := v.formalizations)
    case PlchdSubstitutions => item.(plchdSubstitutions := v.substitutions)
    case Distractors => item.(distractors := v.strings)
  }

  /** A user's input: the new value of one named field. */
  datatype UserInput = UserInput(field: Field, value: Value)

  /** A metric's score: `None` when undefined. */
  type Score = Option<real>

  /** A matched region `[start, end)` of a string. */
  datatype Span = Span(start: int, end: int)

  /** Regions of `s` in left-to-right order that do not overlap, as `re.finditer` yields them. */
  predicate SpansIn(s: string, spans: seq<Span>)
  {
    (forall k :: 0 <= k < |spans| ==> 0 <= spans[k].start <= spans[k].end <= |s|) &&
    (forall j, k :: 0 <= j < k < |spans| ==> spans[j].end <= spans[k].start)
  }

  /** A regular-expression search over a whole string. */
  type SpanFinder = f: string -> seq<Span> | forall s :: SpansIn(s, f(s)) witness (s: string) => []

  /**
   * The deepa2 and Prover9 functions the core calls: the argdown and
   * first-order parsers, the argdown checks of `metrics.ArgdownHandler`, the
   * prover, the layouter (every field rendered as text or `None`), the
   * matches of the argdown inference pattern, and the quote parser.
   */
  datatype Externals = Externals(
    parseArgdown: string -> Option<Argument>,
    parseAsFolf: seq<Formalization> -> seq<Option<Formula>>,
    validArgdown: Option<Argument> -> Score,
    pcStructure: Option<Argument> -> Score,
    consistentUsage: Option<Argument> -> Score,
    noPetitio: Option<Argument> -> Score,
    noRedundancy: Option<Argument> -> Score,
    prove: (Option<Formula>, seq<Option<Formula>>) -> bool,
    layout: Item -> Field -> Option<string>,
    inferenceSpans: SpanFinder,
    parseQuotes: string -> seq<Quote>)

  /** The exceptions the core raises, as values. */
  datatype Fault =
    | StopIteration
    | ZeroDivisionError
    | KeyError(key: string)
    | AttributeError(name: string)
    | TypeError
    | IndexError
    | ValueError
    | UnboundLocalError(name: string)
    | RecursionError
}
