/**
 * The four handlers of reconstruction phase 2 (`phase_two_handler.py`):
 * premises and intermediary conclusions used inconsistently, an incomplete
 * formalization, unaligned conjectures, and the catch-all, whose feedback
 * lists what the formalization still lacks.
 */
module PhaseTwo {
  import opened Wrappers
  import opened Analysis
  import opened Inference
  import opened Metrics
  import opened InputOptions
  import opened Views
  import PhaseOne

  datatype Kind = NoConsUsg | NoCompleteForm | IllfForm | CatchAll

  /** The condition each handler adds to the phase test. */
  predicate Condition(kind: Kind, v: Incoming)
  {
    match kind
    case NoConsUsg => !Holds(ScoreOf(v.metrics, ConsistentUsage))
    case NoCompleteForm => |Present(v.item, FormFields)| == 0 || !Holds(ScoreOf(v.metrics, CompleteFormalization))
    case IllfForm =>
      Filled(v.item, ArgdownReconstruction) && Filled(v.item, Conjectures) && !Holds(ScoreOf(v.metrics, ConjecturesAligned))
    case CatchAll => true
  }

  /** `is_responsible`: the analysis is in phase 2 and the handler's condition holds. */
  predicate Responsible(kind: Kind, v: Incoming)
  {
    v.phase == 2 && Condition(kind, v)
  }

  /** The catch-all answers exactly the analyses in phase 2; no phase-2 handler answers outside phase 2. */
  lemma ResponsibleInPhaseTwo(kind: Kind, v: Incoming)
    ensures Responsible(kind, v) ==> v.phase == 2
    ensures Responsible(CatchAll, v) <==> v.phase == 2
  {
  }

  /** `IllfForm`, as written, tests the alignment of the conjectures, exactly as phase 1's `JNotAlgn` does. */
  lemma IllfFormIsConjectureAlignment(v: Incoming)
    ensures Condition(IllfForm, v) <==> PhaseOne.Condition(PhaseOne.JNotAlgn, v)
  {
  }

  /** An analysis without any formalization always finds `NoCompleteForm` responsible in phase 2. */
  lemma NoFormalizationIsIncomplete(v: Incoming)
    requires v.phase == 2
    requires !Filled(v.item, PremisesFormalized) && !Filled(v.item, IntermediaryConclusionsFormalized)
    requires !Filled(v.item, ConclusionFormalized)
    ensures Responsible(NoCompleteForm, v)
  {
    NothingPresent(v.item, FormFields);
  }

  // ---------------------------------------------------------------------
  // Feedback
  // ---------------------------------------------------------------------

  const DefaultFeedback: string := "Default Feedback Phase Two."
  const NoConsUsgRemark: string := " But premises and intermediary conclusions are not\n        \"consistently used in the argument's inference."
  const NoCompleteFormRemark: string := " But the formalization of the argument is incomplete."
  const IllfFormRemark: string := " But the conjecture statements identified don't refer to premises in your argument reconstruction."
  const KeysRemark: string := " The keys don't match your formalization."
  const CoherenceRemark: string := " Given your keys, the formalization doesn't cohere with\n            your argument reconstruction."
  const GlobalValidityRemark: string := " Given your formalization, the argument is not globally\n            deductively valid."
  const LocalValidityRemark: string := " Given your formalization, some individual sub-argument\n            is not deductively valid."

  /** A remark, when the score it is about does not hold. */
  function Unless(s: Score, remark: string): (r: string)
    ensures Holds(s) ==> r == ""
    ensures !Holds(s) ==> r == remark
  {
    if Holds(s) then "" else remark
  }

  /**
   * The catch-all's feedback as written: the remark on sub-arguments is
   * appended when the GLOBAL validity score fails, a second time after the
   * remark on global validity.
   */
  function CatchAllFeedbackAsWritten(metrics: map<MetricKind, MetricState>): string
  {
    DefaultFeedback +
    Unless(ScoreOf(metrics, WellFormedKeys), KeysRemark) +
    Unless(ScoreOf(metrics, FormCohReco), CoherenceRemark) +
    Unless(ScoreOf(metrics, GlobalDeductiveValidity), GlobalValidityRemark) +
    Unless(ScoreOf(metrics, GlobalDeductiveValidity), LocalValidityRemark)
  }

  /**
   * The catch-all's feedback: the default, then one remark for each of the
   * keys, the coherence with the reconstruction, global validity and local
   * validity that the revised metrics do not find satisfied.
   */
  function CatchAllFeedback(metrics: map<MetricKind, MetricState>): (r: string)
    ensures |r| >= |DefaultFeedback| && r[..|DefaultFeedback|] == DefaultFeedback
  {
    DefaultFeedback +
    Unless(ScoreOf(metrics, WellFormedKeys), KeysRemark) +
    Unless(ScoreOf(metrics, FormCohReco), CoherenceRemark) +
    Unless(ScoreOf(metrics, GlobalDeductiveValidity), GlobalValidityRemark) +
    Unless(ScoreOf(metrics, LocalDeductiveValidity), LocalValidityRemark)
  }

  /** None of the catch-all's remarks is empty. */
  lemma RemarksNonEmpty()
    ensures |KeysRemark| > 0 && |CoherenceRemark| > 0
    ensures |GlobalValidityRemark| > 0 && |LocalValidityRemark| > 0
  {
  }

  /** The catch-all's feedback is the bare default exactly when all four scores hold. */
  lemma CatchAllFeedbackDefaultIff(metrics: map<MetricKind, MetricState>)
    ensures CatchAllFeedback(metrics) == DefaultFeedback <==>
      Holds(ScoreOf(metrics, WellFormedKeys)) && Holds(ScoreOf(metrics, FormCohReco)) &&
      Holds(ScoreOf(metrics, GlobalDeductiveValidity)) && Holds(ScoreOf(metrics, LocalDeductiveValidity))
  {
    RemarksNonEmpty();
    var a := Unless(ScoreOf(metrics, WellFormedKeys), KeysRemark);
    var b := Unless(ScoreOf(metrics, FormCohReco), CoherenceRemark);
    var c := Unless(ScoreOf(metrics, GlobalDeductiveValidity), GlobalValidityRemark);
    var d := Unless(ScoreOf(metrics, LocalDeductiveValidity), LocalValidityRemark);
    assert |CatchAllFeedback(metrics)| == |DefaultFeedback| + |a| + |b| + |c| + |d|;
  }

  /** Metric states where everything holds but local validity. */
  function LocallyInvalid(): map<MetricKind, MetricState>
  {
    map[WellFormedKeys := MetricState(None, Some(1.0)), FormCohReco := MetricState(None, Some(1.0)),
        GlobalDeductiveValidity := MetricState(None, Some(1.0)), LocalDeductiveValidity := MetricState(None, Some(0.0))]
  }

  /**
   * As written, a sub-argument that is not deductively valid goes
   * unmentioned while the argument as a whole is valid; the corrected
   * feedback mentions it.
   */
  lemma LocalInvalidityUnmentionedAsWritten()
    ensures CatchAllFeedbackAsWritten(LocallyInvalid()) == DefaultFeedback
    ensures CatchAllFeedback(LocallyInvalid()) == DefaultFeedback + LocalValidityRemark
  {
    var m := LocallyInvalid();
    assert Holds(ScoreOf(m, WellFormedKeys)) && Holds(ScoreOf(m, FormCohReco)) && Holds(ScoreOf(m, GlobalDeductiveValidity));
    assert !Holds(ScoreOf(m, LocalDeductiveValidity));
  }

  /** `get_feedback` of each handler, the catch-all's on the revised metrics. */
  function Feedback(kind: Kind, rev: Revised): (r: string)
    ensures |r| >= |DefaultFeedback| && r[..|DefaultFeedback|] == DefaultFeedback
  {
    match kind
    case NoConsUsg => DefaultFeedback + NoConsUsgRemark
    case NoCompleteForm => DefaultFeedback + NoCompleteFormRemark
    case IllfForm => DefaultFeedback + IllfFormRemark
    case CatchAll => CatchAllFeedback(rev.metrics)
  }

  // ---------------------------------------------------------------------
  // NoCompleteForm: an option per formalization field
  // ---------------------------------------------------------------------

  /**
   * The option `NoCompleteForm` offers for one formalization field: the
   * field's current text when it has one; otherwise no text, since the
   * suggestion `_generate_formalization` looks for in the metrics cache is
   * never there.
   */
  function FormOptionFor(layout: Item -> Field -> Option<string>, item: Item, field: Field): (r: InputOption)
    ensures r.TextOption? && r.field == field && |r.context| == 0 && r.rater.None?
    ensures r.question == Some(PhaseOne.AddOrRevise(field))
    ensures Truthful(layout(item)(field)) ==> r.initialText == layout(item)(field)
    ensures !Truthful(layout(item)(field)) ==> r.initialText.None?
  {
    var initial := if Truthful(layout(item)(field)) then layout(item)(field) else None;
    TextOption([], Some(PhaseOne.AddOrRevise(field)), field, initial, None)
  }

  /** The options `NoCompleteForm` offers: one per formalization field, then the reconstruction. */
  function FormOptions(layout: Item -> Field -> Option<string>, item: Item): (r: seq<InputOption>)
    ensures |r| == |FormFields| + 1
    ensures forall i :: 0 <= i < |FormFields| ==> r[i] == FormOptionFor(layout, item, FormFields[i])
    ensures r[|FormFields|] == TextOptionFor(layout, ArgdownReconstruction, Some(item), true)
  {
    seq(|FormFields|, i requires 0 <= i < |FormFields| => FormOptionFor(layout, item, FormFields[i])) +
    TextOptions(layout, [ArgdownReconstruction], Some(item), true)
  }

  /** Options made field by field for the formalization fields, then the reconstruction's, are those `NoCompleteForm` offers. */
  lemma FormOptionsFrom(layout: Item -> Field -> Option<string>, item: Item, options: seq<InputOption>)
    requires |options| == |FormFields|
    requires forall k :: 0 <= k < |FormFields| ==> options[k] == FormOptionFor(layout, item, FormFields[k])
    ensures options + TextOptions(layout, [ArgdownReconstruction], Some(item), true) == FormOptions(layout, item)
  {
  }

  /** `NoCompleteForm.get_input_options`: the loop over the formalization fields, then the reconstruction. */
  method NoCompleteFormOptions(tools: Tools, rev: Revised) returns (options: seq<InputOption>)
    ensures options == FormOptions(tools.ext.layout, rev.item)
  {
    var layout := tools.ext.layout;
    var fields := FormFields;
    options := [];
    for i := 0 to |fields|
      invariant |options| == i
      invariant forall k :: 0 <= k < i ==> options[k] == FormOptionFor(layout, rev.item, fields[k])
    {
      var field := fields[i];
      var initial: Option<string> := None;
      var rater: Option<InferenceRater> := None;
      if Truthful(layout(rev.item)(field)) {
        initial := layout(rev.item)(field);
      }
      var option := TextOption([], Some(PhaseOne.AddOrRevise(field)), field, initial, rater);
      assert option == FormOptionFor(layout, rev.item, field);
      options := options + [option];
    }
    FormOptionsFrom(layout, rev.item, options);
    options := options + TextOptions(layout, [ArgdownReconstruction], Some(rev.item), true);
  }
}
