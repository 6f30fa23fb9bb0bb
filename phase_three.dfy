/**
 * The one handler of reconstruction phase 3 (`phase_three_handler.py`): it
 * praises the reconstruction and offers every field for further revision.
 */
module PhaseThree {
  import opened Wrappers
  import opened Analysis
  import opened Metrics
  import opened InputOptions
  import opened Views

  /** `is_responsible`: the analysis is in phase 3. */
  predicate Responsible(v: Incoming)
  {
    v.phase == 3
  }

  /** `get_feedback`: the same praise whatever the analysis. */
  const Feedback: string := "Excellent! \U{1F44D} This is a very good reconstruction. You're invited to further improve it. \U{1F609}"

  const AnnotationQuestion: string := "Please add or revise annotations of reasons or conjectures."

  /**
   * The combined option to annotate reasons and conjectures, seeded with the
   * item's quotes (none when a field is empty) and with the labels of its
   * premises and conclusions.
   */
  function AnnotationOption(tools: Tools, item: Item): (r: InputOption)
    ensures r.ReasonsConjecturesOption? && r.question == Some(AnnotationQuestion) && r.sourceText == item.sourceText
    ensures r.initialReasons == item.reasons && r.initialConjectures == item.conjectures
    ensures r.premiseLabels == tools.labels(item).0 && r.conclusionLabels == tools.labels(item).1
  {
    var reasons := if |item.reasons| > 0 then item.reasons else [];
    var conjectures := if |item.conjectures| > 0 then item.conjectures else [];
    var (premiseLabels, conclusionLabels) := tools.labels(item);
    ReasonsConjecturesOption(Some(AnnotationQuestion), item.sourceText, reasons, conjectures, premiseLabels, conclusionLabels)
  }

  /** `any(s.is_conclusion for s in statements[:-1])`: a conclusion before the last statement. */
  predicate ConclusionBeforeLast(a: Argument)
  {
    exists i :: 0 <= i < |a| - 1 && a[i].isConclusion
  }

  /** Whether the intermediary conclusions are left out: there is a parse, and it has no intermediary conclusion. */
  predicate DropsIntermediary(cache: Cache)
  {
    LayoutArgument(cache).Some? && !ConclusionBeforeLast(LayoutArgument(cache).value)
  }

  /**
   * The formalization fields offered: the three formalizations and the
   * placeholder substitutions, without the intermediary conclusions'
   * formalization when the parsed argument has no intermediary conclusion.
   */
  function FormalizationFields(cache: Cache): (r: seq<Field>)
    ensures IntermediaryConclusionsFormalized in r <==> !DropsIntermediary(cache)
    ensures PremisesFormalized in r && ConclusionFormalized in r && PlchdSubstitutions in r
    ensures forall f :: f in r ==> f in FormFields || f == PlchdSubstitutions
  {
    if DropsIntermediary(cache) then [PremisesFormalized, ConclusionFormalized, PlchdSubstitutions]
    else [PremisesFormalized, IntermediaryConclusionsFormalized, ConclusionFormalized, PlchdSubstitutions]
  }

  /**
   * The catch-all's options over a list of cues and of formalization fields:
   * the reconstruction, the annotation of reasons and conjectures, the empty
   * cues to enter, then the filled cues and the formalization fields to revise.
   */
  function Assembled(layout: Item -> Field -> Option<string>, annotation: InputOption, item: Item,
                     cues: seq<Field>, form: seq<Field>): (r: seq<InputOption>)
    ensures |r| == 2 + |cues| + |form|
    ensures r[0] == TextOptionFor(layout, ArgdownReconstruction, Some(item), true)
    ensures r[1] == annotation
  {
    PresentAbsentLength(item, cues);
    TextOptions(layout, [ArgdownReconstruction], Some(item), true)
    + [annotation]
    + TextOptions(layout, Absent(item, cues), Some(item), false)
    + TextOptions(layout, Present(item, cues) + form, Some(item), true)
  }

  /** `PhaseThreeHandlerCatchAll.get_input_options`, over the cue fields and the formalization fields the parse calls for. */
  function CatchAllOptions(tools: Tools, rev: Revised): seq<InputOption>
  {
    Assembled(tools.ext.layout, AnnotationOption(tools, rev.item), rev.item, CueFields, FormalizationFields(rev.cache))
  }

  /** The fields the options ask about, in order; the annotation option has none. */
  function OfferedFields(options: seq<InputOption>): (r: seq<Field>)
    ensures |r| <= |options|
  {
    if |options| == 0 then []
    else (if options[0].ReasonsConjecturesOption? then [] else [options[0].field]) + OfferedFields(options[1..])
  }

  lemma {:induction false} OfferedFieldsAppend(a: seq<InputOption>, b: seq<InputOption>)
    ensures OfferedFields(a + b) == OfferedFields(a) + OfferedFields(b)
  {
    if |a| > 0 {
      assert (a + b)[1..] == a[1..] + b;
      OfferedFieldsAppend(a[1..], b);
    } else {
      assert a + b == b;
    }
  }

  /** The text options of a list of fields ask about exactly those fields. */
  lemma {:induction false} OfferedTextFields(layout: Item -> Field -> Option<string>, fields: seq<Field>, item: Option<Item>, pre: bool)
    ensures OfferedFields(TextOptions(layout, fields, item, pre)) == fields
  {
    if |fields| > 0 {
      var options := TextOptions(layout, fields, item, pre);
      var rest := TextOptions(layout, fields[1..], item, pre);
      assert |options[1..]| == |rest|;
      forall i | 0 <= i < |rest|
        ensures options[1..][i] == rest[i]
      {
        assert fields[1..][i] == fields[i + 1];
      }
      assert options[1..] == rest;
      assert !options[0].ReasonsConjecturesOption? && options[0].field == fields[0];
      OfferedTextFields(layout, fields[1..], item, pre);
    }
  }

  /** The fields the options ask about: the reconstruction, the empty cues, the filled cues, the formalization fields. */
  lemma AssembledFields(layout: Item -> Field -> Option<string>, annotation: InputOption, item: Item,
                        cues: seq<Field>, form: seq<Field>)
    requires annotation.ReasonsConjecturesOption?
    ensures OfferedFields(Assembled(layout, annotation, item, cues, form)) ==
      [ArgdownReconstruction] + Absent(item, cues) + (Present(item, cues) + form)
  {
    var a := TextOptions(layout, [ArgdownReconstruction], Some(item), true);
    var b := [annotation];
    var c := TextOptions(layout, Absent(item, cues), Some(item), false);
    var d := TextOptions(layout, Present(item, cues) + form, Some(item), true);
    assert Assembled(layout, annotation, item, cues, form) == a + b + c + d;
    OfferedFieldsAppend(a + b + c, d);
    OfferedFieldsAppend(a + b, c);
    OfferedFieldsAppend(a, b);
    assert OfferedFields(b) == [] by {
      assert b[1..] == [];
    }
    OfferedTextFields(layout, [ArgdownReconstruction], Some(item), true);
    OfferedTextFields(layout, Absent(item, cues), Some(item), false);
    OfferedTextFields(layout, Present(item, cues) + form, Some(item), true);
  }

  /** A cue listed once, and neither the reconstruction nor a formalization field, is asked about exactly once. */
  lemma AssembledCueOnce(layout: Item -> Field -> Option<string>, annotation: InputOption, item: Item,
                         cues: seq<Field>, form: seq<Field>, f: Field)
    requires annotation.ReasonsConjecturesOption?
    requires multiset(cues)[f] == 1 && f != ArgdownReconstruction && f !in form
    ensures multiset(OfferedFields(Assembled(layout, annotation, item, cues, form)))[f] == 1
  {
    AssembledFields(layout, annotation, item, cues, form);
    PresentAbsentSplit(item, cues, f);
  }

  /** Every cue field is asked about exactly once by the catch-all, filled or not. */
  lemma CueOfferedOnce(tools: Tools, rev: Revised, f: Field)
    requires f in CueFields
    ensures multiset(OfferedFields(CatchAllOptions(tools, rev)))[f] == 1
  {
    var form := FormalizationFields(rev.cache);
    assert f !in form;
    assert multiset(CueFields)[f] == 1;
    AssembledCueOnce(tools.ext.layout, AnnotationOption(tools, rev.item), rev.item, CueFields, form, f);
  }

  /** The position of the options of the empty and of the filled cues in the whole list. */
  lemma AssembledParts(layout: Item -> Field -> Option<string>, annotation: InputOption, item: Item,
                       cues: seq<Field>, form: seq<Field>)
    ensures var r := Assembled(layout, annotation, item, cues, form);
      var split := 2 + |Absent(item, cues)|;
      r[2..split] == TextOptions(layout, Absent(item, cues), Some(item), false) &&
      r[split..] == TextOptions(layout, Present(item, cues) + form, Some(item), true)
  {
    var a := TextOptions(layout, [ArgdownReconstruction], Some(item), true);
    var c := TextOptions(layout, Absent(item, cues), Some(item), false);
    var d := TextOptions(layout, Present(item, cues) + form, Some(item), true);
    var r := Assembled(layout, annotation, item, cues, form);
    assert r == a + [annotation] + c + d;
    AfterTwo(a, [annotation], c, d);
  }

  /** Past two single elements, a concatenation of four lists holds the third, then the fourth. */
  lemma AfterTwo<T>(a: seq<T>, b: seq<T>, c: seq<T>, d: seq<T>)
    requires |a| == 1 && |b| == 1
    ensures (a + b + c + d)[2..2 + |c|] == c && (a + b + c + d)[2 + |c|..] == d
  {
    assert (a + b + c + d)[2..] == c + d;
  }

  /** An element past the split of a list is an element of its tail. */
  lemma DropIndex<T>(r: seq<T>, d: seq<T>, split: nat, j: nat)
    requires split <= |r| && r[split..] == d && j < |d|
    ensures split + j < |r| && r[split + j] == d[j]
  {
  }

  /** The option at each cue position before the filled cues: an empty cue's, not pre-filled. */
  lemma AssembledAtAbsent(layout: Item -> Field -> Option<string>, annotation: InputOption, item: Item,
                          cues: seq<Field>, form: seq<Field>, i: nat)
    requires i < |Absent(item, cues)|
    ensures Assembled(layout, annotation, item, cues, form)[2 + i] ==
      TextOptionFor(layout, Absent(item, cues)[i], Some(item), false)
  {
    AssembledParts(layout, annotation, item, cues, form);
    var r := Assembled(layout, annotation, item, cues, form);
    assert r[2 + i] == r[2..2 + |Absent(item, cues)|][i];
  }

  /** The option at each cue position from the filled cues on: a filled cue's, pre-filled. */
  lemma AssembledAtPresent(layout: Item -> Field -> Option<string>, annotation: InputOption, item: Item,
                           cues: seq<Field>, form: seq<Field>, j: nat)
    requires j < |Present(item, cues)|
    ensures Assembled(layout, annotation, item, cues, form)[2 + |Absent(item, cues)| + j] ==
      TextOptionFor(layout, Present(item, cues)[j], Some(item), true)
  {
    AssembledParts(layout, annotation, item, cues, form);
    var r := Assembled(layout, annotation, item, cues, form);
    var present := Present(item, cues);
    var split := 2 + |Absent(item, cues)|;
    var d := TextOptions(layout, present + form, Some(item), true);
    assert r[split + j] == d[j] by { DropIndex(r, d, split, j); }
    assert d[j] == TextOptionFor(layout, present[j], Some(item), true) by { assert (present + form)[j] == present[j]; }
  }

  /**
   * Each option after the annotation and before the filled cues asks to
   * enter an empty cue, with no text; each after them, up to the end of the
   * cues, asks to revise a filled cue, showing its text.
   */
  lemma AssembledCueText(layout: Item -> Field -> Option<string>, annotation: InputOption, item: Item,
                         cues: seq<Field>, form: seq<Field>, i: nat)
    requires i < |cues|
    ensures var o := Assembled(layout, annotation, item, cues, form)[2 + i];
      o.TextOption? && o.field in cues &&
      (Filled(item, o.field) ==> o.initialText == layout(item)(o.field)) &&
      (!Filled(item, o.field) ==> o.initialText == Some(""))
  {
    PresentAbsentLength(item, cues);
    var absent, present := Absent(item, cues), Present(item, cues);
    if i < |absent| {
      AssembledAtAbsent(layout, annotation, item, cues, form, i);
      assert absent[i] in absent;
    } else {
      AssembledAtPresent(layout, annotation, item, cues, form, i - |absent|);
      assert present[i - |absent|] in present;
    }
  }

  /** The intermediary conclusions' formalization is asked for exactly when the parse does not rule it out. */
  lemma IntermediaryOffered(tools: Tools, rev: Revised)
    ensures IntermediaryConclusionsFormalized in OfferedFields(CatchAllOptions(tools, rev)) <==> !DropsIntermediary(rev.cache)
  {
    var form := FormalizationFields(rev.cache);
    AssembledOffersForm(tools.ext.layout, AnnotationOption(tools, rev.item), rev.item, CueFields, form,
                        IntermediaryConclusionsFormalized);
  }

  /** A field that is neither the reconstruction nor a cue is asked about exactly when it is a listed formalization field. */
  lemma AssembledOffersForm(layout: Item -> Field -> Option<string>, annotation: InputOption, item: Item,
                            cues: seq<Field>, form: seq<Field>, g: Field)
    requires annotation.ReasonsConjecturesOption?
    requires g != ArgdownReconstruction && g !in cues
    ensures g in OfferedFields(Assembled(layout, annotation, item, cues, form)) <==> g in form
  {
    AssembledFields(layout, annotation, item, cues, form);
    assert g !in Absent(item, cues) && g !in Present(item, cues);
  }

  /** The `any` over all statements but the last: whether one of them is a conclusion. */
  method AnyConclusionBeforeLast(statements: Argument) returns (concluded: bool)
    ensures concluded <==> ConclusionBeforeLast(statements)
  {
    concluded := false;
    for i := 0 to |statements| - 1
      invariant concluded <==> exists k :: 0 <= k < i && statements[k].isConclusion
    {
      concluded := concluded || statements[i].isConclusion;
    }
  }

  /**
   * `PhaseThreeHandlerCatchAll.get_input_options` step by step: the options
   * grow list by list, and the intermediary conclusions' formalization is
   * removed from the form fields when the parsed argument has no conclusion
   * before its last statement.
   */
  method CatchAllOptionsBuild(tools: Tools, rev: Revised) returns (options: seq<InputOption>)
    ensures options == CatchAllOptions(tools, rev)
  {
    var layout, item := tools.ext.layout, rev.item;
    options := CreateTextOptions(layout, [ArgdownReconstruction], Some(item), true);
    options := options + [AnnotationOption(tools, item)];
    var missing := Absent(item, CueFields);
    var entered := CreateTextOptions(layout, missing, Some(item), false);
    options := options + entered;
    var formFields := FormFields + [PlchdSubstitutions];
    assert formFields == [PremisesFormalized, IntermediaryConclusionsFormalized, ConclusionFormalized, PlchdSubstitutions];
    var parsed := LayoutArgument(rev.cache);
    if parsed.Some? {
      var concluded := AnyConclusionBeforeLast(parsed.value);
      if !concluded {
        formFields := formFields[..1] + formFields[2..];
        assert formFields == [PremisesFormalized, ConclusionFormalized, PlchdSubstitutions];
      }
    }
    assert formFields == FormalizationFields(rev.cache);
    var rest := Present(item, CueFields) + formFields;
    var revised := CreateTextOptions(layout, rest, Some(item), true);
    options := options + revised;
  }
}
