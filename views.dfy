/**
 * What the phase handlers work from: the collaborators a handler is built
 * with, the incoming snapshot and the revised analysis as values, and the
 * helpers every handler shares (the truth of a score, the layouter's field
 * dictionary, one call of the language model, the filled fields of a list).
 */
module Views {
  import opened Wrappers
  import opened Analysis
  import opened Inference
  import opened Metrics

  /**
   * A handler's collaborators: the deepa2 and Prover9 functions, its
   * language-model pipeline (`None` for a handler built without one),
   * deepa2's `GenerativeMode.from_keys`, and the premise and conclusion
   * labels of an analysis (`get_premise_conclusion_labels`).
   */
  datatype Tools = Tools(
    ext: Externals,
    inference: Option<Pipeline>,
    modeFromKeys: string -> GenerativeMode,
    labels: Item -> (seq<int>, seq<int>))

  /** The incoming snapshot, as read before the user input is applied: its reconstruction phase, item and metric states. */
  datatype Incoming = Incoming(phase: nat, item: Item, metrics: map<MetricKind, MetricState>)

  /** The revised analysis: the item with the input applied, and the metric states and cache after the update. */
  datatype Revised = Revised(item: Item, metrics: map<MetricKind, MetricState>, cache: Cache)

  /** `individual_score` of a registered kind: its score, `None` for an unregistered one. */
  function ScoreOf(metrics: map<MetricKind, MetricState>, k: MetricKind): (r: Score)
    ensures k !in metrics ==> r.None?
  {
    if k in metrics then metrics[k].score else None
  }

  /** `bool(score)`: defined and not zero. */
  predicate Holds(s: Score)
  {
    s.Some? && s.value != 0.0
  }

  /** The attribute names of all fields of an item. */
  const FieldNames: set<string> := {
    "source_text", "title", "gist", "source_paraphrase", "context", "argdown_reconstruction", "erroneous_argdown",
    "reasons", "conjectures", "premises", "intermediary_conclusions", "conclusion",
    "premises_formalized", "intermediary_conclusions_formalized", "conclusion_formalized", "plchd_substitutions", "distractors"}

  /** The field an attribute name names. */
  function FieldNamed(name: string): (f: Field)
    requires name in FieldNames
    ensures FieldName(f) == name
  {
    if name == "source_text" then SourceText
    else if name == "title" then Title
    else if name == "gist" then Gist
    else if name == "source_paraphrase" then SourceParaphrase
    else if name == "context" then Context
    else if name == "argdown_reconstruction" then ArgdownReconstruction
    else if name == "erroneous_argdown" then ErroneousArgdown
    else if name == "reasons" then Reasons
    else if name == "conjectures" then Conjectures
    else if name == "premises" then Premises
    else if name == "intermediary_conclusions" then IntermediaryConclusions
    else if name == "conclusion" then Conclusion
    else if name == "premises_formalized" then PremisesFormalized
    else if name == "intermediary_conclusions_formalized" then IntermediaryConclusionsFormalized
    else if name == "conclusion_formalized" then ConclusionFormalized
    else if name == "plchd_substitutions" then PlchdSubstitutions
    else Distractors
  }

  /** Every field has its name among the field names. */
  lemma NamedField(f: Field)
    ensures FieldName(f) in FieldNames && FieldNamed(FieldName(f)) == f
  {
  }

  /** `DeepA2Layouter().format(item)`: each field's name mapped to the field rendered as text. */
  function Formatted(layout: Item -> Field -> Option<string>, item: Item): (r: Inputs)
    ensures forall f :: FieldName(f) in r && r[FieldName(f)] == layout(item)(f)
  {
    var r := map name | name in FieldNames :: layout(item)(FieldNamed(name));
    assert forall f :: FieldName(f) in r && r[FieldName(f)] == layout(item)(f) by {
      forall f ensures FieldName(f) in r && r[FieldName(f)] == layout(item)(f) {
        NamedField(f);
      }
    }
    r
  }

  /** The names of the fields, in order. */
  function Names(fields: seq<Field>): (r: seq<string>)
    ensures |r| == |fields|
    ensures forall i :: 0 <= i < |fields| ==> r[i] == FieldName(fields[i])
  {
    seq(|fields|, i requires 0 <= i < |fields| => FieldName(fields[i]))
  }

  /** `[f for f in fields if getattr(item, f)]`: the filled fields, in their order. */
  function Present(item: Item, fields: seq<Field>): (r: seq<Field>)
    ensures |r| <= |fields|
    ensures forall f :: f in r <==> f in fields && Filled(item, f)
  {
    if |fields| == 0 then []
    else (if Filled(item, fields[0]) then [fields[0]] else []) + Present(item, fields[1..])
  }

  /** No field of a list is present exactly when none of them is filled. */
  lemma {:induction false} NothingPresent(item: Item, fields: seq<Field>)
    ensures |Present(item, fields)| == 0 <==> forall f :: f in fields ==> !Filled(item, f)
  {
    if |fields| > 0 {
      NothingPresent(item, fields[1..]);
      assert fields == [fields[0]] + fields[1..];
    }
  }

  /** The names of the filled fields, in their order: the inputs a generation mode asks for. */
  function FilledNames(item: Item, fields: seq<Field>): (r: seq<string>)
    ensures |r| == |Present(item, fields)|
    ensures forall i :: 0 <= i < |r| ==> r[i] == FieldName(Present(item, fields)[i])
  {
    Names(Present(item, fields))
  }

  /** `[f for f in fields if not getattr(item, f)]`: the empty fields, in their order. */
  function Absent(item: Item, fields: seq<Field>): (r: seq<Field>)
    ensures |r| <= |fields|
    ensures forall f :: f in r <==> f in fields && !Filled(item, f)
  {
    if |fields| == 0 then []
    else (if Filled(item, fields[0]) then [] else [fields[0]]) + Absent(item, fields[1..])
  }

  /** Every field is either filled or empty: the two filters together keep each field exactly once. */
  lemma {:induction false} PresentAbsentSplit(item: Item, fields: seq<Field>, f: Field)
    ensures multiset(Present(item, fields))[f] + multiset(Absent(item, fields))[f] == multiset(fields)[f]
  {
    if |fields| > 0 {
      var head, rest := fields[0], fields[1..];
      PresentAbsentSplit(item, rest, f);
      assert multiset(fields) == multiset{head} + multiset(rest) by {
        assert fields == [head] + rest;
      }
      if Filled(item, head) {
        assert multiset(Present(item, fields)) == multiset{head} + multiset(Present(item, rest)) by {
          assert Present(item, fields) == [head] + Present(item, rest);
        }
        assert Absent(item, fields) == Absent(item, rest);
      } else {
        assert Present(item, fields) == Present(item, rest);
        assert multiset(Absent(item, fields)) == multiset{head} + multiset(Absent(item, rest)) by {
          assert Absent(item, fields) == [head] + Absent(item, rest);
        }
      }
    }
  }

  /** The filled and the empty fields of a list together are as many as the list. */
  lemma {:induction false} PresentAbsentLength(item: Item, fields: seq<Field>)
    ensures |Present(item, fields)| + |Absent(item, fields)| == |fields|
  {
    if |fields| > 0 {
      PresentAbsentLength(item, fields[1..]);
    }
  }

  /**
   * `self._inference.generate(inputs=format(item), mode=mode)` as the handlers
   * use it: the text the first output carries, if any, with its rater; an
   * empty output list raises `IndexError`, a handler without a pipeline
   * raises on the attribute lookup.
   */
  function GenerateFor(tools: Tools, item: Item, mode: GenerativeMode): (r: Result<(Option<string>, Option<InferenceRater>), Fault>)
    ensures tools.inference.None? ==> r == Failure(AttributeError("generate"))
    ensures tools.inference.Some? ==>
      (r.Failure? <==> |tools.inference.value.generateRaw(Formatted(tools.ext.layout, item), mode)| == 0)
    ensures r.Success? ==> (r.value.0.Some? <==> r.value.1.Some?)
    ensures r.Success? && r.value.1.Some? ==>
      r.value.0 == Some(r.value.1.value.generatedText) && r.value.1.value.mode == mode
  {
    if tools.inference.None? then Failure(AttributeError("generate"))
    else
      match Generate(tools.inference.value, Formatted(tools.ext.layout, item), mode)
      case Failure(e) => Failure(e)
      case Success((_, rater)) => Success((if rater.Some? then Some(rater.value.generatedText) else None, rater))
  }

  /** The model's answer to a generation mode: the generated text, if any, and its rater. */
  type Answer = Result<(Option<string>, Option<InferenceRater>), Fault>

  /** The language model as the handlers see it: its answer to each generation mode, on the revised item. */
  type Generator = GenerativeMode -> Answer

  /** The generator a handler with these collaborators has for an item. */
  function GeneratorFor(tools: Tools, item: Item): (gen: Generator)
    ensures forall m :: gen(m) == GenerateFor(tools, item, m)
  {
    m => GenerateFor(tools, item, m)
  }
}
