/**
 * The parts of `gui/sofa_renderer.py` that compute what is shown: the
 * markdown list of formalizations, sorted by the statement they formalize,
 * and the highlighted spans of the source text (displaCy entities) for the
 * reasons and conjectures, located with a running pointer.
 */
module SofaRenderers {
  import opened Wrappers
  import opened Text
  import opened Sorting
  import opened Analysis

  // ---------------------------------------------------------------------
  // FormalizationRenderer.get_formalization_list
  // ---------------------------------------------------------------------

  /** One line of the formalization list and the statement label it is sorted by. */
  datatype Line = Line(text: string, refReco: int)

  function RefOf(l: Line): int
  {
    l.refReco
  }

  /** The line of a formalization: `(P3) `form`` for a premise, `(C3) `form`` for a conclusion. */
  function FormLine(letter: string, f: Formalization): Line
  {
    Line("(" + letter + IntToString(f.refReco) + ") `" + f.form + "`", f.refReco)
  }

  /** The lines of a list of formalizations, in order. */
  function Lines(letter: string, fs: seq<Formalization>): (r: seq<Line>)
    ensures |r| == |fs|
  {
    if |fs| == 0 then [] else Lines(letter, fs[..|fs| - 1]) + [FormLine(letter, fs[|fs| - 1])]
  }

  /** Premises, then intermediary conclusions, then final conclusions, before sorting. */
  function FormalizationLines(item: Item): seq<Line>
  {
    Lines("P", item.premisesFormalized) + Lines("C", item.intermediaryConclusionsFormalized) +
    Lines("C", item.conclusionFormalized)
  }

  /** The texts of the lines. */
  function Texts(ls: seq<Line>): (r: seq<string>)
    ensures |r| == |ls| && forall i :: 0 <= i < |ls| ==> r[i] == ls[i].text
  {
    if |ls| == 0 then [] else [ls[0].text] + Texts(ls[1..])
  }

  /** The list as shown: the lines sorted by label, joined by a markdown line break. */
  function FormalizationList(item: Item): string
  {
    Join("  \n", Texts(SortBy(FormalizationLines(item), RefOf)))
  }

  /**
   * The lines are sorted by label and are exactly the lines of the
   * formalizations; among lines with the same label, premises come first,
   * then intermediary conclusions, then final conclusions, each in the
   * item's order, because the sort is stable.
   */
  lemma FormalizationOrder(item: Item, k: int)
    ensures SortedBy(SortBy(FormalizationLines(item), RefOf), RefOf)
    ensures multiset(SortBy(FormalizationLines(item), RefOf)) == multiset(FormalizationLines(item))
    ensures WithKey(SortBy(FormalizationLines(item), RefOf), RefOf, k) ==
      WithKey(Lines("P", item.premisesFormalized), RefOf, k) +
      WithKey(Lines("C", item.intermediaryConclusionsFormalized), RefOf, k) +
      WithKey(Lines("C", item.conclusionFormalized), RefOf, k)
  {
    var p := Lines("P", item.premisesFormalized);
    var i := Lines("C", item.intermediaryConclusionsFormalized);
    var c := Lines("C", item.conclusionFormalized);
    SortByStable(FormalizationLines(item), RefOf, k);
    WithKeyAppend(p + i, c, RefOf, k);
    WithKeyAppend(p, i, RefOf, k);
  }

  /** One of the three loops of `get_formalization_list`: the lines of a list, appended one by one. */
  method BuildLines(letter: string, fs: seq<Formalization>) returns (ls: seq<Line>)
    ensures ls == Lines(letter, fs)
  {
    ls := [];
    for j := 0 to |fs|
      invariant ls == Lines(letter, fs[..j])
    {
      assert fs[..j + 1][..j] == fs[..j];
      ls := ls + [FormLine(letter, fs[j])];
    }
    assert fs[..|fs|] == fs;
  }

  /** `get_formalization_list`: the three lists built line by line, merged, sorted and joined. */
  method GetFormalizationList(item: Item) returns (s: string)
    ensures s == FormalizationList(item)
  {
    var premises := BuildLines("P", item.premisesFormalized);
    var intermediary := BuildLines("C", item.intermediaryConclusionsFormalized);
    var conclusions := BuildLines("C", item.conclusionFormalized);
    var merged := SortBy(premises + intermediary + conclusions, RefOf);
    s := Join("  \n", Texts(merged));
  }

  // ---------------------------------------------------------------------
  // SourceTextRenderer: entities of the source text
  // ---------------------------------------------------------------------

  /**
   * A highlighted span of the source text; displaCy shows it with the label
   * `Tag`, the template's letter followed by the quote's label.
   */
  datatype Entity = Entity(start: int, end: int, letter: string, ref: int)

  function Tag(e: Entity): string
  {
    e.letter + IntToString(e.ref)
  }

  function StartOf(e: Entity): int
  {
    e.start
  }

  /** The quotes whose text occurs somewhere in the source, in order. */
  function Found(source: string, quotes: seq<Quote>): (r: seq<Quote>)
    ensures |r| <= |quotes|
  {
    if |quotes| == 0 then []
    else (if Contains(source, quotes[0].text) then [quotes[0]] else []) + Found(source, quotes[1..])
  }

  /**
   * The entities of the quotes from `pointer` on: each quote that occurs in
   * the source is looked up from the pointer, which then moves past it; a
   * quote that occurs only before the pointer makes `str.index` raise
   * `ValueError`. An entity is labelled with the template's letter and the
   * quote's label, 0 when that is falsy.
   */
  function Spans(source: string, quotes: seq<Quote>, letter: string, pointer: nat): (r: Result<seq<Entity>, Fault>)
    requires pointer <= |source|
    ensures r.Failure? ==> r.error == ValueError
    decreases |quotes|
  {
    if |quotes| == 0 then Success([])
    else if !Contains(source, quotes[0].text) then Spans(source, quotes[1..], letter, pointer)
    else
      var start := Find(source, quotes[0].text, pointer);
      if start < 0 then Failure(ValueError)
      else
        var end := start + |quotes[0].text|;
        var ref := if quotes[0].refReco != 0 then quotes[0].refReco else 0;
        Prefixed([Entity(start, end, letter, ref)], Spans(source, quotes[1..], letter, end))
  }

  /** A quote found from the pointer contributes its entity ahead of those found after it. */
  lemma SpansFound(source: string, quotes: seq<Quote>, letter: string, pointer: nat)
    requires pointer <= |source| && |quotes| > 0 && Contains(source, quotes[0].text)
    requires Find(source, quotes[0].text, pointer) >= 0
    ensures var start := Find(source, quotes[0].text, pointer);
      var end := start + |quotes[0].text|;
      var ref := if quotes[0].refReco != 0 then quotes[0].refReco else 0;
      end <= |source| &&
      Spans(source, quotes, letter, pointer) == Prefixed([Entity(start, end, letter, ref)], Spans(source, quotes[1..], letter, end))
  {
  }

  /** `ents` followed by the entities of a result, or its error. */
  function Prefixed(ents: seq<Entity>, r: Result<seq<Entity>, Fault>): Result<seq<Entity>, Fault>
  {
    match r
    case Failure(e) => Failure(e)
    case Success(rest) => Success(ents + rest)
  }

  lemma PrefixedAppend(ents: seq<Entity>, e: Entity, r: Result<seq<Entity>, Fault>)
    ensures Prefixed(ents, Prefixed([e], r)) == Prefixed(ents + [e], r)
  {
    if r.Success? {
      assert ents + ([e] + r.value) == ents + [e] + r.value;
    }
  }

  /** The entity covers exactly an occurrence of the quote's text and carries its label. */
  ghost predicate Spanned(source: string, e: Entity, q: Quote, letter: string)
  {
    e.end == e.start + |q.text| && OccursAt(source, q.text, e.start) &&
    e.letter == letter && e.ref == q.refReco
  }

  /**
   * The entities `es` are the spans of the quotes `found`, one each and in
   * order, all from `pointer` on.
   */
  ghost predicate Covers(source: string, es: seq<Entity>, found: seq<Quote>, letter: string, pointer: nat)
  {
    |es| == |found| &&
    (forall i :: 0 <= i < |es| ==> pointer <= es[i].start) &&
    (forall i :: 0 <= i < |es| ==> Spanned(source, es[i], found[i], letter))
  }

  /** Each entity ends before the next one starts. */
  ghost predicate Ordered(es: seq<Entity>)
  {
    |es| < 2 || (es[0].end <= es[1].start && Ordered(es[1..]))
  }

  lemma CoversCons(source: string, e: Entity, q: Quote, es: seq<Entity>, found: seq<Quote>, letter: string, pointer: nat)
    requires pointer <= e.start <= e.end && Spanned(source, e, q, letter)
    requires Covers(source, es, found, letter, e.end) && Ordered(es)
    ensures Covers(source, [e] + es, [q] + found, letter, pointer) && Ordered([e] + es)
  {
    var xs, fs := [e] + es, [q] + found;
    forall i | 0 <= i < |xs|
      ensures pointer <= xs[i].start && Spanned(source, xs[i], fs[i], letter)
    {
      if i > 0 {
        assert xs[i] == es[i - 1] && fs[i] == found[i - 1];
      }
    }
    assert xs[1..] == es;
  }

  /**
   * Each entity found is the span of a quote that occurs in the source,
   * in the quotes' order and one per such quote: it starts at or after the
   * pointer, covers exactly the quote's text and carries its label; and each
   * entity ends before the next one starts.
   */
  lemma {:induction false} SpansFacts(source: string, quotes: seq<Quote>, letter: string, pointer: nat)
    requires pointer <= |source|
    ensures Spans(source, quotes, letter, pointer).Success? ==>
      Covers(source, Spans(source, quotes, letter, pointer).value, Found(source, quotes), letter, pointer) &&
      Ordered(Spans(source, quotes, letter, pointer).value)
    decreases |quotes|
  {
    if |quotes| > 0 {
      var q := quotes[0];
      if !Contains(source, q.text) {
        SpansFacts(source, quotes[1..], letter, pointer);
        assert Found(source, quotes) == Found(source, quotes[1..]);
      } else {
        var start := Find(source, q.text, pointer);
        if start >= 0 {
          var end := start + |q.text|;
          var e := Entity(start, end, letter, q.refReco);
          var tail := Spans(source, quotes[1..], letter, end);
          SpansFacts(source, quotes[1..], letter, end);
          assert Found(source, quotes) == [q] + Found(source, quotes[1..]);
          if tail.Success? {
            assert Spans(source, quotes, letter, pointer).value == [e] + tail.value;
            CoversCons(source, e, q, tail.value, Found(source, quotes[1..]), letter, pointer);
          }
        }
      }
    }
  }

  /** The entities for the kind of quotes named, none for any other kind. */
  function DsEntities(source: string, quotes: seq<Quote>, kind: string): Result<seq<Entity>, Fault>
  {
    if kind == "reasons" then Spans(source, quotes, "P", 0)
    else if kind == "conjectures" then Spans(source, quotes, "C", 0)
    else Success([])
  }

  /** `get_ds_entities`: the entities, found with a running pointer; the colours are left out. */
  method GetDsEntities(source: string, quotes: seq<Quote>, kind: string) returns (r: Result<seq<Entity>, Fault>)
    ensures r == DsEntities(source, quotes, kind)
  {
    if kind == "reasons" {
      r := FindSpans(source, quotes, "P");
    } else if kind == "conjectures" {
      r := FindSpans(source, quotes, "C");
    } else {
      r := Success([]);
    }
  }

  /** The loop of `get_ds_entities`: each quote found in the text from the end of the previous one. */
  method FindSpans(source: string, quotes: seq<Quote>, letter: string) returns (r: Result<seq<Entity>, Fault>)
    ensures r == Spans(source, quotes, letter, 0)
  {
    var ents: seq<Entity> := [];
    var pointer: nat := 0;
    assert quotes[0..] == quotes;
    if Spans(source, quotes, letter, 0).Success? {
      assert [] + Spans(source, quotes, letter, 0).value == Spans(source, quotes, letter, 0).value;
    }
    for i := 0 to |quotes|
      invariant pointer <= |source|
      invariant Spans(source, quotes, letter, 0) == Prefixed(ents, Spans(source, quotes[i..], letter, pointer))
    {
      var quote := quotes[i];
      ghost var here := Spans(source, quotes[i..], letter, pointer);
      assert quotes[i..][0] == quote && quotes[i..][1..] == quotes[i + 1..];
      if Contains(source, quote.text) {
        var start := Find(source, quote.text, pointer);
        if start < 0 {
          assert here == Failure(ValueError);
          return Failure(ValueError);
        }
        var end := start + |quote.text|;
        var ref := if quote.refReco != 0 then quote.refReco else 0;
        var e := Entity(start, end, letter, ref);
        SpansFound(source, quotes[i..], letter, pointer);
        PrefixedAppend(ents, e, Spans(source, quotes[i + 1..], letter, end));
        pointer := end;
        ents := ents + [e];
      } else {
        assert here == Spans(source, quotes[i + 1..], letter, pointer);
      }
    }
    assert quotes[|quotes|..] == [];
    assert ents + [] == ents;
    r := Success(ents);
  }

  /** A quote that occurs only before an earlier quote's end makes the lookup raise. */
  lemma OutOfOrderQuoteRaises()
    ensures Spans("ab", [Quote("b", 1, -1), Quote("a", 2, -1)], "P", 0) == Failure(ValueError)
  {
    assert OccursAt("ab", "b", 1);
    assert OccursAt("ab", "a", 0);
    assert Find("ab", "b", 0) == 1;
    assert Find("ab", "a", 0) == 0;
    assert Contains("ab", "a") && Contains("ab", "b");
    assert Find("ab", "a", 2) == -1;
  }

  /** Entities each starting before they end, and each ending before the next one starts, are sorted by start. */
  lemma {:induction false} AdjacentSorted(es: seq<Entity>)
    requires forall i :: 0 <= i < |es| ==> es[i].start <= es[i].end
    requires Ordered(es)
    ensures SortedBy(es, StartOf)
  {
    if |es| > 1 {
      AdjacentSorted(es[1..]);
      assert forall j :: 1 <= j < |es| ==> es[j] == es[1..][j - 1];
      assert forall j :: 1 <= j < |es| ==> es[1].start <= es[j].start;
    }
  }

  /**
   * `build_displacy_html` without the rendering: the conjectures' entities,
   * merged with the reasons' and sorted by start when both are present, or
   * the reasons' alone.
   */
  function DisplacyEntities(item: Item): Result<seq<Entity>, Fault>
  {
    if |item.conjectures| > 0 then
      match DsEntities(item.sourceText, item.conjectures, "conjectures")
      case Failure(e) => Failure(e)
      case Success(c) =>
        if |item.reasons| > 0 then
          match DsEntities(item.sourceText, item.reasons, "reasons")
          case Failure(e) => Failure(e)
          case Success(p) => Success(SortBy(c + p, StartOf))
        else Success(c)
    else if |item.reasons| > 0 then DsEntities(item.sourceText, item.reasons, "reasons")
    else Success([])
  }

  /**
   * The merged entities are sorted by start in every case, and are exactly
   * the conjectures' and the reasons' entities together.
   */
  lemma DisplacySorted(item: Item)
    ensures DisplacyEntities(item).Success? ==> SortedBy(DisplacyEntities(item).value, StartOf)
    ensures DisplacyEntities(item).Success? && |item.conjectures| > 0 && |item.reasons| > 0 ==>
      multiset(DisplacyEntities(item).value) ==
        multiset(Spans(item.sourceText, item.conjectures, "C", 0).value) +
        multiset(Spans(item.sourceText, item.reasons, "P", 0).value)
  {
    var c := Spans(item.sourceText, item.conjectures, "C", 0);
    var p := Spans(item.sourceText, item.reasons, "P", 0);
    SpansFacts(item.sourceText, item.conjectures, "C", 0);
    SpansFacts(item.sourceText, item.reasons, "P", 0);
    if c.Success? {
      AdjacentSorted(c.value);
    }
    if p.Success? {
      AdjacentSorted(p.value);
    }
  }
}
