/**
 * The parts of `gui/option_renderer.py` that compute rather than draw: which
 * renderer an option gets, the question shown with a text option, and the
 * conversion between the quotes of a reasons-and-conjectures option and the
 * labelled selections of the annotation widget, in both directions.
 */
module OptionRenderers {
  import opened Wrappers
  import opened Text
  import opened Sorting
  import opened Analysis
  import opened InputOptions

  // ---------------------------------------------------------------------
  // option_gui_factory and the questions
  // ---------------------------------------------------------------------

  /** The renderer of each kind of option, holding the option it renders. */
  datatype Renderer =
    | ChoiceRenderer(option: InputOption)
    | TextRenderer(option: InputOption)
    | QuoteRenderer(option: InputOption)
    | ReasonsConjecturesRenderer(option: InputOption)

  /** `option_gui_factory`: the renderer made for the option's own kind, around that option. */
  function GuiFactory(option: InputOption): (r: Renderer)
    ensures r.option == option
    ensures r.ChoiceRenderer? <==> option.ChoiceOption?
    ensures r.TextRenderer? <==> option.TextOption?
    ensures r.QuoteRenderer? <==> option.QuoteOption?
    ensures r.ReasonsConjecturesRenderer? <==> option.ReasonsConjecturesOption?
  {
    match option
    case ChoiceOption(_, _, _, _, _) => ChoiceRenderer(option)
    case TextOption(_, _, _, _, _) => TextRenderer(option)
    case QuoteOption(_, _, _, _, _, _) => QuoteRenderer(option)
    case ReasonsConjecturesOption(_, _, _, _, _, _) => ReasonsConjecturesRenderer(option)
  }

  /** A question in an f-string: its text, or `None` when there is none. */
  function Shown(question: Option<string>): string
  {
    if question.Some? then question.value else "None"
  }

  const ArgdownLink: string := " (See also [argdown.org](https://argdown.org/syntax/#premise-conclusion-structures))"

  /** `TextOptionStRenderer.question`: the question, with a link to the argdown syntax for a reconstruction. */
  function TextQuestion(option: InputOption): (r: string)
    requires option.TextOption?
    ensures |r| >= |Shown(option.question)| && r[..|Shown(option.question)|] == Shown(option.question)
    ensures |r| > |Shown(option.question)| <==> option.field == ArgdownReconstruction
  {
    Shown(option.question) + (if option.field == ArgdownReconstruction then ArgdownLink else "")
  }

  /** `ReasonsConjecturesOptionStRenderer.question`: the question and a reminder to update. */
  function AnnotationQuestion(option: InputOption): (r: string)
    requires option.ReasonsConjecturesOption?
    ensures |r| > |Shown(option.question)| && r[..|Shown(option.question)|] == Shown(option.question)
  {
    Shown(option.question) + " (N.B.: Click 'update' before submitting.)"
  }

  // ---------------------------------------------------------------------
  // Labels
  // ---------------------------------------------------------------------

  const GenericPremise: string := "Generic Premise"
  const GenericConclusion: string := "Generic Conclusion"

  /** The two sides of the annotation: reasons are premises, conjectures conclusions. */
  datatype Side = ReasonSide | ConjectureSide

  /** The letter a specific label of the side starts with. */
  function Letter(side: Side): char
  {
    if side == ReasonSide then 'P' else 'C'
  }

  /** The label of a selection of the side whose statement is not known. */
  function Generic(side: Side): string
  {
    if side == ReasonSide then GenericPremise else GenericConclusion
  }

  /** The label of statement `k` on the side: `P3` or `C3`. */
  function LabelOf(side: Side, k: int): string
  {
    [Letter(side)] + IntToString(k)
  }

  /** The labels of a list of statements. */
  function LabelsOf(side: Side, ks: seq<int>): (r: seq<string>)
    ensures |r| == |ks| && forall i :: 0 <= i < |ks| ==> r[i] == LabelOf(side, ks[i])
  {
    seq(|ks|, i requires 0 <= i < |ks| => LabelOf(side, ks[i]))
  }

  /**
   * `get_labels`: the generic premise, a label per premise, the generic
   * conclusion and a label per conclusion.
   */
  function Labels(premiseLabels: seq<int>, conclusionLabels: seq<int>): (r: seq<string>)
    ensures |r| == |premiseLabels| + |conclusionLabels| + 2
    ensures r[0] == GenericPremise && r[|premiseLabels| + 1] == GenericConclusion
    ensures r[1..|premiseLabels| + 1] == LabelsOf(ReasonSide, premiseLabels)
    ensures r[|premiseLabels| + 2..] == LabelsOf(ConjectureSide, conclusionLabels)
  {
    var ps, cs := LabelsOf(ReasonSide, premiseLabels), LabelsOf(ConjectureSide, conclusionLabels);
    var tail := [GenericConclusion] + cs;
    var r := [GenericPremise] + (ps + tail);
    assert r[1..] == ps + tail;
    assert r[1..|ps| + 1] == ps by {
      assert r[1..|ps| + 1] == (ps + tail)[..|ps|];
    }
    assert r[|ps| + 2..] == cs by {
      assert r[|ps| + 2..] == tail[1..];
    }
    r
  }

  /** The statements of the side the option offers labels for. */
  function Known(side: Side, premiseLabels: seq<int>, conclusionLabels: seq<int>): seq<int>
  {
    if side == ReasonSide then premiseLabels else conclusionLabels
  }

  /** Two labels of statements are equal only for the same side and statement. */
  lemma LabelInjective(a: Side, j: int, b: Side, k: int)
    requires LabelOf(a, j) == LabelOf(b, k)
    ensures a == b && j == k
  {
    assert LabelOf(a, j)[0] == Letter(a) && LabelOf(b, k)[0] == Letter(b);
    assert LabelOf(a, j)[1..] == IntToString(j) && LabelOf(b, k)[1..] == IntToString(k);
    IntRoundTrip(j);
    IntRoundTrip(k);
  }

  /** The label of the `i`-th premise sits right after the generic premise's. */
  lemma PremiseLabelAt(premiseLabels: seq<int>, conclusionLabels: seq<int>, i: int)
    requires 0 <= i < |premiseLabels|
    ensures Labels(premiseLabels, conclusionLabels)[i + 1] == LabelOf(ReasonSide, premiseLabels[i])
  {
    var ls := Labels(premiseLabels, conclusionLabels);
    assert ls[i + 1] == ls[1..|premiseLabels| + 1][i];
  }

  /** The label of the `i`-th conclusion sits right after the generic conclusion's. */
  lemma ConclusionLabelAt(premiseLabels: seq<int>, conclusionLabels: seq<int>, i: int)
    requires 0 <= i < |conclusionLabels|
    ensures Labels(premiseLabels, conclusionLabels)[i + |premiseLabels| + 2] == LabelOf(ConjectureSide, conclusionLabels[i])
  {
    var ls := Labels(premiseLabels, conclusionLabels);
    assert ls[i + |premiseLabels| + 2] == ls[|premiseLabels| + 2..][i];
  }

  /** The labels offered for the statements listed on a side include each one's label. */
  lemma LabelListed(side: Side, k: int, premiseLabels: seq<int>, conclusionLabels: seq<int>)
    requires k in Known(side, premiseLabels, conclusionLabels)
    ensures LabelOf(side, k) in Labels(premiseLabels, conclusionLabels)
  {
    if side == ReasonSide {
      var i :| 0 <= i < |premiseLabels| && premiseLabels[i] == k;
      PremiseLabelAt(premiseLabels, conclusionLabels, i);
    } else {
      var i :| 0 <= i < |conclusionLabels| && conclusionLabels[i] == k;
      ConclusionLabelAt(premiseLabels, conclusionLabels, i);
    }
  }

  /** A statement's label among the labels offered is that of a statement listed on its side. */
  lemma OnlyListed(side: Side, k: int, premiseLabels: seq<int>, conclusionLabels: seq<int>, i: int)
    requires 0 <= i < |Labels(premiseLabels, conclusionLabels)|
    requires Labels(premiseLabels, conclusionLabels)[i] == LabelOf(side, k)
    ensures k in Known(side, premiseLabels, conclusionLabels)
  {
    var ls := Labels(premiseLabels, conclusionLabels);
    var np := |premiseLabels|;
    assert LabelOf(side, k)[0] == Letter(side);
    if i == 0 || i == np + 1 {
      assert false;
    } else if i <= np {
      assert ls[i] == ls[1..np + 1][i - 1] == LabelOf(ReasonSide, premiseLabels[i - 1]);
      LabelInjective(side, k, ReasonSide, premiseLabels[i - 1]);
    } else {
      assert ls[i] == ls[np + 2..][i - np - 2] == LabelOf(ConjectureSide, conclusionLabels[i - np - 2]);
      LabelInjective(side, k, ConjectureSide, conclusionLabels[i - np - 2]);
    }
  }

  /**
   * A statement's label is offered exactly when the option lists that
   * statement on that side.
   */
  lemma LabelOffered(side: Side, k: int, premiseLabels: seq<int>, conclusionLabels: seq<int>)
    ensures LabelOf(side, k) in Labels(premiseLabels, conclusionLabels) <==> k in Known(side, premiseLabels, conclusionLabels)
  {
    var ls := Labels(premiseLabels, conclusionLabels);
    if k in Known(side, premiseLabels, conclusionLabels) {
      LabelListed(side, k, premiseLabels, conclusionLabels);
    } else if LabelOf(side, k) in ls {
      var i :| 0 <= i < |ls| && ls[i] == LabelOf(side, k);
      OnlyListed(side, k, premiseLabels, conclusionLabels, i);
    }
  }

  // ---------------------------------------------------------------------
  // Selections
  // ---------------------------------------------------------------------

  /** A span of the source text the user marked, with the labels given to it. */
  datatype Selection = Selection(start: int, end: int, text: string, labels: seq<string>)

  function StartOf(s: Selection): int
  {
    s.start
  }

  /** Two selections share at least one character. */
  predicate Overlap(a: Selection, b: Selection)
  {
    a.start < b.end && b.start < a.end
  }

  /** Each selection, in order of start, ends before the next one starts. */
  predicate Adjacent(xs: seq<Selection>)
  {
    forall i :: 0 <= i < |xs| - 1 ==> xs[i].end <= xs[i + 1].start
  }

  /** `_non_overlapping_selections` on values: the selections sorted by start never reach into the next one. */
  predicate NonOverlapping(selected: seq<Selection>)
  {
    Adjacent(SortBy(selected, StartOf))
  }

  /** `_non_overlapping_selections`: sorts the selections and compares each with the next. */
  method NonOverlappingSelections(selected: seq<Selection>) returns (ok: bool)
    ensures ok <==> NonOverlapping(selected)
  {
    var sorted := SortBy(selected, StartOf);
    if |sorted| == 0 {
      return true;
    }
    for i := 0 to |sorted| - 1
      invariant forall k :: 0 <= k < i ==> sorted[k].end <= sorted[k + 1].start
    {
      if sorted[i].end > sorted[i + 1].start {
        return false;
      }
    }
    return true;
  }

  /** No two selections of the list, at different positions, overlap. */
  predicate Disjoint(xs: seq<Selection>)
  {
    forall i, j :: 0 <= i < j < |xs| ==> !Overlap(xs[i], xs[j])
  }

  /** The same, for a bag of selections: no selection twice, no two different ones overlapping. */
  predicate DisjointBag(m: multiset<Selection>)
  {
    (forall a :: a in m ==> m[a] == 1) && (forall a, b :: a in m && b in m && a != b ==> !Overlap(a, b))
  }

  /** Every selection covers at least one character. */
  predicate NonEmpty(xs: seq<Selection>)
  {
    forall i :: 0 <= i < |xs| ==> xs[i].start < xs[i].end
  }

  /** For selections sorted by start, comparing neighbours decides whether any two overlap. */
  lemma AdjacentIffDisjoint(xs: seq<Selection>)
    requires SortedBy(xs, StartOf) && NonEmpty(xs)
    ensures Adjacent(xs) <==> Disjoint(xs)
  {
    if Adjacent(xs) {
      forall i, j | 0 <= i < j < |xs|
        ensures !Overlap(xs[i], xs[j])
      {
        assert xs[i].end <= xs[i + 1].start;
        assert StartOf(xs[i + 1]) <= StartOf(xs[j]);
      }
    }
    if Disjoint(xs) {
      forall i | 0 <= i < |xs| - 1
        ensures xs[i].end <= xs[i + 1].start
      {
        assert !Overlap(xs[i], xs[i + 1]);
        assert StartOf(xs[i]) <= StartOf(xs[i + 1]);
      }
    }
  }

  /** A selection occurring twice is counted twice. */
  lemma TwiceCounted(xs: seq<Selection>, i: nat, j: nat)
    requires i < j < |xs| && xs[i] == xs[j]
    ensures multiset(xs)[xs[i]] >= 2
  {
    assert xs == xs[..j] + xs[j..];
    assert xs[i] in xs[..j];
    assert xs[j] == xs[j..][0];
  }

  /** A selection counted twice occurs at two positions. */
  lemma {:induction false} CountedTwice(xs: seq<Selection>, a: Selection) returns (i: nat, j: nat)
    requires multiset(xs)[a] >= 2
    ensures i < j < |xs| && xs[i] == a && xs[j] == a
  {
    assert xs == [xs[0]] + xs[1..];
    if xs[0] == a {
      assert a in multiset(xs[1..]);
      var k :| 0 <= k < |xs[1..]| && xs[1..][k] == a;
      i, j := 0, k + 1;
    } else {
      var i', j' := CountedTwice(xs[1..], a);
      i, j := i' + 1, j' + 1;
    }
  }

  /** Non-empty selections are pairwise disjoint exactly when their bag is: disjointness ignores order. */
  lemma DisjointIffBag(xs: seq<Selection>)
    requires NonEmpty(xs)
    ensures Disjoint(xs) <==> DisjointBag(multiset(xs))
  {
    var m := multiset(xs);
    if Disjoint(xs) {
      forall a | a in m
        ensures m[a] == 1
      {
        if m[a] >= 2 {
          var i, j := CountedTwice(xs, a);
          assert false;
        }
      }
      forall a, b | a in m && b in m && a != b
        ensures !Overlap(a, b)
      {
        var i :| 0 <= i < |xs| && xs[i] == a;
        var j :| 0 <= j < |xs| && xs[j] == b;
        if i < j {
          assert !Overlap(xs[i], xs[j]);
        } else {
          assert !Overlap(xs[j], xs[i]);
        }
      }
    }
    if DisjointBag(m) {
      forall i, j | 0 <= i < j < |xs|
        ensures !Overlap(xs[i], xs[j])
      {
        if xs[i] == xs[j] {
          TwiceCounted(xs, i, j);
        }
      }
    }
  }

  /**
   * The check the widget runs: non-empty selections pass it exactly when no
   * two of them overlap, whatever their order.
   */
  lemma NonOverlappingMeansDisjoint(selected: seq<Selection>)
    requires NonEmpty(selected)
    ensures NonOverlapping(selected) <==> DisjointBag(multiset(selected))
  {
    var sorted := SortBy(selected, StartOf);
    forall i | 0 <= i < |sorted|
      ensures sorted[i].start < sorted[i].end
    {
      assert sorted[i] in multiset(selected);
    }
    AdjacentIffDisjoint(sorted);
    DisjointIffBag(sorted);
  }

  // ---------------------------------------------------------------------
  // initial_selection: quotes to selections
  // ---------------------------------------------------------------------

  /**
   * The selection of a quote that occurs in the body: labelled with its
   * statement when the option offers that label, generically otherwise;
   * starting where the quote says, or at the first occurrence of its text
   * when it has no position.
   */
  function SelectionOf(body: string, labels: seq<string>, side: Side, q: Quote): Selection
  {
    var chosenLabel := if LabelOf(side, q.refReco) in labels then LabelOf(side, q.refReco) else Generic(side);
    var start := if q.startsAt >= 0 then q.startsAt else Find(body, q.text, 0);
    Selection(start, start + |q.text|, q.text, [chosenLabel])
  }

  /** The selections of the quotes that occur in the body, in order; the others are skipped. */
  function SelectionsOf(body: string, labels: seq<string>, side: Side, quotes: seq<Quote>): (r: seq<Selection>)
    ensures |r| <= |quotes|
  {
    if |quotes| == 0 then []
    else
      var init := SelectionsOf(body, labels, side, quotes[..|quotes| - 1]);
      var q := quotes[|quotes| - 1];
      if Contains(body, q.text) then init + [SelectionOf(body, labels, side, q)] else init
  }

  /** `initial_selection` on values: nothing for an empty body, else the reasons' selections, then the conjectures'. */
  function InitialSelection(option: InputOption): seq<Selection>
    requires option.ReasonsConjecturesOption?
  {
    var body := option.sourceText;
    var labels := Labels(option.premiseLabels, option.conclusionLabels);
    if |body| == 0 then []
    else SelectionsOf(body, labels, ReasonSide, option.initialReasons) +
         SelectionsOf(body, labels, ConjectureSide, option.initialConjectures)
  }

  /** One of the two loops of `initial_selection`. */
  method SelectQuotes(body: string, labels: seq<string>, side: Side, quotes: seq<Quote>) returns (selected: seq<Selection>)
    ensures selected == SelectionsOf(body, labels, side, quotes)
  {
    selected := [];
    for i := 0 to |quotes|
      invariant selected == SelectionsOf(body, labels, side, quotes[..i])
    {
      assert quotes[..i + 1][..i] == quotes[..i];
      var q := quotes[i];
      if !Contains(body, q.text) {
        continue;
      }
      var chosenLabel := LabelOf(side, q.refReco);
      if chosenLabel !in labels {
        chosenLabel := Generic(side);
      }
      var start;
      if q.startsAt >= 0 {
        start := q.startsAt;
      } else {
        start := Find(body, q.text, 0);
      }
      selected := selected + [Selection(start, start + |q.text|, q.text, [chosenLabel])];
    }
    assert quotes[..|quotes|] == quotes;
  }

  /** `initial_selection`. */
  method GetInitialSelection(option: InputOption) returns (selected: seq<Selection>)
    requires option.ReasonsConjecturesOption?
    ensures selected == InitialSelection(option)
  {
    var body := option.sourceText;
    if |body| == 0 {
      return [];
    }
    var labels := Labels(option.premiseLabels, option.conclusionLabels);
    var reasons := SelectQuotes(body, labels, ReasonSide, option.initialReasons);
    var conjectures := SelectQuotes(body, labels, ConjectureSide, option.initialConjectures);
    selected := reasons + conjectures;
  }

  // ---------------------------------------------------------------------
  // postprocess_input: selections to quotes
  // ---------------------------------------------------------------------

  /** `s.labels[0][0]` can be read. */
  predicate Readable(s: Selection)
  {
    |s.labels| > 0 && |s.labels[0]| > 0
  }

  /** Every selection's first label can be read. */
  predicate AllReadable(sels: seq<Selection>)
  {
    forall i :: 0 <= i < |sels| ==> Readable(sels[i])
  }

  /** The selection belongs to the side: its first label starts with the side's letter, or it carries the generic label. */
  predicate OnSide(s: Selection, side: Side)
    requires Readable(s)
  {
    s.labels[0][0] == Letter(side) || Generic(side) in s.labels
  }

  /** The selections of the side, in order. */
  function Filter(sels: seq<Selection>, side: Side): (r: seq<Selection>)
    requires AllReadable(sels)
    ensures forall s :: s in r <==> s in sels && OnSide(s, side)
  {
    if |sels| == 0 then []
    else
      var init, s := sels[..|sels| - 1], sels[|sels| - 1];
      assert sels == init + [s];
      Filter(init, side) + (if OnSide(s, side) then [s] else [])
  }

  /** The selections of a side are among the selections, each as often as it was selected at most. */
  lemma {:induction false} FilterCounts(sels: seq<Selection>, side: Side)
    requires AllReadable(sels)
    ensures multiset(Filter(sels, side)) <= multiset(sels)
  {
    if |sels| > 0 {
      var init, s := sels[..|sels| - 1], sels[|sels| - 1];
      assert sels == init + [s];
      FilterCounts(init, side);
    }
  }

  /** `s[1:]`: everything after the first character. */
  function Tail(s: string): string
  {
    if |s| == 0 then "" else s[1..]
  }

  /**
   * The statement a selection of the side refers to: -1 when its first
   * label is the generic one, else the integer after the first character
   * of its last label, whose parsing may raise `ValueError`.
   */
  function RefRecoOf(s: Selection, side: Side): Result<int, Fault>
    requires |s.labels| > 0
  {
    if s.labels[0] == Generic(side) then Success(-1)
    else match ParseInt(Tail(s.labels[|s.labels| - 1]))
      case None => Failure(ValueError)
      case Some(n) => Success(n)
  }

  /** The quotes of the selections of one side, in order. */
  function Statements(sels: seq<Selection>, side: Side): (r: Result<seq<Quote>, Fault>)
    requires AllReadable(sels)
    ensures r.Failure? ==> r.error == ValueError
  {
    if |sels| == 0 then Success([])
    else
      var init, s := sels[..|sels| - 1], sels[|sels| - 1];
      match Statements(init, side)
      case Failure(e) => Failure(e)
      case Success(qs) =>
        match RefRecoOf(s, side)
        case Failure(e) => Failure(e)
        case Success(ref) => Success(qs + [Quote(s.text, ref, s.start)])
  }

  /** Once a selection's statement cannot be read, the whole list raises. */
  lemma {:induction false} StatementsPrefixFails(sels: seq<Selection>, side: Side, j: nat)
    requires j <= |sels| && AllReadable(sels) && Statements(sels[..j], side).Failure?
    ensures Statements(sels, side) == Failure(ValueError)
    decreases |sels| - j
  {
    if j == |sels| {
      assert sels[..j] == sels;
    } else {
      var init := sels[..|sels| - 1];
      assert init[..j] == sels[..j];
      StatementsPrefixFails(init, side, j);
    }
  }

  /** The quote keeps the selection's text and start, and refers to the statement the selection's labels name. */
  ghost predicate Converted(q: Quote, s: Selection, side: Side)
    requires |s.labels| > 0
  {
    q.text == s.text && q.startsAt == s.start && RefRecoOf(s, side) == Success(q.refReco)
  }

  /** A successful conversion ends with the conversion of the last selection. */
  lemma StatementsLast(sels: seq<Selection>, side: Side)
    requires AllReadable(sels) && |sels| > 0 && Statements(sels, side).Success?
    ensures Statements(sels[..|sels| - 1], side).Success?
    ensures RefRecoOf(sels[|sels| - 1], side).Success?
    ensures Statements(sels, side).value == Statements(sels[..|sels| - 1], side).value
      + [Quote(sels[|sels| - 1].text, RefRecoOf(sels[|sels| - 1], side).value, sels[|sels| - 1].start)]
  {
  }

  /** Each quote is the conversion of the selection at the same position. */
  lemma {:induction false} StatementsConvert(sels: seq<Selection>, side: Side)
    requires AllReadable(sels)
    ensures Statements(sels, side).Success? ==>
      |Statements(sels, side).value| == |sels| &&
      forall i :: 0 <= i < |sels| ==> Converted(Statements(sels, side).value[i], sels[i], side)
  {
    if |sels| > 0 && Statements(sels, side).Success? {
      var init, s := sels[..|sels| - 1], sels[|sels| - 1];
      StatementsLast(sels, side);
      StatementsConvert(init, side);
      assert sels == init + [s];
      ConvertedAppend(Statements(init, side).value, init, Quote(s.text, RefRecoOf(s, side).value, s.start), s, side);
    }
  }

  /** Appending a converted pair to converted lists keeps them converted position by position. */
  lemma ConvertedAppend(qs: seq<Quote>, init: seq<Selection>, q: Quote, s: Selection, side: Side)
    requires AllReadable(init) && |s.labels| > 0 && |qs| == |init|
    requires forall i :: 0 <= i < |init| ==> Converted(qs[i], init[i], side)
    requires Converted(q, s, side)
    ensures forall i :: 0 <= i < |init| + 1 ==> Converted((qs + [q])[i], (init + [s])[i], side)
  {
    forall i | 0 <= i < |init| + 1
      ensures Converted((qs + [q])[i], (init + [s])[i], side)
    {
      if i < |init| {
        assert (qs + [q])[i] == qs[i] && (init + [s])[i] == init[i];
      }
    }
  }

  /** The selections of a side, sorted by start, still have readable labels. */
  lemma SortedReadable(sels: seq<Selection>, side: Side)
    requires AllReadable(sels)
    ensures AllReadable(SortBy(Filter(sels, side), StartOf))
  {
    var f := Filter(sels, side);
    var sorted := SortBy(f, StartOf);
    forall i | 0 <= i < |sorted|
      ensures Readable(sorted[i])
    {
      assert sorted[i] in multiset(sorted);
      assert sorted[i] in f;
      var k :| 0 <= k < |sels| && sels[k] == sorted[i];
    }
  }

  /** The reasons and the conjectures of an annotation. */
  datatype Annotation = Annotation(reasons: seq<Quote>, conjectures: seq<Quote>)

  /** The selections of a side, in order of start. */
  function SideSorted(selected: seq<Selection>, side: Side): (r: seq<Selection>)
    requires AllReadable(selected)
    ensures AllReadable(r)
  {
    SortedReadable(selected, side);
    SortBy(Filter(selected, side), StartOf)
  }

  /**
   * `postprocess_input` on values: no annotation (`{}`) for overlapping
   * selections; else the quotes of each side, sorted by start, or the
   * error raised on the way.
   */
  function Postprocess(selected: seq<Selection>): Result<Option<Annotation>, Fault>
  {
    if !NonOverlapping(selected) then Success(None)
    else if !AllReadable(selected) then Failure(IndexError)
    else
      match Statements(SideSorted(selected, ReasonSide), ReasonSide)
      case Failure(e) => Failure(e)
      case Success(reasons) =>
        match Statements(SideSorted(selected, ConjectureSide), ConjectureSide)
        case Failure(e) => Failure(e)
        case Success(conjectures) => Success(Some(Annotation(reasons, conjectures)))
  }

  /** `ready`: an annotation can be submitted when there is one. */
  predicate Ready(input: Option<Annotation>)
  {
    input.Some?
  }

  /** The comprehension selecting one side; reading a selection's first label may raise `IndexError`. */
  method SelectSide(selected: seq<Selection>, side: Side) returns (r: Result<seq<Selection>, Fault>)
    ensures AllReadable(selected) ==> r == Success(Filter(selected, side))
    ensures !AllReadable(selected) ==> r == Failure(IndexError)
  {
    var chosen: seq<Selection> := [];
    for i := 0 to |selected|
      invariant AllReadable(selected[..i])
      invariant chosen == Filter(selected[..i], side)
    {
      var s := selected[i];
      if !Readable(s) {
        return Failure(IndexError);
      }
      assert selected[..i + 1] == selected[..i] + [s];
      assert selected[..i + 1][..i] == selected[..i];
      if s.labels[0][0] == Letter(side) || Generic(side) in s.labels {
        chosen := chosen + [s];
      }
    }
    assert selected[..|selected|] == selected;
    r := Success(chosen);
  }

  /** One more selection either raises or appends its quote. */
  lemma StatementsStep(sels: seq<Selection>, side: Side, i: nat)
    requires AllReadable(sels) && i < |sels|
    ensures Statements(sels[..i], side).Success? ==>
      Statements(sels[..i + 1], side) ==
        if RefRecoOf(sels[i], side).Failure? then Failure(ValueError)
        else Success(Statements(sels[..i], side).value + [Quote(sels[i].text, RefRecoOf(sels[i], side).value, sels[i].start)])
  {
    assert sels[..i + 1][..i] == sels[..i];
  }

  /** One of the two statement loops of `postprocess_input`. */
  method BuildStatements(sels: seq<Selection>, side: Side) returns (r: Result<seq<Quote>, Fault>)
    requires AllReadable(sels)
    ensures r == Statements(sels, side)
  {
    var statements: seq<Quote> := [];
    for i := 0 to |sels|
      invariant Statements(sels[..i], side) == Success(statements)
    {
      StatementsStep(sels, side, i);
      var s := sels[i];
      var ref;
      if s.labels[0] == Generic(side) {
        ref := -1;
      } else {
        var parsed := ParseInt(Tail(s.labels[|s.labels| - 1]));
        if parsed.None? {
          assert RefRecoOf(s, side).Failure?;
          StatementsPrefixFails(sels, side, i + 1);
          return Failure(ValueError);
        }
        ref := parsed.value;
      }
      assert RefRecoOf(s, side) == Success(ref);
      statements := statements + [Quote(s.text, ref, s.start)];
    }
    assert sels[..|sels|] == sels;
    r := Success(statements);
  }

  /** `postprocess_input`. */
  method PostprocessInput(selected: seq<Selection>) returns (r: Result<Option<Annotation>, Fault>)
    ensures r == Postprocess(selected)
  {
    var ok := NonOverlappingSelections(selected);
    if !ok {
      return Success(None);
    }
    var reasonSelections := SelectSide(selected, ReasonSide);
    if reasonSelections.Failure? {
      return Failure(reasonSelections.error);
    }
    SortedReadable(selected, ReasonSide);
    var reasons := BuildStatements(SortBy(reasonSelections.value, StartOf), ReasonSide);
    if reasons.Failure? {
      return Failure(reasons.error);
    }
    var conjectureSelections := SelectSide(selected, ConjectureSide);
    assert conjectureSelections.Success?;
    SortedReadable(selected, ConjectureSide);
    var conjectures := BuildStatements(SortBy(conjectureSelections.value, StartOf), ConjectureSide);
    if conjectures.Failure? {
      return Failure(conjectures.error);
    }
    r := Success(Some(Annotation(reasons.value, conjectures.value)));
  }

  /**
   * The annotation is ready exactly when the selections do not overlap;
   * when they do, nothing is raised.
   */
  lemma ReadyIffNonOverlapping(selected: seq<Selection>)
    ensures !NonOverlapping(selected) ==> Postprocess(selected) == Success(None)
    ensures Postprocess(selected).Success? ==> (Ready(Postprocess(selected).value) <==> NonOverlapping(selected))
  {
  }

  /**
   * The quotes of each side are the selections of that side, in order of
   * start: each keeps its selection's text and start, and refers to the
   * statement its labels name.
   */
  lemma PostprocessSides(selected: seq<Selection>, side: Side)
    requires Postprocess(selected).Success? && Postprocess(selected).value.Some?
    ensures AllReadable(selected)
    ensures var a := Postprocess(selected).value.value;
      var quotes := if side == ReasonSide then a.reasons else a.conjectures;
      var sels := SideSorted(selected, side);
      multiset(sels) <= multiset(selected) && |quotes| == |sels| &&
      (forall i, j :: 0 <= i < j < |quotes| ==> quotes[i].startsAt <= quotes[j].startsAt) &&
      (forall i :: 0 <= i < |quotes| ==> OnSide(sels[i], side) && Converted(quotes[i], sels[i], side))
  {
    var sels := SideSorted(selected, side);
    var a := Postprocess(selected).value.value;
    var quotes := if side == ReasonSide then a.reasons else a.conjectures;
    assert Statements(sels, side) == Success(quotes);
    StatementsConvert(sels, side);
    SideSortedSelections(selected, side);
    forall i, j | 0 <= i < j < |quotes|
      ensures quotes[i].startsAt <= quotes[j].startsAt
    {
      assert StartOf(sels[i]) <= StartOf(sels[j]);
    }
  }

  /** The selections of one side are drawn from the selected ones, lie on that side and are ordered by start. */
  lemma SideSortedSelections(selected: seq<Selection>, side: Side)
    requires AllReadable(selected)
    ensures var sels := SideSorted(selected, side);
      multiset(sels) <= multiset(selected) && SortedBy(sels, StartOf) &&
      forall i :: 0 <= i < |sels| ==> OnSide(sels[i], side)
  {
    var sels := SideSorted(selected, side);
    FilterCounts(selected, side);
    forall i | 0 <= i < |sels|
      ensures OnSide(sels[i], side)
    {
      assert sels[i] in multiset(Filter(selected, side));
    }
  }

  /**
   * One quote that occurs in the body becomes a selection covering the
   * quote's text: at the quote's position when it has one, at the first
   * occurrence otherwise.
   */
  lemma SelectionCovers(body: string, labels: seq<string>, side: Side, q: Quote)
    requires Contains(body, q.text)
    ensures var s := SelectionOf(body, labels, side, q);
      s.text == q.text && s.end - s.start == |q.text| && |s.labels| == 1 && s.labels[0] in labels + [Generic(side)] &&
      (q.startsAt >= 0 ==> s.start == q.startsAt) &&
      (q.startsAt < 0 ==> OccursAt(body, q.text, s.start) && s.start == Find(body, q.text, 0))
  {
  }

  /** A selection labelled with a statement's label belongs to that label's side only and reads back as the statement. */
  lemma SpecificLabelReadsBack(s: Selection, side: Side, k: int)
    requires s.labels == [LabelOf(side, k)]
    ensures Readable(s) && OnSide(s, side) && !OnSide(s, Other(side)) && RefRecoOf(s, side) == Success(k)
  {
    var l := LabelOf(side, k);
    assert l[0] == Letter(side);
    assert Generic(side) != l && Generic(Other(side)) != l by {
      assert GenericPremise[0] == 'G' && GenericConclusion[0] == 'G';
    }
    assert Tail(l) == IntToString(k);
    IntRoundTrip(k);
  }

  /** A selection with the side's generic label belongs to that side only and reads back as -1. */
  lemma GenericLabelReadsBack(s: Selection, side: Side)
    requires s.labels == [Generic(side)]
    ensures Readable(s) && OnSide(s, side) && !OnSide(s, Other(side)) && RefRecoOf(s, side) == Success(-1)
  {
    assert GenericPremise[0] == 'G' && GenericConclusion[0] == 'G' && GenericPremise != GenericConclusion;
  }

  /**
   * Round trip of a quote's statement: the quote's selection belongs to the
   * quote's side only, and reads back as the quote's statement when the
   * option offers its label, or as the generic -1 otherwise.
   */
  lemma SelectionRoundTrip(body: string, premiseLabels: seq<int>, conclusionLabels: seq<int>, side: Side, q: Quote)
    ensures var s := SelectionOf(body, Labels(premiseLabels, conclusionLabels), side, q);
      Readable(s) && OnSide(s, side) && !OnSide(s, Other(side)) &&
      RefRecoOf(s, side) == Success(if q.refReco in Known(side, premiseLabels, conclusionLabels) then q.refReco else -1)
  {
    var labels := Labels(premiseLabels, conclusionLabels);
    var s := SelectionOf(body, labels, side, q);
    LabelOffered(side, q.refReco, premiseLabels, conclusionLabels);
    if LabelOf(side, q.refReco) in labels {
      SpecificLabelReadsBack(s, side, q.refReco);
    } else {
      GenericLabelReadsBack(s, side);
    }
  }

  /** The other side. */
  function Other(side: Side): Side
  {
    if side == ReasonSide then ConjectureSide else ReasonSide
  }
}
