/**
 * The input options a user is offered (`inputoption.py`) and the quote
 * annotation codec of `QuoteOption`: quotes of a source text are written as
 * `[quoted text](label)` links inside the source text, and read back with the
 * quote pattern, modelled here by a hand-written scanner with the pattern's
 * backtracking order.
 */
module InputOptions {
  import opened Wrappers
  import opened Text
  import opened Analysis
  import opened Inference

  /**
   * The options: multiple choice, free text, quote marking, and the combined
   * reasons-and-conjectures marking. A context is a list of alternative texts:
   * none when the option has none, one when it was given a single string.
   */
  datatype InputOption =
    | ChoiceOption(context: seq<string>, question: Option<string>, field: Field, answers: seq<(string, string)>, rater: Option<InferenceRater>)
    | TextOption(context: seq<string>, question: Option<string>, field: Field, initialText: Option<string>, rater: Option<InferenceRater>)
    | QuoteOption(question: Option<string>, field: Field, sourceText: string, initialAnnotation: Option<string>,
                  initialQuotes: seq<Quote>, rater: Option<InferenceRater>)
    | ReasonsConjecturesOption(question: Option<string>, sourceText: string, initialReasons: seq<Quote>, initialConjectures: seq<Quote>,
                               premiseLabels: seq<int>, conclusionLabels: seq<int>)

  // ---------------------------------------------------------------------
  // The quote pattern
  // ---------------------------------------------------------------------

  /**
   * One match of the quote pattern at the start of a string: where it ends,
   * the quoted text (group 1) and the link target (group 2).
   */
  datatype QuoteMatch = QuoteMatch(end: nat, text: string, target: string)

  /** The characters the link target stops at, as the pattern is written: only a space. */
  const TargetStopsAsWritten: set<char> := {' '}

  /** The characters a link target evidently may not contain: a space or a closing parenthesis. */
  const TargetStops: set<char> := {' ', ')'}

  /** The end of the run of characters from `i` on that are not in `stop`. */
  function RunEnd(s: string, i: nat, stop: set<char>): (r: nat)
    requires i <= |s|
    ensures i <= r <= |s|
    ensures forall k :: i <= k < r ==> s[k] !in stop
    ensures r < |s| ==> s[r] in stop
    decreases |s| - i
  {
    if i == |s| || s[i] in stop then i else RunEnd(s, i + 1, stop)
  }

  /** The largest `e` in `[lo, hi)` where `s` continues with `")`. */
  function LastQuoteParen(s: string, lo: nat, hi: nat): (r: Option<nat>)
    requires hi <= |s|
    ensures r.Some? ==> lo <= r.value < hi && r.value + 1 < |s| && s[r.value] == '"' && s[r.value + 1] == ')'
    decreases hi
  {
    if hi <= lo then None
    else if hi < |s| && s[hi - 1] == '"' && s[hi] == ')' then Some(hi - 1)
    else LastQuoteParen(s, lo, hi - 1)
  }

  /** The optional title ` "..."` starting at the space at `m`, and the closing parenthesis: the end of the match. */
  function TitleEnd(s: string, m: nat): (r: Option<nat>)
    requires m < |s|
    ensures r.Some? ==> m + 5 <= r.value <= |s| && s[r.value - 1] == ')'
  {
    if m + 1 < |s| && s[m + 1] == '"' then
      match LastQuoteParen(s, m + 3, RunEnd(s, m + 2, {'\n'}))
      case Some(e) => Some(e + 2)
      case None => None
    else None
  }

  /**
   * Backtracking over the end of the link target, from `m` down to `lo`:
   * the target may end at a closing parenthesis, or at a space followed by a
   * title. The result is the end of the target and the end of the match.
   */
  function TargetEnd(s: string, lo: nat, m: nat): (r: Option<(nat, nat)>)
    requires lo <= m <= |s|
    ensures r.Some? ==> lo <= r.value.0 < r.value.1 <= |s|
    decreases m
  {
    var here: Option<(nat, nat)> :=
      if m < |s| && s[m] == ')' then Some((m, m + 1))
      else if m < |s| && s[m] == ' ' then
        (match TitleEnd(s, m)
         case Some(e) => Some((m, e))
         case None => None)
      else None;
    if here.Some? || m == lo then here else TargetEnd(s, lo, m - 1)
  }

  /** `]` at `j` followed by `(`: where the quoted text may end. */
  predicate TextCloses(s: string, j: nat)
  {
    j + 1 < |s| && s[j] == ']' && s[j + 1] == '('
  }

  /**
   * Backtracking over the end of the quoted text, from `j` down to 2 (the
   * quoted text is not empty), of a match starting with `[` at index 0.
   */
  function TextEnd(s: string, j: nat, stops: set<char>): (r: Option<QuoteMatch>)
    requires 2 <= j <= |s|
    ensures r.Some? ==> 0 < r.value.end <= |s|
    decreases j
  {
    var here :=
      if TextCloses(s, j) then
        (match TargetEnd(s, j + 2, RunEnd(s, j + 2, stops))
         case Some((m, e)) => Some(QuoteMatch(e, s[1..j], s[j + 2..m]))
         case None => None)
      else None;
    if here.Some? || j == 2 then here else TextEnd(s, j - 1, stops)
  }

  /** The match of the quote pattern at the start of `s`, if there is one. */
  function MatchAt(s: string, stops: set<char>): (r: Option<QuoteMatch>)
    ensures r.Some? ==> 0 < r.value.end <= |s|
  {
    if |s| >= 3 && s[0] == '[' && RunEnd(s, 1, {'['}) >= 2 then TextEnd(s, RunEnd(s, 1, {'['}), stops)
    else None
  }

  /** `re.finditer` of the quote pattern: a match where one starts, then the search goes on after it. */
  function Scan(s: string, stops: set<char>): seq<QuoteMatch>
    decreases |s|
  {
    if |s| == 0 then []
    else
      match MatchAt(s, stops)
      case Some(m) => [m] + Scan(s[m.end..], stops)
      case None => Scan(s[1..], stops)
  }

  // ---------------------------------------------------------------------
  // Annotations
  // ---------------------------------------------------------------------

  /** A piece of an annotation: source text as it is, or a quote with its label. */
  datatype Segment = Plain(text: string) | Marked(text: string, refReco: int)

  /** The markup of one quote. */
  function Markup(text: string, refReco: int): string
  {
    "[" + text + "](" + IntToString(refReco) + ")"
  }

  function RenderSegment(g: Segment): string
  {
    match g
    case Plain(t) => t
    case Marked(t, r) => Markup(t, r)
  }

  /** The annotation the pieces spell. */
  function Render(segs: seq<Segment>): string
  {
    if |segs| == 0 then "" else RenderSegment(segs[0]) + Render(segs[1..])
  }

  /** The pieces with the markup removed. */
  function Erase(segs: seq<Segment>): string
  {
    if |segs| == 0 then "" else segs[0].text + Erase(segs[1..])
  }

  /**
   * The pieces `quotes_as_annotation` builds from `pointer` on: each quote
   * found at or after the pointer is marked where it is first found, and
   * the pointer moves past it; a quote not found is skipped.
   */
  function Segments(s: string, quotes: seq<Quote>, pointer: nat): seq<Segment>
    requires pointer <= |s|
    decreases |quotes|
  {
    if |quotes| == 0 then [Plain(s[pointer..])]
    else
      var start := Find(s, quotes[0].text, pointer);
      if start >= 0 then
        [Plain(s[pointer..start]), Marked(quotes[0].text, quotes[0].refReco)]
        + Segments(s, quotes[1..], start + |quotes[0].text|)
      else Segments(s, quotes[1..], pointer)
  }

  /**
   * The annotation `quotes_as_annotation` builds from `pointer` on: the text
   * up to each quote found, the quote's markup, and after the last quote the
   * rest of the text.
   */
  function AnnotationFrom(s: string, quotes: seq<Quote>, pointer: nat): string
    requires pointer <= |s|
    decreases |quotes|
  {
    if |quotes| == 0 then s[pointer..]
    else
      var start := Find(s, quotes[0].text, pointer);
      if start >= 0 then
        s[pointer..start] + Markup(quotes[0].text, quotes[0].refReco)
        + AnnotationFrom(s, quotes[1..], start + |quotes[0].text|)
      else AnnotationFrom(s, quotes[1..], pointer)
  }

  /** `quotes_as_annotation`. */
  function QuotesAsAnnotation(s: string, quotes: seq<Quote>): string
  {
    AnnotationFrom(s, quotes, 0)
  }

  /** The annotation is the text the pieces spell. */
  lemma {:induction false} AnnotationPieces(s: string, quotes: seq<Quote>, pointer: nat)
    requires pointer <= |s|
    ensures AnnotationFrom(s, quotes, pointer) == Render(Segments(s, quotes, pointer))
    decreases |quotes|
  {
    if |quotes| == 0 {
      assert Segments(s, quotes, pointer) == [Plain(s[pointer..])];
      RenderOne(Plain(s[pointer..]));
    } else {
      var t, r := quotes[0].text, quotes[0].refReco;
      var start := Find(s, t, pointer);
      if start >= 0 {
        var next := start + |t|;
        var later := Segments(s, quotes[1..], next);
        assert AnnotationFrom(s, quotes, pointer) == s[pointer..start] + Markup(t, r) + AnnotationFrom(s, quotes[1..], next);
        assert Segments(s, quotes, pointer) == [Plain(s[pointer..start]), Marked(t, r)] + later;
        AnnotationPieces(s, quotes[1..], next);
        RenderPair(s[pointer..start], t, r, later);
      } else {
        assert AnnotationFrom(s, quotes, pointer) == AnnotationFrom(s, quotes[1..], pointer);
        assert Segments(s, quotes, pointer) == Segments(s, quotes[1..], pointer);
        AnnotationPieces(s, quotes[1..], pointer);
      }
    }
  }

  lemma {:induction false} RenderAppend(a: seq<Segment>, b: seq<Segment>)
    ensures Render(a + b) == Render(a) + Render(b)
  {
    if |a| > 0 {
      assert (a + b)[0] == a[0];
      assert (a + b)[1..] == a[1..] + b;
      RenderAppend(a[1..], b);
      assert Render(a + b) == RenderSegment(a[0]) + (Render(a[1..]) + Render(b));
    } else {
      assert a + b == b;
    }
  }

  /** Removing the markup from an annotation gives back the source text. */
  lemma {:induction false} EraseSegments(s: string, quotes: seq<Quote>, pointer: nat)
    requires pointer <= |s|
    ensures Erase(Segments(s, quotes, pointer)) == s[pointer..]
    decreases |quotes|
  {
    if |quotes| > 0 {
      var t := quotes[0].text;
      var start := Find(s, t, pointer);
      if start >= 0 {
        var next := start + |t|;
        EraseSegments(s, quotes[1..], next);
        SegmentsHead(s, quotes, pointer);
        ErasePair(s[pointer..start], t, quotes[0].refReco, Segments(s, quotes[1..], next));
        SliceThree(s, pointer, start, next);
      } else {
        EraseSegments(s, quotes[1..], pointer);
      }
    } else {
      assert [Plain(s[pointer..])][1..] == [];
    }
  }

  lemma ErasePair(a: string, t: string, r: int, rest: seq<Segment>)
    ensures Erase([Plain(a), Marked(t, r)] + rest) == a + t + Erase(rest)
  {
    var segs := [Plain(a), Marked(t, r)] + rest;
    assert segs[1..][1..] == rest;
  }

  lemma SliceThree(s: string, i: nat, j: nat, k: nat)
    requires i <= j <= k <= |s|
    ensures s[i..] == s[i..j] + s[j..k] + s[k..]
  {
  }

  /** One step of `quotes_as_annotation`: the next quote is marked where it is found, or skipped. */
  lemma SegmentsUnfold(s: string, quotes: seq<Quote>, i: nat, pointer: nat)
    requires i < |quotes| && pointer <= |s|
    ensures Find(s, quotes[i].text, pointer) >= 0 ==>
      Segments(s, quotes[i..], pointer) ==
        [Plain(s[pointer..Find(s, quotes[i].text, pointer)]), Marked(quotes[i].text, quotes[i].refReco)]
        + Segments(s, quotes[i + 1..], Find(s, quotes[i].text, pointer) + |quotes[i].text|)
    ensures Find(s, quotes[i].text, pointer) < 0 ==>
      Segments(s, quotes[i..], pointer) == Segments(s, quotes[i + 1..], pointer)
  {
    assert quotes[i..][0] == quotes[i] && quotes[i..][1..] == quotes[i + 1..];
  }

  lemma SegmentsHead(s: string, quotes: seq<Quote>, pointer: nat)
    requires |quotes| > 0 && pointer <= |s| && Find(s, quotes[0].text, pointer) >= 0
    ensures var start := Find(s, quotes[0].text, pointer);
      Segments(s, quotes, pointer) ==
        [Plain(s[pointer..start]), Marked(quotes[0].text, quotes[0].refReco)] + Segments(s, quotes[1..], start + |quotes[0].text|)
  {
  }

  lemma Associative(w: string, x: string, y: string, z: string)
    ensures w + x + y + z == w + (x + y + z)
  {
  }

  lemma RenderPair(a: string, t: string, r: int, rest: seq<Segment>)
    ensures Render([Plain(a), Marked(t, r)] + rest) == a + Markup(t, r) + Render(rest)
  {
    var here := [Plain(a), Marked(t, r)];
    RenderAppend(here, rest);
    RenderOne(Marked(t, r));
    assert here[1..] == [Marked(t, r)];
    assert Render(here) == a + Markup(t, r);
  }

  lemma RenderOne(g: Segment)
    ensures Render([g]) == RenderSegment(g)
  {
    assert [g][1..] == [];
    EmptyRight(RenderSegment(g));
  }

  lemma EmptyRight(x: string)
    ensures x + "" == x
  {
  }

  /** A turn of the loop of `quotes_as_annotation` that finds its quote moves its text and markup to the annotation built so far. */
  lemma AnnotationFound(acc: string, next: string, whole: string, s: string, quotes: seq<Quote>, i: nat, pointer: nat, start: int)
    requires i < |quotes| && pointer <= |s|
    requires start == Find(s, quotes[i].text, pointer) && start >= 0
    requires acc + AnnotationFrom(s, quotes[i..], pointer) == whole
    requires next == acc + (s[pointer..start] + Markup(quotes[i].text, quotes[i].refReco))
    ensures start + |quotes[i].text| <= |s|
    ensures next + AnnotationFrom(s, quotes[i + 1..], start + |quotes[i].text|) == whole
  {
    assert quotes[i..][0] == quotes[i] && quotes[i..][1..] == quotes[i + 1..];
    var piece := s[pointer..start] + Markup(quotes[i].text, quotes[i].refReco);
    var later := AnnotationFrom(s, quotes[i + 1..], start + |quotes[i].text|);
    assert AnnotationFrom(s, quotes[i..], pointer) == piece + later;
    AppendAssociative(acc, piece, later);
  }

  /** A turn of the loop of `quotes_as_annotation` whose quote is not found changes nothing. */
  lemma AnnotationSkipped(s: string, quotes: seq<Quote>, i: nat, pointer: nat)
    requires i < |quotes| && pointer <= |s|
    requires Find(s, quotes[i].text, pointer) < 0
    ensures AnnotationFrom(s, quotes[i..], pointer) == AnnotationFrom(s, quotes[i + 1..], pointer)
  {
    assert quotes[i..][0] == quotes[i] && quotes[i..][1..] == quotes[i + 1..];
  }

  lemma AppendAssociative(a: string, b: string, c: string)
    ensures a + (b + c) == a + b + c
  {
  }

  /** One turn of the loop of `quotes_as_annotation`: mark the next quote where it is found after the pointer. */
  method AnnotationTurn(s: string, quotes: seq<Quote>, i: nat, annotation: string, pointer: nat, ghost whole: string)
    returns (annotation': string, pointer': nat)
    requires i < |quotes| && pointer <= |s|
    requires annotation + AnnotationFrom(s, quotes[i..], pointer) == whole
    ensures pointer' <= |s|
    ensures annotation' + AnnotationFrom(s, quotes[i + 1..], pointer') == whole
  {
    var start := Find(s, quotes[i].text, pointer);
    if start >= 0 {
      var next := annotation + (s[pointer..start] + Markup(quotes[i].text, quotes[i].refReco));
      AnnotationFound(annotation, next, whole, s, quotes, i, pointer, start);
      annotation', pointer' := next, start + |quotes[i].text|;
    } else {
      AnnotationSkipped(s, quotes, i, pointer);
      annotation', pointer' := annotation, pointer;
    }
  }

  /** `quotes_as_annotation`, accumulating the annotation while the pointer moves through the source. */
  method QuotesAsAnnotationLoop(s: string, quotes: seq<Quote>) returns (annotation: string)
    ensures annotation == QuotesAsAnnotation(s, quotes)
  {
    ghost var whole := QuotesAsAnnotation(s, quotes);
    var pointer: nat := 0;
    annotation := "";
    assert quotes[0..] == quotes;
    for i := 0 to |quotes|
      invariant pointer <= |s|
      invariant annotation + AnnotationFrom(s, quotes[i..], pointer) == whole
    {
      annotation, pointer := AnnotationTurn(s, quotes, i, annotation, pointer, whole);
    }
    assert quotes[|quotes|..] == [];
    annotation := annotation + s[pointer..];
  }

  /** The label a link target stands for: its integer value, or -1 when it is empty or not an integer. */
  function RefOf(target: string): (r: int)
    ensures |target| == 0 ==> r == -1
    ensures ParseInt(target).Some? ==> r == ParseInt(target).value
    ensures ParseInt(target).None? ==> r == -1
  {
    if |target| > 0 then ParseInt(target).GetOr(-1) else -1
  }

  /** The quotes the matches stand for. */
  function QuotesOf(ms: seq<QuoteMatch>): (r: seq<Quote>)
    ensures |r| == |ms|
    ensures forall i :: 0 <= i < |ms| ==> r[i] == Quote(ms[i].text, RefOf(ms[i].target), -1)
  {
    if |ms| == 0 then [] else [Quote(ms[0].text, RefOf(ms[0].target), -1)] + QuotesOf(ms[1..])
  }

  /** `annotation_as_quotes`. */
  function AnnotationAsQuotes(annotation: string): seq<Quote>
  {
    QuotesOf(Scan(annotation, TargetStops))
  }

  /** `annotation_as_quotes`, one match at a time. */
  method AnnotationAsQuotesLoop(annotation: string) returns (quotes: seq<Quote>)
    ensures quotes == AnnotationAsQuotes(annotation)
    ensures |quotes| == |Scan(annotation, TargetStops)|
  {
    var matches := Scan(annotation, TargetStops);
    quotes := [];
    for i := 0 to |matches|
      invariant quotes == QuotesOf(matches[..i])
    {
      var m := matches[i];
      QuotesOfSnoc(matches, i);
      var refReco := -1;
      if |m.target| > 0 {
        var parsed := ParseInt(m.target);
        if parsed.Some? {
          refReco := parsed.value;
        }
      }
      quotes := quotes + [Quote(m.text, refReco, -1)];
    }
    assert matches[..|matches|] == matches;
  }

  lemma QuotesOfSnoc(ms: seq<QuoteMatch>, i: nat)
    requires i < |ms|
    ensures QuotesOf(ms[..i + 1]) == QuotesOf(ms[..i]) + [Quote(ms[i].text, RefOf(ms[i].target), -1)]
  {
    var a, b := QuotesOf(ms[..i + 1]), QuotesOf(ms[..i]) + [Quote(ms[i].text, RefOf(ms[i].target), -1)];
    assert |a| == |b|;
    forall j | 0 <= j < |a|
      ensures a[j] == b[j]
    {
      assert ms[..i + 1][j] == ms[j];
      if j < i {
        assert ms[..i][j] == ms[j];
      }
    }
  }

  /** The texts of the quotes. */
  function Texts(quotes: seq<Quote>): (r: seq<string>)
    ensures |r| == |quotes| && forall i :: 0 <= i < |quotes| ==> r[i] == quotes[i].text
  {
    if |quotes| == 0 then [] else [quotes[0].text] + Texts(quotes[1..])
  }

  /**
   * The texts occur in the source in this order without overlapping, each
   * found from where the previous one ended.
   */
  predicate InOrderFrom(s: string, texts: seq<string>, pointer: nat)
    requires pointer <= |s|
    decreases |texts|
  {
    |texts| == 0 ||
    (Find(s, texts[0], pointer) >= 0 && InOrderFrom(s, texts[1..], Find(s, texts[0], pointer) + |texts[0]|))
  }

  /** `is_annotation`: the quoted texts of the annotation occur in the source text in order. */
  predicate IsAnnotation(source: string, annotation: string)
  {
    InOrderFrom(source, Texts(AnnotationAsQuotes(annotation)), 0)
  }

  /** An annotation without markup is always valid. */
  lemma UnmarkedIsAnnotation(source: string, annotation: string)
    requires |Scan(annotation, TargetStops)| == 0
    ensures IsAnnotation(source, annotation)
  {
  }

  /** `is_annotation`, moving a pointer through the source text. */
  method IsAnnotationLoop(source: string, annotation: string) returns (valid: bool)
    ensures valid == IsAnnotation(source, annotation)
  {
    valid := TextsInOrder(source, Texts(AnnotationAsQuotes(annotation)));
  }

  /** The loop of `is_annotation`: each text looked up from the end of the previous one. */
  method TextsInOrder(source: string, texts: seq<string>) returns (valid: bool)
    ensures valid == InOrderFrom(source, texts, 0)
  {
    var pointer: nat := 0;
    for i := 0 to |texts|
      invariant pointer <= |source|
      invariant InOrderFrom(source, texts, 0) == InOrderFrom(source, texts[i..], pointer)
    {
      assert texts[i..][0] == texts[i] && texts[i..][1..] == texts[i + 1..];
      var start := Find(source, texts[i], pointer);
      if start < 0 {
        return false;
      }
      pointer := start + |texts[i]|;
    }
    return true;
  }

  // ---------------------------------------------------------------------
  // The round trip
  // ---------------------------------------------------------------------

  /** No character of the source text can be taken for markup. */
  predicate MarkupFree(s: string)
  {
    forall k :: 0 <= k < |s| ==> s[k] != '[' && s[k] != '(' && s[k] != ')'
  }

  /** Every opening parenthesis comes after an opening bracket. */
  predicate ParenAfterBracket(y: string)
  {
    forall k :: 0 <= k < |y| && y[k] == '(' ==> '[' in y[..k]
  }

  lemma {:induction false} TextEndSkip(s: string, lo: nat, j: nat, stops: set<char>)
    requires 2 <= lo <= j <= |s|
    requires forall k :: lo < k <= j ==> !TextCloses(s, k)
    ensures TextEnd(s, j, stops) == TextEnd(s, lo, stops)
    decreases j
  {
    if lo < j {
      TextEndSkip(s, lo, j - 1, stops);
    }
  }

  lemma {:induction false} ScanPlain(x: string, y: string, stops: set<char>)
    requires forall k :: 0 <= k < |x| ==> x[k] != '['
    ensures Scan(x + y, stops) == Scan(y, stops)
    decreases |x|
  {
    if |x| > 0 {
      assert (x + y)[0] == x[0];
      assert MatchAt(x + y, stops).None?;
      assert (x + y)[1..] == x[1..] + y;
      ScanPlain(x[1..], y, stops);
      assert Scan(x + y, stops) == Scan(x[1..] + y, stops);
    } else {
      assert x + y == y;
    }
  }

  /** A closing parenthesis ends a link target that holds neither a space nor a parenthesis. */
  lemma TargetAtParen(s: string, lo: nat, e: nat)
    requires lo <= e < |s| && s[e] == ')'
    requires forall k :: lo <= k < e ==> s[k] !in TargetStops
    ensures RunEnd(s, lo, TargetStops) == e
    ensures TargetEnd(s, lo, e) == Some((e, e + 1))
    decreases e - lo
  {
    if lo < e {
      TargetAtParen(s, lo + 1, e);
    }
  }

  /**
   * A match of the shape `[text](target)`: the text holds no `[` and is
   * the last place before the next `[` where `](` occurs, and the target
   * holds no space and no parenthesis.
   */
  lemma MatchShape(s: string, c: nat, e: nat)
    requires 2 <= c && c + 2 <= e < |s|
    requires s[0] == '[' && TextCloses(s, c) && s[e] == ')'
    requires forall k :: 1 <= k <= e ==> s[k] != '['
    requires forall k :: c + 2 <= k < e ==> s[k] !in TargetStops
    requires forall k :: c < k <= RunEnd(s, 1, {'['}) ==> !TextCloses(s, k)
    ensures MatchAt(s, TargetStops) == Some(QuoteMatch(e + 1, s[1..c], s[c + 2..e]))
  {
    var j0 := RunEnd(s, 1, {'['});
    TextEndSkip(s, c, j0, TargetStops);
    TargetAtParen(s, c + 2, e);
  }

  /** The characters of the markup `[t](rs)` of a quote followed by more text `y`. */
  lemma MarkupLayout(t: string, rs: string, y: string)
    ensures var m := ['['] + t + [']', '('] + rs + [')']; var s := m + y; var c := 1 + |t|;
      |s| == |m| + |y| && |m| == c + |rs| + 3 &&
      s[0] == '[' && s[c] == ']' && s[c + 1] == '(' && s[c + 2 + |rs|] == ')' &&
      s[1..c] == t && s[c + 2..c + 2 + |rs|] == rs &&
      (forall k :: 1 <= k < c ==> s[k] == t[k - 1]) &&
      (forall k :: c + 2 <= k < c + 2 + |rs| ==> s[k] == rs[k - c - 2]) &&
      (forall k :: |m| <= k < |s| ==> s[k] == y[k - |m|])
  {
  }

  /** The markup of a quote is matched as one quote, with its text and its label as target. */
  lemma MatchMarkup(t: string, r: int, y: string)
    requires |t| > 0 && MarkupFree(t) && ParenAfterBracket(y)
    ensures MatchAt(Markup(t, r) + y, TargetStops) == Some(QuoteMatch(|Markup(t, r)|, t, IntToString(r)))
  {
    var rs := IntToString(r);
    IntToStringChars(r);
    var m := Markup(t, r);
    var s := m + y;
    var c := 1 + |t|;
    var e := c + 2 + |rs|;
    assert m == ['['] + t + [']', '('] + rs + [')'];
    MarkupLayout(t, rs, y);
    var j0 := RunEnd(s, 1, {'['});
    assert forall k :: 1 <= k <= e ==> s[k] != '[';
    forall p | |m| <= p < j0
      ensures s[p] != '('
    {
      var n := p - |m|;
      assert forall q :: 0 <= q < n ==> y[..n][q] == s[|m| + q];
    }
    MatchShape(s, c, e);
  }

  /** Plain text, then the markup of a quote: the scan finds that quote and goes on after it. */
  lemma ScanMarked(a: string, t: string, r: int, tail: string)
    requires forall k :: 0 <= k < |a| ==> a[k] != '[' && a[k] != '('
    requires |t| > 0 && MarkupFree(t) && ParenAfterBracket(tail)
    ensures Scan(a + Markup(t, r) + tail, TargetStops) == [QuoteMatch(|Markup(t, r)|, t, IntToString(r))] + Scan(tail, TargetStops)
    ensures ParenAfterBracket(a + Markup(t, r) + tail)
  {
    var m := Markup(t, r);
    var whole := m + tail;
    assert a + m + tail == a + whole;
    ScanPlain(a, whole, TargetStops);
    MatchMarkup(t, r, tail);
    assert whole[|m|..] == tail;
    var s := a + m + tail;
    forall k | 0 <= k < |s| && s[k] == '('
      ensures '[' in s[..k]
    {
      assert s[|a|] == '[';
      assert s[..k][|a|] == '[';
    }
  }

  /** Plain pieces hold no `[` or `(`; quotes are non-empty and free of markup characters. */
  predicate WellMarked(segs: seq<Segment>)
  {
    |segs| == 0 ||
    (WellMarkedHead(segs[0]) && WellMarked(segs[1..]))
  }

  predicate WellMarkedHead(seg: Segment)
  {
    match seg
    case Plain(a) => forall k :: 0 <= k < |a| ==> a[k] != '[' && a[k] != '('
    case Marked(t, _) => |t| > 0 && MarkupFree(t)
  }

  /** The quotes marked in the pieces, in order. */
  function MarkedQuotes(segs: seq<Segment>): seq<Quote>
  {
    if |segs| == 0 then []
    else
      match segs[0]
      case Plain(_) => MarkedQuotes(segs[1..])
      case Marked(t, r) => [Quote(t, r, -1)] + MarkedQuotes(segs[1..])
  }

  /** The annotation spelled by well-marked pieces reads back as the quotes marked in them. */
  lemma {:induction false} ScanRendered(segs: seq<Segment>)
    requires WellMarked(segs)
    ensures QuotesOf(Scan(Render(segs), TargetStops)) == MarkedQuotes(segs)
    ensures ParenAfterBracket(Render(segs))
  {
    if |segs| > 0 {
      var rest := Render(segs[1..]);
      ScanRendered(segs[1..]);
      match segs[0]
      case Plain(a) =>
        assert Render(segs) == a + rest;
        ScanPlain(a, rest, TargetStops);
        PlainParenAfterBracket(a, rest);
      case Marked(t, r) =>
        var m := Markup(t, r);
        assert Render(segs) == m + rest;
        EmptyLeft(m, rest);
        ScanStep("", t, r, rest, MarkedQuotes(segs[1..]));
    }
  }

  lemma EmptyLeft(m: string, rest: string)
    ensures "" + m + rest == m + rest
  {
  }

  lemma PlainParenAfterBracket(a: string, rest: string)
    requires forall k :: 0 <= k < |a| ==> a[k] != '('
    requires ParenAfterBracket(rest)
    ensures ParenAfterBracket(a + rest)
  {
    var s := a + rest;
    forall k | 0 <= k < |s| && s[k] == '('
      ensures '[' in s[..k]
    {
      var j := k - |a|;
      assert s[k] == rest[j];
      var i :| 0 <= i < j && rest[..j][i] == '[';
      assert s[..k][|a| + i] == '[';
    }
  }

  /** Plain text, the markup of a quote, then an annotation read back as `later`. */
  lemma ScanStep(a: string, t: string, r: int, rest: string, later: seq<Quote>)
    requires forall k :: 0 <= k < |a| ==> a[k] != '[' && a[k] != '('
    requires |t| > 0 && MarkupFree(t) && ParenAfterBracket(rest)
    requires QuotesOf(Scan(rest, TargetStops)) == later
    ensures QuotesOf(Scan(a + Markup(t, r) + rest, TargetStops)) == [Quote(t, r, -1)] + later
    ensures ParenAfterBracket(a + Markup(t, r) + rest)
  {
    ScanMarked(a, t, r, rest);
    QuotesOfMarked(t, r, Scan(rest, TargetStops));
  }

  /** The pieces built from quotes found in order are well marked and mark exactly those quotes. */
  lemma {:induction false} SegmentsWellMarked(s: string, quotes: seq<Quote>, pointer: nat)
    requires pointer <= |s| && MarkupFree(s)
    requires forall i :: 0 <= i < |quotes| ==> |quotes[i].text| > 0
    requires InOrderFrom(s, Texts(quotes), pointer)
    ensures WellMarked(Segments(s, quotes, pointer))
    ensures MarkedQuotes(Segments(s, quotes, pointer)) == Unlocated(quotes)
    decreases |quotes|
  {
    if |quotes| == 0 {
      MarkupFreeSlice(s, pointer, |s|);
      assert Segments(s, quotes, pointer) == [Plain(s[pointer..])];
    } else {
      var q := quotes[0];
      InOrderTail(s, quotes, pointer);
      var start := Find(s, q.text, pointer);
      var next := start + |q.text|;
      SegmentsHead(s, quotes, pointer);
      var segs := Segments(s, quotes, pointer);
      var later := Segments(s, quotes[1..], next);
      SegmentsWellMarked(s, quotes[1..], next);
      MarkupFreeSlice(s, start, next);
      MarkupFreeSlice(s, pointer, start);
      assert segs[1..] == [Marked(q.text, q.refReco)] + later;
      assert segs[1..][1..] == later;
      assert Unlocated(quotes) == [Quote(q.text, q.refReco, -1)] + Unlocated(quotes[1..]);
    }
  }

  lemma InOrderTail(s: string, quotes: seq<Quote>, pointer: nat)
    requires |quotes| > 0 && pointer <= |s| && InOrderFrom(s, Texts(quotes), pointer)
    ensures Find(s, quotes[0].text, pointer) >= 0
    ensures InOrderFrom(s, Texts(quotes[1..]), Find(s, quotes[0].text, pointer) + |quotes[0].text|)
    ensures var start := Find(s, quotes[0].text, pointer); s[start..start + |quotes[0].text|] == quotes[0].text
  {
    assert Texts(quotes)[0] == quotes[0].text;
    assert Texts(quotes)[1..] == Texts(quotes[1..]);
  }

  /** The quote the markup of a quote reads back as, in front of the others. */
  lemma QuotesOfMarked(t: string, r: int, later: seq<QuoteMatch>)
    ensures QuotesOf([QuoteMatch(|Markup(t, r)|, t, IntToString(r))] + later) == [Quote(t, r, -1)] + QuotesOf(later)
  {
    var qm := QuoteMatch(|Markup(t, r)|, t, IntToString(r));
    assert ([qm] + later)[1..] == later;
    IntRoundTrip(r);
    assert RefOf(IntToString(r)) == r;
  }

  lemma MarkupFreeSlice(s: string, i: nat, j: nat)
    requires i <= j <= |s| && MarkupFree(s)
    ensures MarkupFree(s[i..j])
  {
    assert forall k :: 0 <= k < j - i ==> s[i..j][k] == s[i + k];
  }

  /** The quotes with the position in the source dropped, as the annotation does not record it. */
  function Unlocated(quotes: seq<Quote>): (r: seq<Quote>)
    ensures |r| == |quotes|
    ensures forall i :: 0 <= i < |quotes| ==> r[i] == Quote(quotes[i].text, quotes[i].refReco, -1)
  {
    if |quotes| == 0 then [] else [Quote(quotes[0].text, quotes[0].refReco, -1)] + Unlocated(quotes[1..])
  }

  /**
   * Reading back the annotation of quotes gives the quotes, when each quote
   * is non-empty and found after the previous one, and the source text holds
   * no brackets or parentheses that could be taken for markup.
   */
  lemma AnnotationRoundTrip(s: string, quotes: seq<Quote>)
    requires MarkupFree(s)
    requires forall i :: 0 <= i < |quotes| ==> |quotes[i].text| > 0
    requires InOrderFrom(s, Texts(quotes), 0)
    ensures AnnotationAsQuotes(QuotesAsAnnotation(s, quotes)) == Unlocated(quotes)
    ensures IsAnnotation(s, QuotesAsAnnotation(s, quotes))
  {
    AnnotationPieces(s, quotes, 0);
    SegmentsWellMarked(s, quotes, 0);
    ScanRendered(Segments(s, quotes, 0));
    var back := AnnotationAsQuotes(QuotesAsAnnotation(s, quotes));
    assert Texts(back) == Texts(quotes);
  }

  /** Quotes that occur at increasing, non-overlapping positions are all found in order. */
  lemma {:induction false} OrderedQuotesFound(s: string, texts: seq<string>, positions: seq<nat>, pointer: nat)
    requires |positions| == |texts| && pointer <= |s|
    requires forall i :: 0 <= i < |texts| ==> OccursAt(s, texts[i], positions[i])
    requires forall i :: 0 <= i < |texts| - 1 ==> positions[i] + |texts[i]| <= positions[i + 1]
    requires |texts| > 0 ==> pointer <= positions[0]
    ensures InOrderFrom(s, texts, pointer)
    decreases |texts|
  {
    if |texts| > 0 {
      FindLeftmost(s, texts[0], pointer, positions[0]);
      var found := Find(s, texts[0], pointer);
      OrderedQuotesFound(s, texts[1..], positions[1..], found + |texts[0]|);
    }
  }

  /** The annotation of two adjacent one-letter quotes has no space between their markups. */
  lemma AdjacentQuotesAnnotation()
    ensures QuotesAsAnnotation("ab", [Quote("a", 1, -1), Quote("b", 2, -1)]) == "[a](1)[b](2)"
  {
    assert Find("ab", "a", 0) == 0;
    assert OccursAt("ab", "b", 1);
    assert Find("ab", "b", 1) == 1;
    assert IntToString(1) == "1" && IntToString(2) == "2";
  }

  /** As written, the first link target runs over the second markup up to the last `)`. */
  lemma AdjacentQuotesScanAsWritten()
    ensures Scan("[a](1)[b](2)", TargetStopsAsWritten) == [QuoteMatch(12, "a", "1)[b](2")]
  {
    var s := "[a](1)[b](2)";
    assert RunEnd(s, 1, {'['}) == 6;
    assert RunEnd(s, 4, TargetStopsAsWritten) == 12;
    assert TargetEnd(s, 4, 12) == Some((11, 12));
    assert TextCloses(s, 2);
    assert TextEnd(s, 6, TargetStopsAsWritten) == TextEnd(s, 2, TargetStopsAsWritten);
    assert s[1..2] == "a" && s[4..11] == "1)[b](2";
    assert TextEnd(s, 2, TargetStopsAsWritten) == Some(QuoteMatch(12, "a", "1)[b](2"));
    assert MatchAt(s, TargetStopsAsWritten) == Some(QuoteMatch(12, "a", "1)[b](2"));
    assert s[12..] == [];
  }

  /** A target with a character other than a digit after its first has no number. */
  lemma NotANumber(target: string, k: nat)
    requires 0 < k < |target| && !IsDigit(target[k])
    ensures ParseInt(target).None?
  {
    assert target[1..][k - 1] == target[k];
  }

  /**
   * As written, the link target stops only at a space, so two quotes with no
   * space between them read back as one quote whose target runs into the
   * second one, and whose label is lost.
   */
  lemma AdjacentQuotesMergeAsWritten(s: string, quotes: seq<Quote>)
    requires s == "ab" && quotes == [Quote("a", 1, -1), Quote("b", 2, -1)]
    ensures AnnotationAsQuotesAsWritten(QuotesAsAnnotation(s, quotes)) == [Quote("a", -1, -1)]
  {
    AdjacentQuotesAnnotation();
    AdjacentQuotesScanAsWritten();
    NotANumber("1)[b](2", 1);
    SingleMatch(QuoteMatch(12, "a", "1)[b](2"));
  }

  /**
   * `annotation_as_quotes` with the link-target pattern as written: a target
   * runs on to the next space, over any `)`.
   */
  function AnnotationAsQuotesAsWritten(annotation: string): (r: seq<Quote>)
    ensures |r| == |Scan(annotation, TargetStopsAsWritten)|
    ensures forall i :: 0 <= i < |r| ==>
      var m := Scan(annotation, TargetStopsAsWritten)[i];
      r[i] == Quote(m.text, RefOf(m.target), -1)
  {
    QuotesOf(Scan(annotation, TargetStopsAsWritten))
  }

  /** `is_annotation` with the link-target pattern as written. */
  predicate IsAnnotationAsWritten(source: string, annotation: string)
  {
    InOrderFrom(source, Texts(AnnotationAsQuotesAsWritten(annotation)), 0)
  }

  /**
   * A quote inside parentheses: as written its target takes the outer `)`
   * too and its label is lost; with the target stopping at `)` the label is
   * read back.
   */
  lemma ParenthesisedQuote()
    ensures AnnotationAsQuotesAsWritten("([a](1))") == [Quote("a", -1, -1)]
    ensures AnnotationAsQuotes("([a](1))") == [Quote("a", 1, -1)]
  {
    var s := "[a](1))";
    assert "([a](1))"[1..] == s;
    assert RunEnd(s, 1, {'['}) == 7;
    assert TextCloses(s, 2);
    assert TextEnd(s, 7, TargetStopsAsWritten) == TextEnd(s, 2, TargetStopsAsWritten);
    assert TextEnd(s, 7, TargetStops) == TextEnd(s, 2, TargetStops);
    assert RunEnd(s, 4, TargetStopsAsWritten) == 7;
    assert TargetEnd(s, 4, 7) == Some((6, 7));
    assert s[1..2] == "a" && s[4..6] == "1)" && s[4..5] == "1";
    assert MatchAt(s, TargetStopsAsWritten) == Some(QuoteMatch(7, "a", "1)"));
    assert RunEnd(s, 4, TargetStops) == 5;
    assert TargetEnd(s, 4, 5) == Some((5, 6));
    assert MatchAt(s, TargetStops) == Some(QuoteMatch(6, "a", "1"));
    assert s[7..] == [] && s[6..][1..] == [];
    NotANumber("1)", 1);
    SingleMatch(QuoteMatch(7, "a", "1)"));
    assert ParseInt("1") == Some(1);
    SingleMatch(QuoteMatch(6, "a", "1"));
  }

  /**
   * As written, an annotation whose second quote is hidden in the first
   * one's target passes `is_annotation` although its quotes are out of order
   * in the source; with the target stopping at `)` it fails.
   */
  lemma OutOfOrderAnnotation(source: string, annotation: string)
    requires source == "b a" && annotation == "[a](1)[b](2)"
    ensures IsAnnotationAsWritten(source, annotation)
    ensures !IsAnnotation(source, annotation)
  {
    var quotes := [Quote("a", 1, -1), Quote("b", 2, -1)];
    AdjacentQuotesMergeAsWritten("ab", quotes);
    AdjacentQuotesAnnotation();
    OnlyFirstInOrder(source, Texts(AnnotationAsQuotesAsWritten(annotation)));
    AdjacentQuotesRead(annotation);
    SecondOutOfOrder(source, Texts(AnnotationAsQuotes(annotation)));
  }

  /** `a` is found in `b a` at 2. */
  lemma FindA(s: string)
    requires s == "b a"
    ensures Find(s, "a", 0) == 2
  {
    assert s[0] == 'b' && s[1] == ' ' && s[2] == 'a';
    assert s[0..1][0] == s[0] && s[1..2][0] == s[1] && s[2..3] == "a";
    FindLeftmost(s, "a", 0, 2);
  }

  /** The text `a` alone is in order in `b a`. */
  lemma OnlyFirstInOrder(s: string, texts: seq<string>)
    requires s == "b a" && texts == ["a"]
    ensures InOrderFrom(s, texts, 0)
  {
    FindA(s);
    assert texts[1..] == [];
  }

  /** The two adjacent quotes read back as two texts. */
  lemma AdjacentQuotesRead(annotation: string)
    requires annotation == "[a](1)[b](2)"
    ensures Texts(AnnotationAsQuotes(annotation)) == ["a", "b"]
  {
    var quotes := [Quote("a", 1, -1), Quote("b", 2, -1)];
    AdjacentQuotesAnnotation();
    assert Find("ab", "a", 0) == 0;
    assert OccursAt("ab", "b", 1);
    assert Find("ab", "b", 1) == 1;
    assert Texts(quotes)[1..] == ["b"];
    AnnotationRoundTrip("ab", quotes);
  }

  /** After `a`, the text `b` is not found in `b a`. */
  lemma SecondOutOfOrder(s: string, texts: seq<string>)
    requires s == "b a" && texts == ["a", "b"]
    ensures !InOrderFrom(s, texts, 0)
  {
    FindA(s);
    assert texts[1..] == ["b"];
    assert Find(s, "b", 3) == -1;
  }

  lemma SingleMatch(m: QuoteMatch)
    ensures QuotesOf([m]) == [Quote(m.text, RefOf(m.target), -1)]
  {
    assert [m][1..] == [];
  }

  // ---------------------------------------------------------------------
  // Options
  // ---------------------------------------------------------------------

  /**
   * `QuoteOption(...)` with `__post_init__`: an initial annotation that is not
   * a valid annotation of the source is dropped, and when quotes are given
   * and no annotation is left, the annotation is built from the quotes.
   */
  function NewQuoteOption(question: string, field: Field, source: string, annotation: Option<string>,
                          quotes: seq<Quote>, rater: Option<InferenceRater>): (r: InputOption)
    ensures r.QuoteOption? && r.initialQuotes == quotes && r.sourceText == source && r.field == field
    ensures annotation.Some? && |annotation.value| > 0 && IsAnnotation(source, annotation.value) ==>
      r.initialAnnotation == annotation
    ensures |quotes| == 0 && annotation.Some? && |annotation.value| > 0 && !IsAnnotation(source, annotation.value) ==>
      r.initialAnnotation.None?
    ensures |quotes| > 0 && (annotation.None? || |annotation.value| == 0 || !IsAnnotation(source, annotation.value)) ==>
      r.initialAnnotation == Some(QuotesAsAnnotation(source, quotes))
    ensures r.initialAnnotation.Some? && r.initialAnnotation != annotation ==> |quotes| > 0
  {
    var kept := if annotation.Some? && |annotation.value| > 0 && !IsAnnotation(source, annotation.value) then None else annotation;
    var built := if |quotes| > 0 && (kept.None? || |kept.value| == 0) then Some(QuotesAsAnnotation(source, quotes)) else kept;
    QuoteOption(Some(question), field, source, built, quotes, rater)
  }

  /** After `__post_init__` the annotation is valid, whenever the given quotes could be annotated. */
  lemma NewQuoteOptionValid(question: string, field: Field, source: string, annotation: Option<string>,
                            quotes: seq<Quote>, rater: Option<InferenceRater>)
    requires MarkupFree(source)
    requires forall i :: 0 <= i < |quotes| ==> |quotes[i].text| > 0
    requires InOrderFrom(source, Texts(quotes), 0)
    ensures var r := NewQuoteOption(question, field, source, annotation, quotes, rater);
      r.initialAnnotation.Some? && |r.initialAnnotation.value| > 0 ==> IsAnnotation(source, r.initialAnnotation.value)
  {
    AnnotationRoundTrip(source, quotes);
  }

  /** A field is worth revising rather than entering: its text is present and not empty. */
  predicate Truthful(t: Option<string>)
  {
    t.Some? && |t.value| > 0
  }

  /** The text option `create_text_options` builds for one field; `layout` renders the fields of an item as text. */
  function TextOptionFor(layout: Item -> Field -> Option<string>, field: Field, item: Option<Item>, preInitialized: bool): (r: InputOption)
    ensures r.TextOption? && r.field == field && |r.context| == 0 && r.rater.None?
    ensures !(preInitialized && item.Some?) ==> r.initialText == Some("")
    ensures preInitialized && item.Some? ==> r.initialText == layout(item.value)(field)
    ensures r.question == Some(if Truthful(r.initialText) then "Please revise the " + FieldName(field) + "."
                                else "Please enter a " + FieldName(field) + ".")
  {
    var initial := if preInitialized && item.Some? then layout(item.value)(field) else Some("");
    var question := if Truthful(initial) then "Please revise the " + FieldName(field) + "."
                    else "Please enter a " + FieldName(field) + ".";
    TextOption([], Some(question), field, initial, None)
  }

  /** Appending the option for the next field keeps the options those of the fields so far. */
  lemma TextOptionsGrow(layout: Item -> Field -> Option<string>, options: seq<InputOption>, fields: seq<Field>,
                        item: Option<Item>, preInitialized: bool)
    requires |options| < |fields|
    requires forall k :: 0 <= k < |options| ==> options[k] == TextOptionFor(layout, fields[k], item, preInitialized)
    ensures var grown := options + [TextOptionFor(layout, fields[|options|], item, preInitialized)];
      forall k :: 0 <= k < |grown| ==> grown[k] == TextOptionFor(layout, fields[k], item, preInitialized)
  {
  }

  /** The options `create_text_options` returns: the option of each field, in the order of the fields. */
  function TextOptions(layout: Item -> Field -> Option<string>, fields: seq<Field>, item: Option<Item>, preInitialized: bool)
    : (r: seq<InputOption>)
    ensures |r| == |fields|
    ensures forall i :: 0 <= i < |fields| ==> r[i] == TextOptionFor(layout, fields[i], item, preInitialized)
  {
    seq(|fields|, i requires 0 <= i < |fields| => TextOptionFor(layout, fields[i], item, preInitialized))
  }

  /** `create_text_options`: one text option per field, in the order of the fields. */
  method CreateTextOptions(layout: Item -> Field -> Option<string>, fields: seq<Field>, item: Option<Item>, preInitialized: bool)
    returns (options: seq<InputOption>)
    ensures |options| == |fields|
    ensures forall i :: 0 <= i < |fields| ==> options[i] == TextOptionFor(layout, fields[i], item, preInitialized)
    ensures options == TextOptions(layout, fields, item, preInitialized)
  {
    options := [];
    for i := 0 to |fields|
      invariant |options| == i
      invariant forall k :: 0 <= k < i ==> options[k] == TextOptionFor(layout, fields[k], item, preInitialized)
    {
      var initial: Option<string> := Some("");
      if preInitialized && item.Some? {
        initial := layout(item.value)(fields[i]);
      }
      var question := "Please enter a " + FieldName(fields[i]) + ".";
      if initial.Some? && |initial.value| > 0 {
        question := "Please revise the " + FieldName(fields[i]) + ".";
      }
      var option := TextOption([], Some(question), fields[i], initial, None);
      assert option == TextOptionFor(layout, fields[i], item, preInitialized);
      TextOptionsGrow(layout, options, fields, item, preInitialized);
      options := options + [option];
    }
  }

  /** The quotes a quote field holds. */
  function QuotesIn(item: Item, field: Field): seq<Quote>
    requires field in {Reasons, Conjectures}
  {
    if field == Reasons then item.reasons else item.conjectures
  }

  /** The quote option `create_quote_options` builds for one field of the item. */
  function QuoteOptionFor(field: Field, item: Item, preInitialized: bool): (r: InputOption)
    requires field in {Reasons, Conjectures}
    ensures r.QuoteOption? && r.field == field && r.sourceText == item.sourceText
    ensures r.initialQuotes == if preInitialized then QuotesIn(item, field) else []
    ensures r.question == Some(if |r.initialQuotes| > 0 then "Please revise the " + FieldName(field) + "."
                               else "Please mark the " + FieldName(field) + ".")
  {
    var quotes := if preInitialized then QuotesIn(item, field) else [];
    var question := if |quotes| > 0 then "Please revise the " + FieldName(field) + "."
                    else "Please mark the " + FieldName(field) + ".";
    NewQuoteOption(question, field, item.sourceText, None, quotes, None)
  }

  /** Appending the option for the next field keeps the options those of the fields so far. */
  lemma QuoteOptionsGrow(options: seq<InputOption>, fields: seq<Field>, item: Item, preInitialized: bool)
    requires |options| < |fields|
    requires forall i :: 0 <= i < |fields| ==> fields[i] in {Reasons, Conjectures}
    requires forall k :: 0 <= k < |options| ==> options[k] == QuoteOptionFor(fields[k], item, preInitialized)
    ensures var grown := options + [QuoteOptionFor(fields[|options|], item, preInitialized)];
      forall k :: 0 <= k < |grown| ==> grown[k] == QuoteOptionFor(fields[k], item, preInitialized)
  {
  }

  /** The options `create_quote_options` returns, or the exception it raises reading the source text of a missing item. */
  function QuoteOptions(fields: seq<Field>, item: Option<Item>, preInitialized: bool): (r: Result<seq<InputOption>, Fault>)
    requires forall i :: 0 <= i < |fields| ==> fields[i] in {Reasons, Conjectures}
    ensures item.None? && |fields| > 0 ==> r == Failure(AttributeError("source_text"))
    ensures item.Some? || |fields| == 0 ==> r.Success? && |r.value| == |fields|
    ensures r.Success? ==> forall i :: 0 <= i < |fields| ==> r.value[i] == QuoteOptionFor(fields[i], item.value, preInitialized)
  {
    if |fields| == 0 then Success([])
    else if item.None? then Failure(AttributeError("source_text"))
    else Success(seq(|fields|, i requires 0 <= i < |fields| => QuoteOptionFor(fields[i], item.value, preInitialized)))
  }

  /**
   * `create_quote_options`: one quote option per field, in the order of the
   * fields; the source text is read from the item, so a missing item raises
   * as soon as there is a field.
   */
  method CreateQuoteOptions(fields: seq<Field>, item: Option<Item>, preInitialized: bool)
    returns (r: Result<seq<InputOption>, Fault>)
    requires forall i :: 0 <= i < |fields| ==> fields[i] in {Reasons, Conjectures}
    ensures item.None? && |fields| > 0 ==> r == Failure(AttributeError("source_text"))
    ensures item.Some? || |fields| == 0 ==> r.Success? && |r.value| == |fields|
    ensures r.Success? ==> forall i :: 0 <= i < |fields| ==> r.value[i] == QuoteOptionFor(fields[i], item.value, preInitialized)
    ensures r == QuoteOptions(fields, item, preInitialized)
  {
    if |fields| == 0 {
      return Success([]);
    }
    if item.None? {
      return Failure(AttributeError("source_text"));
    }
    var options := [];
    for i := 0 to |fields|
      invariant |options| == i
      invariant forall k :: 0 <= k < i ==> options[k] == QuoteOptionFor(fields[k], item.value, preInitialized)
    {
      var quotes: seq<Quote> := [];
      if preInitialized {
        quotes := QuotesIn(item.value, fields[i]);
      }
      var question := "Please mark the " + FieldName(fields[i]) + ".";
      if |quotes| > 0 {
        question := "Please revise the " + FieldName(fields[i]) + ".";
      }
      var option := NewQuoteOption(question, fields[i], item.value.sourceText, None, quotes, None);
      assert option == QuoteOptionFor(fields[i], item.value, preInitialized);
      QuoteOptionsGrow(options, fields, item.value, preInitialized);
      options := options + [option];
    }
    assert options == QuoteOptions(fields, item, preInitialized).value;
    return Success(options);
  }
}
