/**
 * The metrics of `da2metric.py`: the `Util` helpers, the metric kinds with
 * their critical angles and satisfaction rules, the shared cache of parsed
 * artefacts and how each kind refreshes it, and each kind's `calculate`.
 * The loss-based coherence checks and the Prover9 prover are collaborators
 * given by `Inference.Pipeline` and `Analysis.Externals`.
 */
module Metrics {
  import opened Wrappers
  import opened Text
  import opened Analysis
  import opened Inference

  // ---------------------------------------------------------------------
  // Util
  // ---------------------------------------------------------------------

  /** `[x] + c` for every `c` of `cs`, in order. */
  function Prepend<T>(x: T, cs: seq<seq<T>>): (r: seq<seq<T>>)
    ensures |r| == |cs|
    ensures forall i :: 0 <= i < |cs| ==> r[i] == [x] + cs[i]
  {
    if |cs| == 0 then [] else [[x] + cs[0]] + Prepend(x, cs[1..])
  }

  /** `itertools.combinations(xs, r)`: the `r`-element sub-lists of `xs` in lexicographic order of positions. */
  function Combinations<T>(xs: seq<T>, r: nat): seq<seq<T>>
    decreases |xs|
  {
    if r == 0 then [[]]
    else if |xs| == 0 then []
    else Prepend(xs[0], Combinations(xs[1..], r - 1)) + Combinations(xs[1..], r)
  }

  /** The combinations of every size below `r`, smallest first. */
  function CombinationsBelow<T>(xs: seq<T>, r: nat): seq<seq<T>>
  {
    if r == 0 then [] else CombinationsBelow(xs, r - 1) + Combinations(xs, r - 1)
  }

  /** `Util.powerset`: the combinations of every size from 0 to `|xs|`. */
  function Powerset<T>(xs: seq<T>): seq<seq<T>>
  {
    CombinationsBelow(xs, |xs| + 1)
  }

  /** `c` is `xs` with some elements left out. */
  predicate IsSublist<T(==)>(c: seq<T>, xs: seq<T>)
    decreases |xs|
  {
    if |c| == 0 then true
    else if |xs| == 0 then false
    else (c[0] == xs[0] && IsSublist(c[1..], xs[1..])) || IsSublist(c, xs[1..])
  }

  function Binomial(n: nat, r: nat): nat
  {
    if r == 0 then 1 else if n == 0 then 0 else Binomial(n - 1, r - 1) + Binomial(n - 1, r)
  }

  function Pow2(n: nat): nat
  {
    if n == 0 then 1 else 2 * Pow2(n - 1)
  }

  /** There are `Binomial(|xs|, r)` combinations of size `r`. */
  lemma {:induction false} CombinationsCount<T>(xs: seq<T>, r: nat)
    ensures |Combinations(xs, r)| == Binomial(|xs|, r)
    decreases |xs|
  {
    if r != 0 && |xs| > 0 {
      CombinationsCount(xs[1..], r - 1);
      CombinationsCount(xs[1..], r);
    }
  }

  /** Every combination of size `r` has `r` elements and is a sub-list of `xs`. */
  lemma {:induction false} CombinationsAreSublists<T>(xs: seq<T>, r: nat, c: seq<T>)
    requires c in Combinations(xs, r)
    ensures |c| == r && IsSublist(c, xs)
    decreases |xs|
  {
    if r != 0 && |xs| > 0 {
      var left := Combinations(xs[1..], r - 1);
      var right := Combinations(xs[1..], r);
      var front := Prepend(xs[0], left);
      assert Combinations(xs, r) == front + right;
      if c in front {
        var i :| 0 <= i < |front| && front[i] == c;
        var d := left[i];
        assert d in left;
        CombinationsAreSublists(xs[1..], r - 1, d);
        assert c == [xs[0]] + d;
        assert c[1..] == d;
      } else {
        assert c in right;
        CombinationsAreSublists(xs[1..], r, c);
        if |c| > 0 {
          assert IsSublist(c, xs[1..]);
        }
      }
    }
  }

  lemma {:induction false} BinomialAboveIsZero(n: nat, r: nat)
    requires r > n
    ensures Binomial(n, r) == 0
    decreases n
  {
    if n > 0 {
      BinomialAboveIsZero(n - 1, r - 1);
      BinomialAboveIsZero(n - 1, r);
    }
  }

  /** The number of combinations of every size below `r`. */
  function BinomialsBelow(n: nat, r: nat): nat
  {
    if r == 0 then 0 else BinomialsBelow(n, r - 1) + Binomial(n, r - 1)
  }

  /** Pascal's rule, summed. */
  lemma {:induction false} BinomialsBelowStep(n: nat, r: nat)
    ensures BinomialsBelow(n + 1, r + 1) == BinomialsBelow(n, r) + BinomialsBelow(n, r + 1)
    decreases r
  {
    if r > 0 {
      BinomialsBelowStep(n, r - 1);
    }
  }

  lemma {:induction false} BinomialsSum(n: nat)
    ensures BinomialsBelow(n, n + 1) == Pow2(n)
    decreases n
  {
    if n > 0 {
      BinomialsSum(n - 1);
      BinomialsBelowStep(n - 1, n);
      BinomialAboveIsZero(n - 1, n);
    }
  }

  lemma {:induction false} CombinationsBelowCount<T>(xs: seq<T>, r: nat)
    ensures |CombinationsBelow(xs, r)| == BinomialsBelow(|xs|, r)
    decreases r
  {
    if r > 0 {
      CombinationsBelowCount(xs, r - 1);
      CombinationsCount(xs, r - 1);
    }
  }

  /** The power set of an `n`-element list has `2^n` members. */
  lemma PowersetSize<T>(xs: seq<T>)
    ensures |Powerset(xs)| == Pow2(|xs|)
  {
    CombinationsBelowCount(xs, |xs| + 1);
    BinomialsSum(|xs|);
  }

  /** Every member of the power set is a sub-list. */
  lemma {:induction false} PowersetSublists<T>(xs: seq<T>, r: nat, c: seq<T>)
    requires c in CombinationsBelow(xs, r)
    ensures |c| < r && IsSublist(c, xs)
    decreases r
  {
    if c in CombinationsBelow(xs, r - 1) {
      PowersetSublists(xs, r - 1, c);
    } else {
      CombinationsAreSublists(xs, r - 1, c);
    }
  }

  /** `Util.available_cues`: the angle ids of the cues the item carries, in the order gist, context, paraphrase. */
  function AvailableCues(item: Item): (r: seq<string>)
    ensures |r| <= 3
    ensures "g" in r <==> Filled(item, Gist)
    ensures "x" in r <==> Filled(item, Context)
    ensures "h" in r <==> Filled(item, SourceParaphrase)
  {
    (if Filled(item, Gist) then ["g"] else []) +
    (if Filled(item, Context) then ["x"] else []) +
    (if Filled(item, SourceParaphrase) then ["h"] else [])
  }

  // ---------------------------------------------------------------------
  // Metric kinds
  // ---------------------------------------------------------------------

  datatype MetricKind =
    | GlobalCompleteness | ArgumentSize
    | ValidArgdown | PCStructure | NoPetitio | NoRedundancy | ConclMatchesReco | RecoCohSource
    | SomeReasons | SomeConjectures | ReasonsAligned | ConjecturesAligned | ReasConjCohReco
    | ConsistentUsage | CompleteFormalization | WellFormedKeys | WellFormedForm | FormCohReco
    | GlobalDeductiveValidity | LocalDeductiveValidity

  /** The class name a metric is registered and looked up under. */
  function ClassName(k: MetricKind): string
  {
    match k
    case GlobalCompleteness => "GlobalCompletenessScore"
    case ArgumentSize => "ArgumentSizeScore"
    case ValidArgdown => "ValidArgdownScore"
    case PCStructure => "PCStructureScore"
    case NoPetitio => "NoPetitioScore"
    case NoRedundancy => "NoRedundancyScore"
    case ConclMatchesReco => "ConclMatchesRecoScore"
    case RecoCohSource => "RecoCohSourceScore"
    case SomeReasons => "SomeReasonsScore"
    case SomeConjectures => "SomeConjecturesScore"
    case ReasonsAligned => "ReasonsAlignedScore"
    case ConjecturesAligned => "ConjecturesAlignedScore"
    case ReasConjCohReco => "ReasConjCohRecoScore"
    case ConsistentUsage => "ConsistentUsageScore"
    case CompleteFormalization => "CompleteFormalization"
    case WellFormedKeys => "WellFormedKeysScore"
    case WellFormedForm => "WellFormedFormScore"
    case FormCohReco => "FormCohRecoScore"
    case GlobalDeductiveValidity => "GlobalDeductiveValidityScore"
    case LocalDeductiveValidity => "LocalDeductiveValidityScore"
  }

  /** An entry of deepa2's angle map: a short key such as `"a"` and the item field it stands for. */
  datatype Angle = Angle(key: string, field: Field)

  /** The keys of the angles completeness ignores; the test is a substring test on this string. */
  const IgnoredAngleKeys: string := "stghxe"

  predicate Ignored(key: string)
  {
    Contains(IgnoredAngleKeys, key)
  }

  /** The angles completeness counts, in map order. */
  function CountedAngles(angles: seq<Angle>): (r: seq<Angle>)
    ensures forall a :: a in r <==> a in angles && !Ignored(a.key)
    ensures |r| <= |angles|
  {
    if |angles| == 0 then []
    else (if Ignored(angles[0].key) then [] else [angles[0]]) + CountedAngles(angles[1..])
  }

  function FieldsOf(angles: seq<Angle>): (r: seq<Field>)
    ensures |r| == |angles| && forall i :: 0 <= i < |angles| ==> r[i] == angles[i].field
  {
    if |angles| == 0 then [] else [angles[0].field] + FieldsOf(angles[1..])
  }

  /** Whether a kind re-parses the reconstruction into the cache (`ArgdownMetric` and its subclasses). */
  predicate RefreshesArgdown(k: MetricKind)
  {
    k in {ArgumentSize, ValidArgdown, PCStructure, NoPetitio, NoRedundancy, ConclMatchesReco, RecoCohSource,
          ReasonsAligned, ConjecturesAligned, ConsistentUsage, CompleteFormalization, FormCohReco,
          LocalDeductiveValidity}
  }

  /** Whether a kind re-parses the formalizations into the cache (`FormalizationMetric` and its subclasses). */
  predicate RefreshesFormalizations(k: MetricKind)
  {
    k in {WellFormedForm, GlobalDeductiveValidity, LocalDeductiveValidity}
  }

  /** `critical_angles`: the fields whose change makes a metric recalculate. */
  function CriticalAngles(k: MetricKind, angles: seq<Angle>): seq<Field>
  {
    match k
    case GlobalCompleteness => FieldsOf(CountedAngles(angles))
    case ConclMatchesReco => [ArgdownReconstruction, Conclusion]
    case RecoCohSource => [Conclusion, Gist, Context, SourceParaphrase, ArgdownReconstruction]
    case SomeReasons => [Reasons]
    case SomeConjectures => [Conjectures]
    case ReasonsAligned => [ArgdownReconstruction, Reasons]
    case ConjecturesAligned => [ArgdownReconstruction, Conjectures]
    case ReasConjCohReco => [ArgdownReconstruction, Reasons, Conjectures, Gist, Context, SourceParaphrase]
    case CompleteFormalization =>
      [ArgdownReconstruction, PremisesFormalized, ConclusionFormalized, IntermediaryConclusionsFormalized, PlchdSubstitutions]
    case WellFormedKeys => [PremisesFormalized, ConclusionFormalized, IntermediaryConclusionsFormalized, PlchdSubstitutions]
    case FormCohReco =>
      [PremisesFormalized, ConclusionFormalized, IntermediaryConclusionsFormalized, PlchdSubstitutions, ArgdownReconstruction]
    case WellFormedForm | GlobalDeductiveValidity => FormFields
    case LocalDeductiveValidity => [ArgdownReconstruction] + FormFields
    case _ => [ArgdownReconstruction]
  }

  /** Every metric that parses the reconstruction watches it. */
  lemma ArgdownMetricsWatchReconstruction(k: MetricKind, angles: seq<Angle>)
    requires RefreshesArgdown(k)
    ensures ArgdownReconstruction in CriticalAngles(k, angles)
  {
  }

  // ---------------------------------------------------------------------
  // The shared cache
  // ---------------------------------------------------------------------

  datatype CacheKey = ParsedArgdown | ParsedP | ParsedIc | ParsedC | DefaultReconstruction

  function KeyName(k: CacheKey): string
  {
    match k
    case ParsedArgdown => "parsed_argdown"
    case ParsedP => "parsed_p_formalizations"
    case ParsedIc => "parsed_ic_formalizations"
    case ParsedC => "parsed_c_formalizations"
    case DefaultReconstruction => "default_reconstruction"
  }

  /** The parsed formulas of one formalization list: `None` where a formula does not parse. */
  type Formulas = seq<Option<Formula>>

  /**
   * The cache dict the metrics share. The outer `Option` of each entry is the
   * key's presence; `parsedArgdown` holds `None` when the reconstruction is
   * absent or does not parse.
   */
  datatype Cache = Cache(
    parsedArgdown: Option<Option<Argument>>,
    parsedP: Option<Formulas>,
    parsedIc: Option<Formulas>,
    parsedC: Option<Formulas>,
    defaultReconstruction: Option<string>)

  const EmptyCache: Cache := Cache(None, None, None, None, None)

  /** The formalization entry for one of the three formalization keys. */
  function FormEntry(c: Cache, key: CacheKey): Option<Formulas>
    requires key in {ParsedP, ParsedIc, ParsedC}
  {
    if key == ParsedP then c.parsedP else if key == ParsedIc then c.parsedIc else c.parsedC
  }

  function SetFormEntry(c: Cache, key: CacheKey, v: Formulas): (r: Cache)
    requires key in {ParsedP, ParsedIc, ParsedC}
    ensures FormEntry(r, key) == Some(v)
    ensures r.parsedArgdown == c.parsedArgdown && r.defaultReconstruction == c.defaultReconstruction
    ensures forall other :: other in {ParsedP, ParsedIc, ParsedC} && other != key ==> FormEntry(r, other) == FormEntry(c, other)
  {
    if key == ParsedP then c.(parsedP := Some(v))
    else if key == ParsedIc then c.(parsedIc := Some(v))
    else c.(parsedC := Some(v))
  }

  /** The field a formalization key is parsed from. */
  function FormSource(key: CacheKey): Field
    requires key in {ParsedP, ParsedIc, ParsedC}
  {
    if key == ParsedP then PremisesFormalized
    else if key == ParsedIc then IntermediaryConclusionsFormalized
    else ConclusionFormalized
  }

  function Formalizations(item: Item, f: Field): seq<Formalization>
    requires f in FormFields
  {
    Get(item, f).formalizations
  }

  /** What the evaluator's metrics share besides the cache: the collaborators, the pipeline (if any) and the angle map. */
  datatype Env = Env(ext: Externals, inference: Option<Pipeline>, angles: seq<Angle>)

  /** The cache after one metric's refresh, the keys refreshed so far in this update, and the exception that stopped it, if any. */
  datatype Refreshed = Refreshed(cache: Cache, updated: seq<CacheKey>, fault: Option<Fault>)

  /** `ArgdownMetric.update_cache`: re-parse the reconstruction unless that already happened in this update. */
  function RefreshArgdown(env: Env, prev: Option<Item>, item: Option<Item>, cache: Cache, updated: seq<CacheKey>): (r: Refreshed)
    ensures r.fault.None? && r.cache != cache ==> item.Some? && ParsedArgdown !in updated
    ensures r.fault.None? ==> r.updated == updated || (ParsedArgdown !in updated && r.updated == updated + [ParsedArgdown])
    ensures r.fault.None? && r.updated != updated ==>
      item.Some? && r.cache == cache.(parsedArgdown := Some(ParsedReconstruction(env, item.value)))
    ensures r.fault.None? && r.updated == updated ==> r.cache == cache
  {
    if ParsedArgdown in updated then Refreshed(cache, updated, None)
    else if cache.parsedArgdown.None? || prev.None? || item.None?
         || prev.value.argdownReconstruction != item.value.argdownReconstruction then
      if item.None? then Refreshed(cache, updated, Some(AttributeError("argdown_reconstruction")))
      else Refreshed(cache.(parsedArgdown := Some(ParsedReconstruction(env, item.value))), updated + [ParsedArgdown], None)
    else Refreshed(cache, updated, None)
  }

  /** The parse of the item's reconstruction; an absent one parses as `None`. */
  function ParsedReconstruction(env: Env, item: Item): Option<Argument>
  {
    match item.argdownReconstruction
    case None => None
    case Some(a) => env.ext.parseArgdown(a)
  }

  /** One step of `FormalizationMetric.update_cache`: re-parse one formalization list unless that already happened. */
  function RefreshFormEntry(env: Env, key: CacheKey, prev: Option<Item>, item: Option<Item>, cache: Cache, updated: seq<CacheKey>): Refreshed
    requires key in {ParsedP, ParsedIc, ParsedC}
  {
    var angle := FormSource(key);
    if key in updated then Refreshed(cache, updated, None)
    else if FormEntry(cache, key).None? || prev.None? || item.None?
         || Get(prev.value, angle) != Get(item.value, angle) then
      if item.None? then Refreshed(cache, updated, Some(AttributeError(FieldName(angle))))
      else Refreshed(SetFormEntry(cache, key, env.ext.parseAsFolf(Formalizations(item.value, angle))), updated + [key], None)
    else Refreshed(cache, updated, None)
  }

  /** `FormalizationMetric.update_cache`: the premise, intermediary and conclusion lists in that order. */
  function RefreshFormalizations(env: Env, prev: Option<Item>, item: Option<Item>, cache: Cache, updated: seq<CacheKey>): Refreshed
  {
    var p := RefreshFormEntry(env, ParsedP, prev, item, cache, updated);
    if p.fault.Some? then p
    else
      var i := RefreshFormEntry(env, ParsedIc, prev, item, p.cache, p.updated);
      if i.fault.Some? then i
      else RefreshFormEntry(env, ParsedC, prev, item, i.cache, i.updated)
  }

  /** The reconstruction generated for the cache: the pipeline's, or the literal placeholder without a pipeline. */
  function DefaultReconstructionFor(env: Env, item: Item): string
  {
    match env.inference
    case None => "default reconstruction"
    case Some(p) => p.defaultReconstruction(item)
  }

  /**
   * The second half of `RecoCohSourceScore.update_cache`: regenerate the
   * default reconstruction when it is missing or the source text changed. It is
   * not guarded by the keys refreshed so far.
   */
  function RefreshDefaultReconstruction(env: Env, prev: Option<Item>, item: Option<Item>, cache: Cache, updated: seq<CacheKey>): (r: Refreshed)
    ensures r.fault.None? && r.cache != cache ==> r.updated == updated + [DefaultReconstruction]
    ensures r.fault.None? && item.Some? && r.updated != updated ==>
      r.cache == cache.(defaultReconstruction := Some(DefaultReconstructionFor(env, item.value)))
    ensures cache.defaultReconstruction.None? && item.Some? ==> r.fault.None? && r.updated != updated
  {
    var stale: Result<bool, Fault> :=
      if cache.defaultReconstruction.None? then Success(true)
      else if prev.None? || item.None? then Failure(AttributeError("source_text"))
      else Success(prev.value.sourceText != item.value.sourceText);
    match stale
    case Failure(e) => Refreshed(cache, updated, Some(e))
    case Success(false) => Refreshed(cache, updated, None)
    case Success(true) =>
      if env.inference.None? then
        Refreshed(cache.(defaultReconstruction := Some("default reconstruction")), updated + [DefaultReconstruction], None)
      else if item.None? then Refreshed(cache, updated, Some(TypeError))
      else Refreshed(cache.(defaultReconstruction := Some(DefaultReconstructionFor(env, item.value))),
                     updated + [DefaultReconstruction], None)
  }

  /** `update_cache` of a metric of kind `k` whose previous item is `prev`. */
  function RefreshFor(env: Env, k: MetricKind, prev: Option<Item>, item: Option<Item>, cache: Cache, updated: seq<CacheKey>): Refreshed
  {
    if k == LocalDeductiveValidity then
      var f := RefreshFormalizations(env, prev, item, cache, updated);
      if f.fault.Some? then f else RefreshArgdown(env, prev, item, f.cache, f.updated)
    else if RefreshesFormalizations(k) then RefreshFormalizations(env, prev, item, cache, updated)
    else if k == RecoCohSource then
      var a := RefreshArgdown(env, prev, item, cache, updated);
      if a.fault.Some? then a else RefreshDefaultReconstruction(env, prev, item, a.cache, a.updated)
    else if RefreshesArgdown(k) then RefreshArgdown(env, prev, item, cache, updated)
    else Refreshed(cache, updated, None)
  }

  // ---------------------------------------------------------------------
  // Calculations
  // ---------------------------------------------------------------------

  /** `0.9 ** n`. */
  function Pow09(n: nat): (r: real)
    ensures 0.0 < r <= 1.0
    ensures n > 0 ==> r < 1.0
  {
    if n == 0 then 1.0 else 0.9 * Pow09(n - 1)
  }

  /** `1.0 - 0.9 ** n`: the size score of `n` statements or quotes. */
  function SizeScore(n: nat): real
  {
    1.0 - Pow09(n)
  }

  /** The size score lies in [0, 1), is 0 only for nothing, and grows with the size. */
  lemma {:induction false} SizeScoreRange(m: nat, n: nat)
    requires m <= n
    ensures 0.0 <= SizeScore(n) < 1.0
    ensures SizeScore(n) == 0.0 <==> n == 0
    ensures SizeScore(m) <= SizeScore(n)
    decreases n
  {
    if m < n {
      SizeScoreRange(m, n - 1);
      assert Pow09(n) == 0.9 * Pow09(n - 1);
    }
  }

  /** `int(b)` as a score. */
  function AsScore(b: bool): real
  {
    if b then 1.0 else 0.0
  }

  /** `self._cache["parsed_argdown"]`: `KeyError` until some metric has parsed the reconstruction. */
  function CachedArgdown(cache: Cache): (r: Result<Option<Argument>, Fault>)
    ensures r.Failure? <==> cache.parsedArgdown.None?
    ensures r.Failure? ==> r.error == KeyError("parsed_argdown")
    ensures r.Success? ==> cache.parsedArgdown == Some(r.value)
  {
    match cache.parsedArgdown
    case None => Failure(KeyError(KeyName(ParsedArgdown)))
    case Some(a) => Success(a)
  }

  /** `self._cache[key]` for a formalization key. */
  function CachedFormulas(cache: Cache, key: CacheKey): (r: Result<Formulas, Fault>)
    requires key in {ParsedP, ParsedIc, ParsedC}
    ensures r.Failure? <==> FormEntry(cache, key).None?
    ensures r.Failure? ==> r.error == KeyError(KeyName(key))
    ensures r.Success? ==> FormEntry(cache, key) == Some(r.value)
  {
    match FormEntry(cache, key)
    case None => Failure(KeyError(KeyName(key)))
    case Some(fs) => Success(fs)
  }

  /** The parse `formatted_da2item` lays the item out with: the cached one when present and not `None`. */
  function LayoutArgument(cache: Cache): (r: Option<Argument>)
    ensures r.Some? <==> cache.parsedArgdown.Some? && cache.parsedArgdown.value.Some?
  {
    if cache.parsedArgdown.Some? then cache.parsedArgdown.value else None
  }

  // --- completeness ------------------------------------------------------

  /** How many of the angles name a filled field. */
  function CountFilled(item: Item, angles: seq<Angle>): (r: nat)
  {
    if |angles| == 0 then 0
    else (if Filled(item, angles[0].field) then 1 else 0) + CountFilled(item, angles[1..])
  }

  lemma {:induction false} CountFilledBounds(item: Item, angles: seq<Angle>)
    ensures CountFilled(item, angles) <= |angles|
    ensures CountFilled(item, angles) == |angles| <==> forall i :: 0 <= i < |angles| ==> Filled(item, angles[i].field)
  {
    if |angles| > 0 {
      CountFilledBounds(item, angles[1..]);
      assert forall i :: 1 <= i < |angles| ==> angles[i] == angles[1..][i - 1];
    }
  }

  /** `GlobalCompletenessScore.calculate`: the share of counted angles the item fills; no counted angle divides by zero. */
  function Completeness(env: Env, item: Item): Result<Score, Fault>
  {
    var counted := CountedAngles(env.angles);
    if |counted| == 0 then Failure(ZeroDivisionError)
    else Success(Some(CountFilled(item, counted) as real / |counted| as real))
  }

  /** A count out of a positive total, as a share: in [0, 1], and 1 only for the full count. */
  lemma Share(n: nat, d: nat)
    requires 0 < d && n <= d
    ensures 0.0 <= n as real / d as real <= 1.0
    ensures n as real / d as real == 1.0 <==> n == d
  {
    assert n as real / d as real * d as real == n as real;
  }

  /** Completeness divides by zero exactly when every angle of the map is ignored. */
  lemma CompletenessUndefined(env: Env, item: Item)
    ensures Completeness(env, item).Failure? <==> forall a :: a in env.angles ==> Ignored(a.key)
  {
    var counted := CountedAngles(env.angles);
    if |counted| != 0 {
      assert counted[0] in counted;
    }
  }

  /** Completeness lies in [0, 1], and is 1 exactly when every counted angle is filled. */
  lemma CompletenessRange(env: Env, item: Item)
    requires Completeness(env, item).Success?
    ensures var s := Completeness(env, item).value.value;
      0.0 <= s <= 1.0 &&
      (s == 1.0 <==> forall a :: a in env.angles && !Ignored(a.key) ==> Filled(item, a.field))
  {
    var counted := CountedAngles(env.angles);
    CountFilledBounds(item, counted);
    Share(CountFilled(item, counted), |counted|);
    if forall a :: a in env.angles && !Ignored(a.key) ==> Filled(item, a.field) {
      assert forall i :: 0 <= i < |counted| ==> counted[i] in counted;
    }
    if CountFilled(item, counted) == |counted| {
      forall a | a in env.angles && !Ignored(a.key)
        ensures Filled(item, a.field)
      {
        assert a in counted;
        var i :| 0 <= i < |counted| && counted[i] == a;
      }
    }
  }

  // --- alignment of quotes ------------------------------------------------

  /** `next(s for s in statements if s.label == label)`: the first statement with the label; `StopIteration` when there is none. */
  function FirstLabelled(stmts: seq<Statement>, lbl: int): (r: Result<Statement, Fault>)
    ensures r.Success? ==> r.value in stmts && r.value.number == lbl
    ensures r.Failure? <==> forall i :: 0 <= i < |stmts| ==> stmts[i].number != lbl
    ensures r.Failure? ==> r.error == StopIteration
  {
    if |stmts| == 0 then Failure(StopIteration)
    else if stmts[0].number == lbl then Success(stmts[0])
    else
      var r := FirstLabelled(stmts[1..], lbl);
      assert forall i :: 1 <= i < |stmts| ==> stmts[i] == stmts[1..][i - 1];
      r
  }

  /**
   * Whether one quote is aligned: its reference is a statement number between
   * 1 and the number of statements, and the first statement with that number
   * is a conclusion (for conjectures) or a premise (for reasons).
   */
  function QuoteAligned(q: Quote, stmts: Argument, conclusions: bool): (r: Result<bool, Fault>)
    ensures r.Failure? <==> 0 < q.refReco <= |stmts| && forall i :: 0 <= i < |stmts| ==> stmts[i].number != q.refReco
  {
    if 0 < q.refReco <= |stmts| then
      match FirstLabelled(stmts, q.refReco)
      case Failure(e) => Failure(e)
      case Success(s) => Success(s.isConclusion == conclusions)
    else Success(false)
  }

  /** A count of later items added to a count so far. */
  function Plus(r: Result<nat, Fault>, c: nat): Result<nat, Fault>
  {
    match r
    case Failure(e) => Failure(e)
    case Success(v) => Success(v + c)
  }

  /** The aligned quotes from index `k` on; the first quote whose lookup raises stops the count. */
  function AlignedFrom(quotes: seq<Quote>, stmts: Argument, conclusions: bool, k: nat): Result<nat, Fault>
    requires k <= |quotes|
    decreases |quotes| - k
  {
    if k == |quotes| then Success(0)
    else
      match QuoteAligned(quotes[k], stmts, conclusions)
      case Failure(e) => Failure(e)
      case Success(b) => Plus(AlignedFrom(quotes, stmts, conclusions, k + 1), if b then 1 else 0)
  }

  /** The count never exceeds the number of quotes, and reaches it exactly when every quote is aligned. */
  lemma {:induction false} AlignedFromBounds(quotes: seq<Quote>, stmts: Argument, conclusions: bool, k: nat)
    requires k <= |quotes|
    ensures AlignedFrom(quotes, stmts, conclusions, k).Success? ==>
      var c := AlignedFrom(quotes, stmts, conclusions, k).value;
      c <= |quotes| - k &&
      (c == |quotes| - k <==> forall i :: k <= i < |quotes| ==> QuoteAligned(quotes[i], stmts, conclusions) == Success(true))
    ensures AlignedFrom(quotes, stmts, conclusions, k).Failure? <==>
      exists i :: k <= i < |quotes| && QuoteAligned(quotes[i], stmts, conclusions).Failure?
    decreases |quotes| - k
  {
    if k < |quotes| {
      AlignedFromBounds(quotes, stmts, conclusions, k + 1);
    }
  }

  /** The loop of `ReasonsAlignedScore.calculate` and `ConjecturesAlignedScore.calculate`. */
  method CountAligned(quotes: seq<Quote>, stmts: Argument, conclusions: bool) returns (r: Result<nat, Fault>)
    ensures r == AlignedFrom(quotes, stmts, conclusions, 0)
  {
    var count: nat := 0;
    var i := 0;
    while i < |quotes|
      invariant 0 <= i <= |quotes|
      invariant AlignedFrom(quotes, stmts, conclusions, 0) == Plus(AlignedFrom(quotes, stmts, conclusions, i), count)
    {
      var aligned := QuoteAligned(quotes[i], stmts, conclusions);
      if aligned.Failure? {
        return Failure(aligned.error);
      }
      if aligned.value {
        count := count + 1;
      }
      i := i + 1;
    }
    return Success(count);
  }

  /** The alignment score of the reasons (`conclusions` false) or of the conjectures (`conclusions` true). */
  function Alignment(item: Item, cache: Cache, conclusions: bool): Result<Score, Fault>
  {
    var quotes := if conclusions then item.conjectures else item.reasons;
    if |quotes| == 0 || !Filled(item, ArgdownReconstruction) then Success(None)
    else
      match CachedArgdown(cache)
      case Failure(e) => Failure(e)
      case Success(None) => Success(Some(0.0))
      case Success(Some(stmts)) =>
        match AlignedFrom(quotes, stmts, conclusions, 0)
        case Failure(e) => Failure(e)
        case Success(c) => Success(Some(c as real / |quotes| as real))
  }

  // --- formalization ------------------------------------------------------

  /** The number of formalizations that reference the label. */
  function CountRefs(fs: seq<Formalization>, lbl: int): nat
  {
    if |fs| == 0 then 0 else (if fs[0].refReco == lbl then 1 else 0) + CountRefs(fs[1..], lbl)
  }

  /** The statements formalized exactly once in `fs`. */
  function OnceFormalized(stmts: seq<Statement>, fs: seq<Formalization>): (r: nat)
    ensures r <= |stmts|
  {
    if |stmts| == 0 then 0
    else (if CountRefs(fs, stmts[0].number) == 1 then 1 else 0) + OnceFormalized(stmts[1..], fs)
  }

  /** The statements that are not conclusions, in order. */
  function PremiseStatements(stmts: seq<Statement>): (r: seq<Statement>)
    ensures |r| <= |stmts|
    ensures forall s :: s in r <==> s in stmts && !s.isConclusion
  {
    if |stmts| == 0 then []
    else (if stmts[0].isConclusion then [] else [stmts[0]]) + PremiseStatements(stmts[1..])
  }

  /** The statements that are conclusions, in order. */
  function ConclusionStatements(stmts: seq<Statement>): (r: seq<Statement>)
    ensures |r| <= |stmts|
    ensures forall s :: s in r <==> s in stmts && s.isConclusion
  {
    if |stmts| == 0 then []
    else (if stmts[0].isConclusion then [stmts[0]] else []) + ConclusionStatements(stmts[1..])
  }

  /** Every statement is a premise or a conclusion. */
  lemma {:induction false} PartitionStatements(stmts: seq<Statement>)
    ensures |PremiseStatements(stmts)| + |ConclusionStatements(stmts)| == |stmts|
  {
    if |stmts| > 0 {
      PartitionStatements(stmts[1..]);
    }
  }

  lemma {:induction false} PremiseStatementsAppend(a: seq<Statement>, b: seq<Statement>)
    ensures PremiseStatements(a + b) == PremiseStatements(a) + PremiseStatements(b)
  {
    if |a| == 0 {
      assert a + b == b;
    } else {
      assert (a + b)[1..] == a[1..] + b;
      PremiseStatementsAppend(a[1..], b);
    }
  }

  /** Whether some statement carries the label. */
  predicate HasLabel(stmts: seq<Statement>, lbl: int)
  {
    exists i :: 0 <= i < |stmts| && stmts[i].number == lbl
  }

  /** The formalizations whose reference is not the label of any statement. */
  function Dangling(fs: seq<Formalization>, stmts: seq<Statement>): nat
  {
    if |fs| == 0 then 0
    else (if HasLabel(stmts, fs[0].refReco) then 0 else 1) + Dangling(fs[1..], stmts)
  }

  /**
   * The aligned count of `CompleteFormalization.calculate`: premises (every
   * non-conclusion, the last statement included) formalized once among the
   * premise formalizations, intermediary conclusions (the conclusions before the
   * last statement) once among theirs, and the last statement once among the
   * conclusion formalizations.
   */
  function FormalizedOnce(item: Item, stmts: Argument): nat
  {
    var last := stmts[|stmts| - 1];
    OnceFormalized(PremiseStatements(stmts), item.premisesFormalized)
    + OnceFormalized(ConclusionStatements(stmts[..|stmts| - 1]), item.intermediaryConclusionsFormalized)
    + (if CountRefs(item.conclusionFormalized, last.number) == 1 then 1 else 0)
  }

  /** `CompleteFormalization.calculate`, given the cached parse. */
  function FormalizationCompleteness(item: Item, parsed: Option<Argument>): Score
  {
    match parsed
    case None => None
    case Some(stmts) =>
      if |item.premisesFormalized| == 0 || |item.conclusionFormalized| == 0
         || (|item.intermediaryConclusionsFormalized| == 0 && |ConclusionStatements(stmts[..|stmts| - 1])| > 0)
         || |item.plchdSubstitutions| == 0 then Some(0.0)
      else
        var aligned := FormalizedOnce(item, stmts);
        var dangling := Dangling(item.premisesFormalized + item.conclusionFormalized + item.intermediaryConclusionsFormalized, stmts);
        Some((if aligned >= dangling then aligned - dangling else 0) as real / |stmts| as real)
  }

  /** When the reconstruction ends in a conclusion, every statement is counted at most once. */
  lemma FormalizedOnceBound(item: Item, stmts: Argument)
    requires stmts[|stmts| - 1].isConclusion
    ensures FormalizedOnce(item, stmts) <= |stmts|
  {
    var init := stmts[..|stmts| - 1];
    assert stmts == init + [stmts[|stmts| - 1]];
    PremiseStatementsAppend(init, [stmts[|stmts| - 1]]);
    assert PremiseStatements([stmts[|stmts| - 1]]) == [];
    PartitionStatements(init);
  }

  /** When the reconstruction ends in a conclusion, the completeness of the formalization is at most 1. */
  lemma FormalizationCompletenessBounded(item: Item, stmts: Argument)
    requires stmts[|stmts| - 1].isConclusion
    ensures var s := FormalizationCompleteness(item, Some(stmts)); s.Some? && 0.0 <= s.value <= 1.0
  {
    FormalizedOnceBound(item, stmts);
    var aligned := FormalizedOnce(item, stmts);
    var dangling := Dangling(item.premisesFormalized + item.conclusionFormalized + item.intermediaryConclusionsFormalized, stmts);
    var n: nat := if aligned >= dangling then aligned - dangling else 0;
    Share(n, |stmts|);
  }

  /**
   * When the last statement is not a conclusion it is counted both as a
   * premise and as the conclusion: a single premise formalized once as a
   * premise and once as the conclusion scores 2.
   */
  lemma FormalizationCompletenessCanExceedOne()
    ensures var item := NewItem("s").(premisesFormalized := [Formalization("F(a)", 1)],
                                        conclusionFormalized := [Formalization("F(a)", 1)],
                                        plchdSubstitutions := [Substitution("F", "is fine")]);
            FormalizationCompleteness(item, Some([Statement(1, false, [], "p")])) == Some(2.0)
  {
    var item := NewItem("s").(premisesFormalized := [Formalization("F(a)", 1)],
                              conclusionFormalized := [Formalization("F(a)", 1)],
                              plchdSubstitutions := [Substitution("F", "is fine")]);
    var stmts: Argument := [Statement(1, false, [], "p")];
    assert stmts[..0] == [];
    assert PremiseStatements(stmts) == stmts;
    assert CountRefs(item.premisesFormalized, 1) == 1;
    assert OnceFormalized(stmts, item.premisesFormalized) == 1;
    assert FormalizedOnce(item, stmts) == 2;
    assert stmts[0].number == 1;
    assert HasLabel(stmts, 1);
    var fs := item.premisesFormalized + item.conclusionFormalized + item.intermediaryConclusionsFormalized;
    assert fs == [Formalization("F(a)", 1), Formalization("F(a)", 1)];
    assert fs[1..] == [Formalization("F(a)", 1)];
    assert Dangling(fs, stmts) == 0;
  }

  /** `any(key in f.form for f in formalizations)`. */
  predicate KeyUsed(key: string, fs: seq<Formalization>)
  {
    exists i :: 0 <= i < |fs| && Contains(fs[i].form, key)
  }

  /** `WellFormedKeysScore.calculate`: `None` without keys, else 1 iff every key occurs in some formula. */
  function KeysWellFormed(item: Item): (r: Score)
    ensures r.None? <==> |item.plchdSubstitutions| == 0
    ensures r.Some? ==> (r.value == 1.0 <==>
      forall i :: 0 <= i < |item.plchdSubstitutions| ==>
        KeyUsed(item.plchdSubstitutions[i].key,
                item.premisesFormalized + item.intermediaryConclusionsFormalized + item.conclusionFormalized))
    ensures r.Some? ==> r.value == 0.0 || r.value == 1.0
  {
    var fs := item.premisesFormalized + item.intermediaryConclusionsFormalized + item.conclusionFormalized;
    var subs := item.plchdSubstitutions;
    if |subs| == 0 then None
    else Some(AsScore(forall i :: 0 <= i < |subs| ==> KeyUsed(subs[i].key, fs)))
  }

  /**
   * `WellFormedFormScore.calculate`: only the first non-empty group among the
   * premise, conclusion and intermediary formalizations is checked for a formula
   * that did not parse.
   */
  function FormsWellFormed(item: Item, cache: Cache): (r: Result<Score, Fault>)
    ensures r.Success? && r.value.Some? ==> r.value.value == 0.0 || r.value.value == 1.0
    ensures r.Success? && r.value.None? <==>
      |item.premisesFormalized| == 0 && |item.conclusionFormalized| == 0 && |item.intermediaryConclusionsFormalized| == 0
  {
    var key :=
      if |item.premisesFormalized| > 0 then Some(ParsedP)
      else if |item.conclusionFormalized| > 0 then Some(ParsedC)
      else if |item.intermediaryConclusionsFormalized| > 0 then Some(ParsedIc)
      else None;
    match key
    case None => Success(None)
    case Some(k) =>
      match CachedFormulas(cache, k)
      case Failure(e) => Failure(e)
      case Success(fs) => Success(Some(AsScore(None !in fs)))
  }

  /** `GlobalDeductiveValidityScore.calculate`: the first conclusion formula follows from all premise formulas. */
  function GlobalValidity(ext: Externals, cache: Cache): Result<Score, Fault>
  {
    match CachedFormulas(cache, ParsedP)
    case Failure(e) => Failure(e)
    case Success(ps) =>
      match CachedFormulas(cache, ParsedC)
      case Failure(e) => Failure(e)
      case Success(cs) =>
        if |ps| == 0 || |cs| == 0 then Success(None)
        else Success(Some(AsScore(ext.prove(cs[0], ps))))
  }

  // --- local deductive validity ---------------------------------------------

  /** The first index `i < bound` of a formalization that references the label, or -1. */
  function FirstRef(fs: seq<Formalization>, lbl: int, bound: int, i: nat): (r: int)
    requires i <= |fs|
    ensures r == -1 || (i <= r < |fs| && r < bound && fs[r].refReco == lbl)
    ensures r == -1 ==> forall j :: i <= j < |fs| && j < bound ==> fs[j].refReco != lbl
    ensures r >= 0 ==> forall j :: i <= j < r ==> fs[j].refReco != lbl
    decreases |fs| - i
  {
    if i == |fs| then -1
    else if fs[i].refReco == lbl && i < bound then i
    else FirstRef(fs, lbl, bound, i + 1)
  }

  /**
   * `_get_parsed_formula`: the parsed formula of the statement with the label,
   * searched among the premise formalizations, then the intermediary ones, then
   * the first conclusion formalization; `None` when none references the label or
   * the formula found did not parse.
   */
  function FormulaFor(item: Item, p: Formulas, ic: Formulas, c: Formulas, lbl: int): Option<Formula>
  {
    var i := FirstRef(item.premisesFormalized, lbl, |p|, 0);
    var j := FirstRef(item.intermediaryConclusionsFormalized, lbl, |ic|, 0);
    if i >= 0 then p[i]
    else if j >= 0 then ic[j]
    else if |item.conclusionFormalized| > 0 && |c| > 0 && item.conclusionFormalized[0].refReco == lbl then c[0]
    else None
  }

  /** The formulas of the labels a step uses, or `None` when one of them has none. */
  function UsedFormulas(item: Item, p: Formulas, ic: Formulas, c: Formulas, uses: seq<int>): (r: Option<Formulas>)
    ensures r.Some? ==> |r.value| == |uses|
    ensures r.Some? ==> forall i :: 0 <= i < |uses| ==> r.value[i] == FormulaFor(item, p, ic, c, uses[i]) && r.value[i].Some?
    ensures r.None? <==> exists i :: 0 <= i < |uses| && FormulaFor(item, p, ic, c, uses[i]).None?
  {
    if |uses| == 0 then Some([])
    else
      var f := FormulaFor(item, p, ic, c, uses[0]);
      var rest := UsedFormulas(item, p, ic, c, uses[1..]);
      assert forall i :: 1 <= i < |uses| ==> uses[i] == uses[1..][i - 1];
      if f.None? || rest.None? then None else Some([f] + rest.value)
  }

  /** An inference step: a conclusion inferred from some statements. */
  predicate IsStep(s: Statement)
  {
    s.isConclusion && |s.uses| > 0
  }

  /** The verdict on one statement: whether it is a valid inference step, or `None` when a formula it needs is missing. */
  function StepValid(ext: Externals, item: Item, p: Formulas, ic: Formulas, c: Formulas, s: Statement): Option<bool>
  {
    if !IsStep(s) then Some(false)
    else
      match FormulaFor(item, p, ic, c, s.number)
      case None => None
      case Some(cf) =>
        match UsedFormulas(item, p, ic, c, s.uses)
        case None => None
        case Some(ps) => Some(ext.prove(Some(cf), ps))
  }

  /** The valid steps from statement `k` on, given each statement's verdict; a `None` verdict makes the whole count `None`. */
  function ValidStepsFrom(verdict: Statement -> Option<bool>, stmts: seq<Statement>, k: nat): Option<nat>
    requires k <= |stmts|
    decreases |stmts| - k
  {
    if k == |stmts| then Some(0)
    else
      match verdict(stmts[k])
      case None => None
      case Some(b) => Added(ValidStepsFrom(verdict, stmts, k + 1), if b then 1 else 0)
  }

  /** A count of later steps added to a count so far. */
  function Added(r: Option<nat>, c: nat): Option<nat>
  {
    match r
    case None => None
    case Some(v) => Some(v + c)
  }

  /** The conclusions from statement `k` on. */
  function ConclusionsFrom(stmts: seq<Statement>, k: nat): nat
    requires k <= |stmts|
    decreases |stmts| - k
  {
    if k == |stmts| then 0 else (if stmts[k].isConclusion then 1 else 0) + ConclusionsFrom(stmts, k + 1)
  }

  /** Only a step, hence a conclusion, can be valid. */
  lemma OnlyStepsValid(ext: Externals, item: Item, p: Formulas, ic: Formulas, c: Formulas, s: Statement)
    ensures StepValid(ext, item, p, ic, c, s) == Some(true) ==> IsStep(s)
    ensures !IsStep(s) ==> StepValid(ext, item, p, ic, c, s) == Some(false)
  {
  }

  /** When only conclusions are judged valid, the valid steps are at most the conclusions. */
  lemma {:induction false} ValidStepsBounded(verdict: Statement -> Option<bool>, stmts: seq<Statement>, k: nat)
    requires k <= |stmts|
    requires forall i :: k <= i < |stmts| && verdict(stmts[i]) == Some(true) ==> stmts[i].isConclusion
    ensures ValidStepsFrom(verdict, stmts, k).Some? ==> ValidStepsFrom(verdict, stmts, k).value <= ConclusionsFrom(stmts, k)
    decreases |stmts| - k
  {
    if k < |stmts| {
      ValidStepsBounded(verdict, stmts, k + 1);
    }
  }

  /** The loop of `LocalDeductiveValidityScore.calculate`, with the verdict on each statement. */
  method CountValidSteps(verdict: Statement -> Option<bool>, stmts: seq<Statement>) returns (r: Option<nat>)
    ensures r == ValidStepsFrom(verdict, stmts, 0)
  {
    var count: nat := 0;
    var i := 0;
    while i < |stmts|
      invariant 0 <= i <= |stmts|
      invariant ValidStepsFrom(verdict, stmts, 0) == Added(ValidStepsFrom(verdict, stmts, i), count)
    {
      var v := verdict(stmts[i]);
      if v.None? {
        return None;
      }
      if v.value {
        count := count + 1;
      }
      i := i + 1;
    }
    return Some(count);
  }

  /** Some statement is an inference step, so the formula caches are read. */
  predicate HasStep(stmts: seq<Statement>)
  {
    exists i :: 0 <= i < |stmts| && IsStep(stmts[i])
  }

  /** The formula caches as the first inference step reads them: `KeyError` at the first absent one. */
  function StepFormulas(cache: Cache, stmts: seq<Statement>): Result<(Formulas, Formulas, Formulas), Fault>
  {
    if !HasStep(stmts) then Success(([], [], []))
    else
      match CachedFormulas(cache, ParsedP)
      case Failure(e) => Failure(e)
      case Success(p) =>
        match CachedFormulas(cache, ParsedIc)
        case Failure(e) => Failure(e)
        case Success(ic) =>
          match CachedFormulas(cache, ParsedC)
          case Failure(e) => Failure(e)
          case Success(c) => Success((p, ic, c))
  }

  /** `LocalDeductiveValidityScore.calculate`: the share of conclusions that are valid steps. */
  function LocalValidity(ext: Externals, item: Item, cache: Cache): Result<Score, Fault>
  {
    match CachedArgdown(cache)
    case Failure(e) => Failure(e)
    case Success(None) => Success(None)
    case Success(Some(stmts)) =>
      match StepFormulas(cache, stmts)
      case Failure(e) => Failure(e)
      case Success(fs) =>
        match ValidStepsFrom(s => StepValid(ext, item, fs.0, fs.1, fs.2, s), stmts, 0)
        case None => Success(None)
        case Some(n) =>
          if ConclusionsFrom(stmts, 0) == 0 then Failure(ZeroDivisionError)
          else Success(Some(n as real / ConclusionsFrom(stmts, 0) as real))
  }

  /** Local validity is a share in [0, 1]. */
  lemma LocalValidityRange(ext: Externals, item: Item, cache: Cache)
    requires LocalValidity(ext, item, cache).Success? && LocalValidity(ext, item, cache).value.Some?
    ensures 0.0 <= LocalValidity(ext, item, cache).value.value <= 1.0
  {
    var stmts := cache.parsedArgdown.value.value;
    var fs := StepFormulas(cache, stmts).value;
    var verdict := s => StepValid(ext, item, fs.0, fs.1, fs.2, s);
    forall i | 0 <= i < |stmts| && verdict(stmts[i]) == Some(true)
      ensures stmts[i].isConclusion
    {
      OnlyStepsValid(ext, item, fs.0, fs.1, fs.2, stmts[i]);
    }
    ValidStepsBounded(verdict, stmts, 0);
    Share(ValidStepsFrom(verdict, stmts, 0).value, ConclusionsFrom(stmts, 0));
  }

  /** A parsed argument without conclusions makes local validity divide by zero. */
  lemma LocalValidityWithoutConclusions(ext: Externals, item: Item, cache: Cache)
    requires cache.parsedArgdown.Some? && cache.parsedArgdown.value.Some?
    requires ConclusionsFrom(cache.parsedArgdown.value.value, 0) == 0
    ensures LocalValidity(ext, item, cache) == Failure(ZeroDivisionError)
  {
    var stmts := cache.parsedArgdown.value.value;
    NoConclusionNoStep(stmts, 0);
    assert !HasStep(stmts);
    var verdict := s => StepValid(ext, item, [], [], [], s);
    forall i | 0 <= i < |stmts|
      ensures verdict(stmts[i]) == Some(false)
    {
      OnlyStepsValid(ext, item, [], [], [], stmts[i]);
    }
    NoStepAllValid(verdict, stmts, 0);
  }

  lemma {:induction false} NoConclusionNoStep(stmts: seq<Statement>, k: nat)
    requires k <= |stmts| && ConclusionsFrom(stmts, k) == 0
    ensures forall i :: k <= i < |stmts| ==> !stmts[i].isConclusion
    decreases |stmts| - k
  {
    if k < |stmts| {
      NoConclusionNoStep(stmts, k + 1);
    }
  }

  lemma {:induction false} NoStepAllValid(verdict: Statement -> Option<bool>, stmts: seq<Statement>, k: nat)
    requires k <= |stmts|
    requires forall i :: k <= i < |stmts| ==> verdict(stmts[i]) == Some(false)
    ensures ValidStepsFrom(verdict, stmts, k) == Some(0)
    decreases |stmts| - k
  {
    if k < |stmts| {
      NoStepAllValid(verdict, stmts, k + 1);
    }
  }

  // --- dispatch --------------------------------------------------------------

  /** An `ArgdownHandler` check applied to the cached parse. */
  function ArgdownCheck(check: Option<Argument> -> Score, cache: Cache): Result<Score, Fault>
  {
    match CachedArgdown(cache)
    case Failure(e) => Failure(e)
    case Success(a) => Success(check(a))
  }

  /** `ArgumentSizeScore.calculate`. */
  function ReconstructionSize(item: Item, cache: Cache): Result<Score, Fault>
  {
    if !Filled(item, ArgdownReconstruction) then Success(None)
    else
      match CachedArgdown(cache)
      case Failure(e) => Failure(e)
      case Success(None) => Success(None)
      case Success(Some(stmts)) => Success(Some(SizeScore(|stmts|)))
  }

  /** `ConclMatchesRecoScore.calculate`: the final statement and the first conclusion agree up to surrounding space and case. */
  function ConclusionMatch(item: Item, cache: Cache): Result<Score, Fault>
  {
    if |item.conclusion| == 0 then Success(None)
    else
      match CachedArgdown(cache)
      case Failure(e) => Failure(e)
      case Success(None) => Success(Some(0.0))
      case Success(Some(stmts)) =>
        Success(Some(AsScore(Lower(Strip(stmts[|stmts| - 1].text)) == Lower(Strip(item.conclusion[0].text)))))
  }

  /** `RecoCohSourceScore.calculate`. */
  function RecoCoherence(env: Env, item: Item, cache: Cache): Result<Score, Fault>
  {
    if env.inference.None? || item.argdownReconstruction.None? then Success(None)
    else if |item.sourceText| == 0 then Success(Some(0.0))
    else
      match CachedArgdown(cache)
      case Failure(e) => Failure(e)
      case Success(None) => Success(Some(0.0))
      case Success(Some(_)) =>
        match cache.defaultReconstruction
        case None => Failure(KeyError(KeyName(DefaultReconstruction)))
        case Some(d) => Success(Some(AsScore(env.inference.value.recoCoheres(item, d))))
  }

  /** `SomeReasonsScore.calculate` and `SomeConjecturesScore.calculate`. */
  function QuoteCount(quotes: seq<Quote>): Score
  {
    Some(if |quotes| == 0 then 0.0 else SizeScore(|quotes|))
  }

  /** `ReasConjCohRecoScore.calculate`. */
  function ReasConjCoherence(env: Env, item: Item, cache: Cache): Score
  {
    if env.inference.None? then None
    else if (|item.reasons| == 0 && |item.conjectures| == 0) || !Filled(item, ArgdownReconstruction) then None
    else Some(AsScore(env.inference.value.reasConjCoheres(item, LayoutArgument(cache))))
  }

  /** `FormCohRecoScore.calculate`. */
  function FormCoherence(env: Env, item: Item, cache: Cache): Result<Score, Fault>
  {
    if env.inference.None? then Success(None)
    else if |item.plchdSubstitutions| == 0 || |item.conclusionFormalized| == 0 || |item.premisesFormalized| == 0 then Success(None)
    else
      match CachedArgdown(cache)
      case Failure(e) => Failure(e)
      case Success(None) => Success(None)
      case Success(Some(stmts)) => Success(Some(AsScore(env.inference.value.formCoheres(item, stmts))))
  }

  /** `calculate` of a metric of kind `k` on the item, reading the shared cache; a raised exception is a `Failure`. */
  function Calculate(env: Env, k: MetricKind, item: Item, cache: Cache): Result<Score, Fault>
  {
    match k
    case GlobalCompleteness => Completeness(env, item)
    case ArgumentSize => ReconstructionSize(item, cache)
    case ValidArgdown => ArgdownCheck(env.ext.validArgdown, cache)
    case PCStructure => ArgdownCheck(env.ext.pcStructure, cache)
    case NoPetitio => ArgdownCheck(env.ext.noPetitio, cache)
    case NoRedundancy => ArgdownCheck(env.ext.noRedundancy, cache)
    case ConsistentUsage => ArgdownCheck(env.ext.consistentUsage, cache)
    case ConclMatchesReco => ConclusionMatch(item, cache)
    case RecoCohSource => RecoCoherence(env, item, cache)
    case SomeReasons => Success(QuoteCount(item.reasons))
    case SomeConjectures => Success(QuoteCount(item.conjectures))
    case ReasonsAligned => Alignment(item, cache, false)
    case ConjecturesAligned => Alignment(item, cache, true)
    case ReasConjCohReco => Success(ReasConjCoherence(env, item, cache))
    case CompleteFormalization =>
      (match CachedArgdown(cache)
       case Failure(e) => Failure(e)
       case Success(a) => Success(FormalizationCompleteness(item, a)))
    case WellFormedKeys => Success(KeysWellFormed(item))
    case WellFormedForm => FormsWellFormed(item, cache)
    case FormCohReco => FormCoherence(env, item, cache)
    case GlobalDeductiveValidity => GlobalValidity(env.ext, cache)
    case LocalDeductiveValidity => LocalValidity(env.ext, item, cache)
  }

  /** The alignment metrics with their counting loop. */
  method CalculateAlignment(item: Item, cache: Cache, conclusions: bool) returns (r: Result<Score, Fault>)
    ensures r == Alignment(item, cache, conclusions)
  {
    var quotes := if conclusions then item.conjectures else item.reasons;
    if |quotes| == 0 || !Filled(item, ArgdownReconstruction) {
      return Success(None);
    }
    var parsed := CachedArgdown(cache);
    if parsed.Failure? {
      return Failure(parsed.error);
    }
    if parsed.value.None? {
      return Success(Some(0.0));
    }
    var count := CountAligned(quotes, parsed.value.value, conclusions);
    if count.Failure? {
      return Failure(count.error);
    }
    return Success(Some(count.value as real / |quotes| as real));
  }

  /** Local deductive validity with its counting loop. */
  method CalculateLocalValidity(ext: Externals, item: Item, cache: Cache) returns (r: Result<Score, Fault>)
    ensures r == LocalValidity(ext, item, cache)
  {
    var parsed := CachedArgdown(cache);
    if parsed.Failure? {
      return Failure(parsed.error);
    }
    if parsed.value.None? {
      return Success(None);
    }
    var stmts := parsed.value.value;
    var fs := StepFormulas(cache, stmts);
    if fs.Failure? {
      return Failure(fs.error);
    }
    var p, ic, c := fs.value.0, fs.value.1, fs.value.2;
    var count := CountValidSteps(s => StepValid(ext, item, p, ic, c, s), stmts);
    if count.None? {
      return Success(None);
    }
    var conclusions := ConclusionsFrom(stmts, 0);
    if conclusions == 0 {
      return Failure(ZeroDivisionError);
    }
    return Success(Some(count.value as real / conclusions as real));
  }

  /** `calculate`, running the loops of the counting metrics. */
  method CalculateScore(env: Env, k: MetricKind, item: Item, cache: Cache) returns (r: Result<Score, Fault>)
    ensures r == Calculate(env, k, item, cache)
  {
    match k {
      case ReasonsAligned =>
        r := CalculateAlignment(item, cache, false);
      case ConjecturesAligned =>
        r := CalculateAlignment(item, cache, true);
      case LocalDeductiveValidity =>
        r := CalculateLocalValidity(env.ext, item, cache);
      case _ =>
        r := Calculate(env, k, item, cache);
    }
  }

  // --- satisfaction -------------------------------------------------------------

  /** The kinds satisfied only by a score that rounds to 1 at five decimals. */
  predicate NeedsFullScore(k: MetricKind)
  {
    k in {ReasonsAligned, ConjecturesAligned, CompleteFormalization, LocalDeductiveValidity}
  }

  /** The smallest score `round(score, 5)` takes to 1. */
  const RoundsToOne: real := 0.999995

  /** `satisficed`: a score that rounds to 1 for the kinds that need a full score, a non-zero score for the others. */
  predicate Satisfied(k: MetricKind, score: Score)
  {
    if NeedsFullScore(k) then score.Some? && score.value >= RoundsToOne else score.Some? && score.value != 0.0
  }

  /** A share of fewer than 200000 items rounds to 1 only when it is complete. */
  lemma ShareRoundsToOne(c: nat, n: nat)
    requires 0 < n < 200000 && c <= n
    ensures c as real / n as real >= RoundsToOne <==> c == n
  {
    var x := c as real / n as real;
    assert x * n as real == c as real;
    if c < n {
      assert c as real <= n as real - 1.0;
    }
  }

  /** With fewer than 200000 quotes, an alignment metric is satisfied exactly when every quote is aligned. */
  lemma AlignmentSatisfied(item: Item, cache: Cache, conclusions: bool, stmts: Argument)
    requires cache.parsedArgdown == Some(Some(stmts))
    requires Filled(item, ArgdownReconstruction)
    requires var quotes := if conclusions then item.conjectures else item.reasons;
      0 < |quotes| < 200000 && AlignedFrom(quotes, stmts, conclusions, 0).Success?
    ensures var quotes := if conclusions then item.conjectures else item.reasons;
      Alignment(item, cache, conclusions).Success? &&
      (Satisfied(if conclusions then ConjecturesAligned else ReasonsAligned, Alignment(item, cache, conclusions).value) <==>
       forall i :: 0 <= i < |quotes| ==> QuoteAligned(quotes[i], stmts, conclusions) == Success(true))
  {
    var quotes := if conclusions then item.conjectures else item.reasons;
    AlignedFromBounds(quotes, stmts, conclusions, 0);
    ShareRoundsToOne(AlignedFrom(quotes, stmts, conclusions, 0).value, |quotes|);
  }

  /** Whether there are some reasons (or conjectures): satisfied exactly when the list is not empty. */
  lemma QuoteCountSatisfied(quotes: seq<Quote>)
    ensures Satisfied(SomeReasons, QuoteCount(quotes)) <==> |quotes| > 0
    ensures 0.0 <= QuoteCount(quotes).value < 1.0
  {
    SizeScoreRange(|quotes|, |quotes|);
  }

  // --- update -------------------------------------------------------------------

  /** A metric's state: the item it last saw and its current score. */
  datatype MetricState = MetricState(item: Option<Item>, score: Score)

  /** A registered metric before any update. */
  const Fresh: MetricState := MetricState(None, None)

  /** Some of the fields differ between the two items. */
  predicate Differs(fields: seq<Field>, a: Item, b: Item)
  {
    exists i :: 0 <= i < |fields| && Get(a, fields[i]) != Get(b, fields[i])
  }

  /** `update_score` recalculates: there is a new item, and no previous one or a critical angle changed. */
  predicate Recalculates(env: Env, k: MetricKind, prev: Option<Item>, item: Option<Item>)
  {
    item.Some? && (prev.None? || Differs(CriticalAngles(k, env.angles), prev.value, item.value))
  }

  /** A metric's state after `update_score`, and the exception its calculation raised, if any. */
  datatype Scored = Scored(state: MetricState, fault: Option<Fault>)

  /**
   * `Metric.update_score`: the item is always replaced; the score is
   * recalculated only when `Recalculates` holds, and a calculation that raises
   * leaves the old score.
   */
  function ScoreUpdate(env: Env, k: MetricKind, st: MetricState, item: Option<Item>, cache: Cache): (r: Scored)
    ensures r.state.item == item
    ensures !Recalculates(env, k, st.item, item) ==> r.state.score == st.score && r.fault.None?
    ensures r.fault.Some? ==> r.state.score == st.score
    ensures r.state.score != st.score ==> Calculate(env, k, item.value, cache) == Success(r.state.score)
    ensures Recalculates(env, k, st.item, item) ==>
      var calculated := Calculate(env, k, item.value, cache);
      (calculated.Success? ==> r.state.score == calculated.value && r.fault.None?) &&
      (calculated.Failure? ==> r.fault == Some(calculated.error))
  {
    if !Recalculates(env, k, st.item, item) then Scored(st.(item := item), None)
    else
      match Calculate(env, k, item.value, cache)
      case Failure(e) => Scored(st.(item := item), Some(e))
      case Success(s) => Scored(MetricState(item, s), None)
  }

  /** A second update with the same item recalculates nothing, whatever the cache. */
  lemma ScoreUpdateSettles(env: Env, k: MetricKind, st: MetricState, item: Item, cache: Cache, cache': Cache)
    ensures var once := ScoreUpdate(env, k, st, Some(item), cache);
      ScoreUpdate(env, k, once.state, Some(item), cache') == Scored(once.state, None)
  {
  }

  /** A freshly registered metric recalculates on its first item. */
  lemma FreshRecalculates(env: Env, k: MetricKind, item: Item, cache: Cache)
    ensures Calculate(env, k, item, cache).Success? ==>
      ScoreUpdate(env, k, Fresh, Some(item), cache).state == MetricState(Some(item), Calculate(env, k, item, cache).value)
  {
  }

  /** `update_score`, running the calculation's loops. */
  method UpdateScore(env: Env, k: MetricKind, st: MetricState, item: Option<Item>, cache: Cache) returns (r: Scored)
    ensures r == ScoreUpdate(env, k, st, item, cache)
  {
    if !Recalculates(env, k, st.item, item) {
      return Scored(st.(item := item), None);
    }
    var s := CalculateScore(env, k, item.value, cache);
    if s.Failure? {
      return Scored(st.(item := item), Some(s.error));
    }
    return Scored(MetricState(item, s.value), None);
  }
}
