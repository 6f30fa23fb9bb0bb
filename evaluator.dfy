/**
 * `SofaEvaluator` of `da2metric.py`: an ordered registry of metrics that
 * share one cache, each with the reconstruction phase it gates and the
 * metrics that may stand in for it. An update refreshes the cache metric by
 * metric and then the scores metric by metric; the reconstruction phase is
 * the first phase with a metric that is neither satisfied nor replaced by a
 * satisfied alternative.
 */
module Evaluator {
  import opened Wrappers
  import opened Analysis
  import opened Inference
  import opened Metrics

  /** `RECONSTRUCTION_PHASES` has four entries, so the last phase is 3. */
  const FinalPhase: nat := 3

  /** The metrics the evaluator registers on construction, in registration order. */
  const DefaultOrder: seq<MetricKind> := [
    GlobalCompleteness, ArgumentSize,
    ValidArgdown, PCStructure, NoPetitio, NoRedundancy, ConclMatchesReco, RecoCohSource,
    SomeReasons, SomeConjectures, ReasonsAligned, ConjecturesAligned, ReasConjCohReco,
    ConsistentUsage, CompleteFormalization, WellFormedKeys, WellFormedForm, FormCohReco,
    GlobalDeductiveValidity, LocalDeductiveValidity]

  /** The phase each metric is registered with; -1 for metrics that gate no phase. */
  function DefaultPhase(k: MetricKind): int
  {
    match k
    case GlobalCompleteness | ArgumentSize => -1
    case ValidArgdown | PCStructure | NoPetitio | NoRedundancy | ConclMatchesReco | RecoCohSource => 0
    case SomeReasons | SomeConjectures | ReasonsAligned | ConjecturesAligned | ReasConjCohReco => 1
    case _ => 2
  }

  /** Some reasons and some conjectures stand in for each other. */
  function DefaultAlternatives(k: MetricKind): seq<MetricKind>
  {
    if k == SomeReasons then [SomeConjectures]
    else if k == SomeConjectures then [SomeReasons]
    else []
  }

  predicate Distinct<T(==)>(s: seq<T>)
  {
    forall i, j :: 0 <= i < j < |s| ==> s[i] != s[j]
  }

  lemma DistinctSnoc<T>(s: seq<T>, x: T)
    requires Distinct(s) && x !in s
    ensures Distinct(s + [x])
  {
  }

  lemma ClassNameInjective(a: MetricKind, b: MetricKind)
    requires ClassName(a) == ClassName(b)
    ensures a == b
  {
  }

  lemma ClassNamesInjective()
    ensures forall a, b :: ClassName(a) == ClassName(b) ==> a == b
  {
    forall a, b | ClassName(a) == ClassName(b)
      ensures a == b
    {
      ClassNameInjective(a, b);
    }
  }

  lemma DefaultOrderDistinct()
    ensures Distinct(DefaultOrder)
  {
    forall i, j | 0 <= i < j < |DefaultOrder|
      ensures DefaultOrder[i] != DefaultOrder[j]
    {
      DefaultOrderIndex(i);
      DefaultOrderIndex(j);
    }
  }

  /** The position of each kind in the default order. */
  function DefaultIndex(k: MetricKind): nat
  {
    match k
    case GlobalCompleteness => 0 case ArgumentSize => 1
    case ValidArgdown => 2 case PCStructure => 3 case NoPetitio => 4 case NoRedundancy => 5
    case ConclMatchesReco => 6 case RecoCohSource => 7
    case SomeReasons => 8 case SomeConjectures => 9 case ReasonsAligned => 10 case ConjecturesAligned => 11
    case ReasConjCohReco => 12
    case ConsistentUsage => 13 case CompleteFormalization => 14 case WellFormedKeys => 15 case WellFormedForm => 16
    case FormCohReco => 17 case GlobalDeductiveValidity => 18 case LocalDeductiveValidity => 19
  }

  lemma DefaultOrderIndex(i: nat)
    requires i < |DefaultOrder|
    ensures DefaultIndex(DefaultOrder[i]) == i
  {
  }

  lemma EveryKindIsDefault(k: MetricKind)
    ensures k in DefaultOrder
  {
  }

  /** The kind among `kinds` whose class name is `name`. */
  function SearchName(kinds: seq<MetricKind>, name: string): (r: Option<MetricKind>)
    ensures r.Some? ==> ClassName(r.value) == name
    ensures r.None? ==> forall i :: 0 <= i < |kinds| ==> ClassName(kinds[i]) != name
  {
    if |kinds| == 0 then None
    else if ClassName(kinds[0]) == name then Some(kinds[0])
    else
      var r := SearchName(kinds[1..], name);
      assert forall i :: 1 <= i < |kinds| ==> kinds[i] == kinds[1..][i - 1];
      r
  }

  /** The metric class a name refers to, if any. */
  function KindNamed(name: string): (r: Option<MetricKind>)
    ensures r.Some? <==> exists k :: ClassName(k) == name
    ensures r.Some? ==> ClassName(r.value) == name
  {
    UnlistedNameIsNoKind(name);
    SearchName(DefaultOrder, name)
  }

  lemma UnlistedNameIsNoKind(name: string)
    ensures SearchName(DefaultOrder, name).None? ==> forall k :: ClassName(k) != name
  {
    forall k
      ensures SearchName(DefaultOrder, name).None? ==> ClassName(k) != name
    {
      EveryKindIsDefault(k);
    }
  }

  /** Each class name refers to its own kind. */
  lemma KindNamedClassName(k: MetricKind)
    ensures KindNamed(ClassName(k)) == Some(k)
  {
    ClassNameInjective(KindNamed(ClassName(k)).value, k);
  }

  // ---------------------------------------------------------------------
  // The two passes of `update`
  // ---------------------------------------------------------------------

  /** Every registered kind has a state. */
  predicate Covers(order: seq<MetricKind>, metrics: map<MetricKind, MetricState>)
  {
    forall k :: k in order ==> k in metrics
  }

  /**
   * The cache pass from the `k`-th registered metric on: each metric refreshes
   * the cache, given the item it saw last; an exception ends the pass.
   */
  function CacheFrom(env: Env, order: seq<MetricKind>, metrics: map<MetricKind, MetricState>, item: Option<Item>,
                     k: nat, cache: Cache, updated: seq<CacheKey>): Refreshed
    requires k <= |order| && Covers(order, metrics)
    decreases |order| - k
  {
    if k == |order| then Refreshed(cache, updated, None)
    else
      var r := RefreshFor(env, order[k], metrics[order[k]].item, item, cache, updated);
      if r.fault.Some? then r else CacheFrom(env, order, metrics, item, k + 1, r.cache, r.updated)
  }

  /**
   * The score pass from the `k`-th registered metric on: each metric updates
   * its score; an exception ends the pass after the failing metric has taken
   * the new item.
   */
  function ScoreFrom(env: Env, order: seq<MetricKind>, item: Option<Item>, cache: Cache,
                     k: nat, metrics: map<MetricKind, MetricState>): (map<MetricKind, MetricState>, Option<Fault>)
    requires k <= |order| && Covers(order, metrics)
    decreases |order| - k
  {
    if k == |order| then (metrics, None)
    else
      var s := ScoreUpdate(env, order[k], metrics[order[k]], item, cache);
      var next := metrics[order[k] := s.state];
      if s.fault.Some? then (next, s.fault) else ScoreFrom(env, order, item, cache, k + 1, next)
  }

  /** The score pass only replaces states: the registered kinds stay the same. */
  lemma {:induction false} ScoreFromKeys(env: Env, order: seq<MetricKind>, item: Option<Item>, cache: Cache,
                                         k: nat, metrics: map<MetricKind, MetricState>)
    requires k <= |order| && Covers(order, metrics)
    ensures ScoreFrom(env, order, item, cache, k, metrics).0.Keys == metrics.Keys
    decreases |order| - k
  {
    if k < |order| {
      var s := ScoreUpdate(env, order[k], metrics[order[k]], item, cache);
      ScoreFromKeys(env, order, item, cache, k + 1, metrics[order[k] := s.state]);
    }
  }

  /** Without a pipeline the coherence of reconstruction and source is never scored. */
  lemma {:induction false} ScoreFromWithoutInference(env: Env, order: seq<MetricKind>, item: Option<Item>, cache: Cache,
                                                     k: nat, metrics: map<MetricKind, MetricState>)
    requires k <= |order| && Covers(order, metrics)
    requires env.inference.None? && RecoCohSource in metrics && metrics[RecoCohSource].score.None?
    ensures var m := ScoreFrom(env, order, item, cache, k, metrics).0;
      RecoCohSource in m && m[RecoCohSource].score.None?
    decreases |order| - k
  {
    if k < |order| {
      var s := ScoreUpdate(env, order[k], metrics[order[k]], item, cache);
      ScoreFromWithoutInference(env, order, item, cache, k + 1, metrics[order[k] := s.state]);
    }
  }

  /** The cache pass, metric by metric. */
  method CachePass(env: Env, order: seq<MetricKind>, metrics: map<MetricKind, MetricState>, item: Option<Item>, cache: Cache)
    returns (r: Refreshed)
    requires Covers(order, metrics)
    ensures r == CacheFrom(env, order, metrics, item, 0, cache, [])
  {
    var c, updated := cache, [];
    for i := 0 to |order|
      invariant CacheFrom(env, order, metrics, item, 0, cache, []) == CacheFrom(env, order, metrics, item, i, c, updated)
    {
      var step := RefreshFor(env, order[i], metrics[order[i]].item, item, c, updated);
      if step.fault.Some? {
        return step;
      }
      c, updated := step.cache, step.updated;
    }
    return Refreshed(c, updated, None);
  }

  /** The score pass, metric by metric. */
  method ScorePass(env: Env, order: seq<MetricKind>, item: Option<Item>, cache: Cache, metrics: map<MetricKind, MetricState>)
    returns (m: map<MetricKind, MetricState>, fault: Option<Fault>)
    requires Covers(order, metrics)
    ensures (m, fault) == ScoreFrom(env, order, item, cache, 0, metrics)
  {
    m := metrics;
    for i := 0 to |order|
      invariant Covers(order, m)
      invariant ScoreFrom(env, order, item, cache, 0, metrics) == ScoreFrom(env, order, item, cache, i, m)
    {
      var s := UpdateScore(env, order[i], m[order[i]], item, cache);
      m := m[order[i] := s.state];
      if s.fault.Some? {
        return m, s.fault;
      }
    }
    return m, None;
  }

  /** The keys refreshed in one update: the parsed artefacts at most once each. */
  predicate ParsedOnce(updated: seq<CacheKey>)
  {
    forall key :: key != DefaultReconstruction ==> multiset(updated)[key] <= 1
  }

  /**
   * What holds of the cache during one update: each parsed artefact has been
   * refreshed at most once, and a refreshed reconstruction parse is the parse
   * of the new item's reconstruction.
   */
  predicate ParseInvariant(env: Env, item: Option<Item>, cache: Cache, updated: seq<CacheKey>)
  {
    ParsedOnce(updated) &&
    (ParsedArgdown in updated ==> item.Some? && cache.parsedArgdown == Some(ParsedReconstruction(env, item.value)))
  }

  /** A refresh step keeps the invariant, forgets no refreshed key, and leaves an unrefreshed parse alone. */
  predicate ParseStep(env: Env, item: Option<Item>, cache: Cache, updated: seq<CacheKey>, r: Refreshed)
  {
    ParseInvariant(env, item, r.cache, r.updated) &&
    (forall key :: key in updated ==> key in r.updated) &&
    (ParsedArgdown !in r.updated ==> r.cache.parsedArgdown == cache.parsedArgdown)
  }

  lemma FormEntryStep(env: Env, key: CacheKey, prev: Option<Item>, item: Option<Item>, cache: Cache, updated: seq<CacheKey>)
    requires key in {ParsedP, ParsedIc, ParsedC} && ParseInvariant(env, item, cache, updated)
    ensures var r := RefreshFormEntry(env, key, prev, item, cache, updated);
      ParseStep(env, item, cache, updated, r) && r.cache.parsedArgdown == cache.parsedArgdown &&
      (ParsedArgdown in r.updated <==> ParsedArgdown in updated)
  {
    var r := RefreshFormEntry(env, key, prev, item, cache, updated);
    if r.updated != updated {
      assert r.updated == updated + [key];
      assert multiset(r.updated) == multiset(updated) + multiset{key};
    }
  }

  lemma FormalizationsStep(env: Env, prev: Option<Item>, item: Option<Item>, cache: Cache, updated: seq<CacheKey>)
    requires ParseInvariant(env, item, cache, updated)
    ensures var r := RefreshFormalizations(env, prev, item, cache, updated);
      ParseStep(env, item, cache, updated, r) && r.cache.parsedArgdown == cache.parsedArgdown &&
      (ParsedArgdown in r.updated <==> ParsedArgdown in updated)
  {
    FormEntryStep(env, ParsedP, prev, item, cache, updated);
    var p := RefreshFormEntry(env, ParsedP, prev, item, cache, updated);
    if p.fault.None? {
      FormEntryStep(env, ParsedIc, prev, item, p.cache, p.updated);
      var i := RefreshFormEntry(env, ParsedIc, prev, item, p.cache, p.updated);
      if i.fault.None? {
        FormEntryStep(env, ParsedC, prev, item, i.cache, i.updated);
      }
    }
  }

  lemma ArgdownStep(env: Env, prev: Option<Item>, item: Option<Item>, cache: Cache, updated: seq<CacheKey>)
    requires ParseInvariant(env, item, cache, updated)
    ensures var r := RefreshArgdown(env, prev, item, cache, updated);
      ParseStep(env, item, cache, updated, r) && (ParsedArgdown in updated ==> ParsedArgdown in r.updated)
  {
    var r := RefreshArgdown(env, prev, item, cache, updated);
    if r.updated != updated {
      assert multiset(r.updated) == multiset(updated) + multiset{ParsedArgdown};
    }
  }

  lemma DefaultReconstructionStep(env: Env, prev: Option<Item>, item: Option<Item>, cache: Cache, updated: seq<CacheKey>)
    requires ParseInvariant(env, item, cache, updated)
    ensures var r := RefreshDefaultReconstruction(env, prev, item, cache, updated);
      ParseStep(env, item, cache, updated, r) && r.cache.parsedArgdown == cache.parsedArgdown &&
      (ParsedArgdown in r.updated <==> ParsedArgdown in updated)
  {
    var r := RefreshDefaultReconstruction(env, prev, item, cache, updated);
    if r.updated != updated {
      assert r.updated == updated + [DefaultReconstruction];
      assert multiset(r.updated) == multiset(updated) + multiset{DefaultReconstruction};
    }
  }

  /** One metric's refresh keeps the parse invariant. */
  lemma RefreshStep(env: Env, k: MetricKind, prev: Option<Item>, item: Option<Item>, cache: Cache, updated: seq<CacheKey>)
    requires ParseInvariant(env, item, cache, updated)
    ensures ParseStep(env, item, cache, updated, RefreshFor(env, k, prev, item, cache, updated))
  {
    if k == LocalDeductiveValidity {
      FormalizationsStep(env, prev, item, cache, updated);
      var f := RefreshFormalizations(env, prev, item, cache, updated);
      if f.fault.None? {
        ArgdownStep(env, prev, item, f.cache, f.updated);
      }
    } else if RefreshesFormalizations(k) {
      FormalizationsStep(env, prev, item, cache, updated);
    } else if k == RecoCohSource {
      ArgdownStep(env, prev, item, cache, updated);
      var a := RefreshArgdown(env, prev, item, cache, updated);
      if a.fault.None? {
        DefaultReconstructionStep(env, prev, item, a.cache, a.updated);
      }
    } else if RefreshesArgdown(k) {
      ArgdownStep(env, prev, item, cache, updated);
    }
  }

  /**
   * During one cache pass each parsed artefact is parsed at most once, and the
   * reconstruction's parse is either left alone or the parse of the new
   * item's reconstruction.
   */
  lemma {:induction false} CacheFromParsesOnce(env: Env, order: seq<MetricKind>, metrics: map<MetricKind, MetricState>,
                                               item: Option<Item>, k: nat, cache: Cache, updated: seq<CacheKey>)
    requires k <= |order| && Covers(order, metrics) && ParseInvariant(env, item, cache, updated)
    ensures var r := CacheFrom(env, order, metrics, item, k, cache, updated);
      ParseInvariant(env, item, r.cache, r.updated) &&
      (ParsedArgdown !in r.updated ==> r.cache.parsedArgdown == cache.parsedArgdown)
    decreases |order| - k
  {
    if k < |order| {
      RefreshStep(env, order[k], metrics[order[k]].item, item, cache, updated);
      var r := RefreshFor(env, order[k], metrics[order[k]].item, item, cache, updated);
      if r.fault.None? {
        CacheFromParsesOnce(env, order, metrics, item, k + 1, r.cache, r.updated);
        var last := CacheFrom(env, order, metrics, item, k + 1, r.cache, r.updated);
        if ParsedArgdown !in last.updated {
          CacheFromExtends(env, order, metrics, item, k + 1, r.cache, r.updated);
          assert ParsedArgdown !in r.updated;
        }
      }
    }
  }

  /** A cache pass only appends refreshed keys. */
  lemma {:induction false} CacheFromExtends(env: Env, order: seq<MetricKind>, metrics: map<MetricKind, MetricState>,
                                            item: Option<Item>, k: nat, cache: Cache, updated: seq<CacheKey>)
    requires k <= |order| && Covers(order, metrics) && ParseInvariant(env, item, cache, updated)
    ensures var r := CacheFrom(env, order, metrics, item, k, cache, updated);
      forall key :: key in updated ==> key in r.updated
    decreases |order| - k
  {
    if k < |order| {
      RefreshStep(env, order[k], metrics[order[k]].item, item, cache, updated);
      var r := RefreshFor(env, order[k], metrics[order[k]].item, item, cache, updated);
      if r.fault.None? {
        CacheFromExtends(env, order, metrics, item, k + 1, r.cache, r.updated);
      }
    }
  }

  /**
   * The reconstruction is not parsed again when it did not change: every
   * metric still to refresh has seen an item with the same reconstruction,
   * and the cache holds a parse.
   */
  lemma {:induction false} CacheFromKeepsParse(env: Env, order: seq<MetricKind>, metrics: map<MetricKind, MetricState>,
                                               item: Item, k: nat, cache: Cache, updated: seq<CacheKey>)
    requires k <= |order| && Covers(order, metrics)
    requires cache.parsedArgdown.Some? && ParsedArgdown !in updated
    requires forall j :: k <= j < |order| ==>
      metrics[order[j]].item.Some? && metrics[order[j]].item.value.argdownReconstruction == item.argdownReconstruction
    ensures var r := CacheFrom(env, order, metrics, Some(item), k, cache, updated);
      ParsedArgdown !in r.updated && r.cache.parsedArgdown == cache.parsedArgdown
    decreases |order| - k
  {
    if k < |order| {
      var prev := metrics[order[k]].item;
      KeepsParseStep(env, order[k], prev, item, cache, updated);
      var r := RefreshFor(env, order[k], prev, Some(item), cache, updated);
      if r.fault.None? {
        CacheFromKeepsParse(env, order, metrics, item, k + 1, r.cache, r.updated);
      }
    }
  }

  /** Re-parsing one formalization list touches neither the reconstruction's parse nor its key. */
  lemma FormEntryKeepsParse(env: Env, key: CacheKey, prev: Option<Item>, item: Option<Item>, cache: Cache, updated: seq<CacheKey>)
    requires key in {ParsedP, ParsedIc, ParsedC}
    ensures var r := RefreshFormEntry(env, key, prev, item, cache, updated);
      r.cache.parsedArgdown == cache.parsedArgdown && (ParsedArgdown in r.updated <==> ParsedArgdown in updated)
  {
    var r := RefreshFormEntry(env, key, prev, item, cache, updated);
    if r.updated != updated {
      assert r.updated == updated + [key];
    }
  }

  /** Re-parsing the formalizations touches neither the reconstruction's parse nor its key. */
  lemma FormalizationsKeepParse(env: Env, prev: Option<Item>, item: Option<Item>, cache: Cache, updated: seq<CacheKey>)
    ensures var r := RefreshFormalizations(env, prev, item, cache, updated);
      r.cache.parsedArgdown == cache.parsedArgdown && (ParsedArgdown in r.updated <==> ParsedArgdown in updated)
  {
    FormEntryKeepsParse(env, ParsedP, prev, item, cache, updated);
    var p := RefreshFormEntry(env, ParsedP, prev, item, cache, updated);
    if p.fault.None? {
      FormEntryKeepsParse(env, ParsedIc, prev, item, p.cache, p.updated);
      var i := RefreshFormEntry(env, ParsedIc, prev, item, p.cache, p.updated);
      if i.fault.None? {
        FormEntryKeepsParse(env, ParsedC, prev, item, i.cache, i.updated);
      }
    }
  }

  /** With a parse in the cache and the reconstruction unchanged, the reconstruction is not parsed again. */
  lemma ArgdownKeepsParse(env: Env, prev: Option<Item>, item: Item, cache: Cache, updated: seq<CacheKey>)
    requires cache.parsedArgdown.Some? && ParsedArgdown !in updated
    requires prev.Some? && prev.value.argdownReconstruction == item.argdownReconstruction
    ensures RefreshArgdown(env, prev, Some(item), cache, updated) == Refreshed(cache, updated, None)
  {
  }

  lemma KeepsParseStep(env: Env, k: MetricKind, prev: Option<Item>, item: Item, cache: Cache, updated: seq<CacheKey>)
    requires cache.parsedArgdown.Some? && ParsedArgdown !in updated
    requires prev.Some? && prev.value.argdownReconstruction == item.argdownReconstruction
    ensures var r := RefreshFor(env, k, prev, Some(item), cache, updated);
      ParsedArgdown !in r.updated && r.cache.parsedArgdown == cache.parsedArgdown
  {
    if k == LocalDeductiveValidity {
      FormalizationsKeepParse(env, prev, Some(item), cache, updated);
      var f := RefreshFormalizations(env, prev, Some(item), cache, updated);
      if f.fault.None? {
        ArgdownKeepsParse(env, prev, item, f.cache, f.updated);
      }
    } else if RefreshesFormalizations(k) {
      FormalizationsKeepParse(env, prev, Some(item), cache, updated);
    } else if k == RecoCohSource {
      ArgdownKeepsParse(env, prev, item, cache, updated);
      var d := RefreshDefaultReconstruction(env, prev, Some(item), cache, updated);
      if d.updated != updated {
        assert d.updated == updated + [DefaultReconstruction];
      }
    } else if RefreshesArgdown(k) {
      ArgdownKeepsParse(env, prev, item, cache, updated);
    }
  }

  // ---------------------------------------------------------------------
  // The phase gate
  // ---------------------------------------------------------------------

  /** Some of the alternatives is registered and satisfied. */
  predicate AlternativeSatisfied(metrics: map<MetricKind, MetricState>, alts: seq<MetricKind>)
  {
    exists i :: 0 <= i < |alts| && alts[i] in metrics && Satisfied(alts[i], metrics[alts[i]].score)
  }

  /** The metric holds the analysis at phase `p`: it gates `p`, is not satisfied, and no alternative of it is. */
  predicate Blocks(metrics: map<MetricKind, MetricState>, phaseOf: map<MetricKind, int>,
                   alternatives: map<MetricKind, seq<MetricKind>>, k: MetricKind, p: int)
  {
    k in metrics && k in phaseOf && phaseOf[k] == p && !Satisfied(k, metrics[k].score) &&
    (k !in alternatives || !AlternativeSatisfied(metrics, alternatives[k]))
  }

  /** Some registered metric holds the analysis at phase `p`. */
  predicate Blocked(order: seq<MetricKind>, metrics: map<MetricKind, MetricState>, phaseOf: map<MetricKind, int>,
                    alternatives: map<MetricKind, seq<MetricKind>>, p: int)
  {
    exists i :: 0 <= i < |order| && Blocks(metrics, phaseOf, alternatives, order[i], p)
  }

  /** `reconstruction_phase`, searching from phase `p`: the first blocked phase, or the final one. */
  function PhaseFrom(order: seq<MetricKind>, metrics: map<MetricKind, MetricState>, phaseOf: map<MetricKind, int>,
                     alternatives: map<MetricKind, seq<MetricKind>>, p: nat): nat
    requires p <= FinalPhase
    decreases FinalPhase - p
  {
    if p == FinalPhase || Blocked(order, metrics, phaseOf, alternatives, p) then p
    else PhaseFrom(order, metrics, phaseOf, alternatives, p + 1)
  }

  /** The phase is the first blocked phase below the final one, every earlier phase being clear. */
  lemma {:induction false} PhaseFromIsFirstBlocked(order: seq<MetricKind>, metrics: map<MetricKind, MetricState>,
                                                   phaseOf: map<MetricKind, int>, alternatives: map<MetricKind, seq<MetricKind>>,
                                                   p: nat, q: nat)
    requires p <= q <= FinalPhase
    requires forall r :: p <= r < q ==> !Blocked(order, metrics, phaseOf, alternatives, r)
    requires q == FinalPhase || Blocked(order, metrics, phaseOf, alternatives, q)
    ensures PhaseFrom(order, metrics, phaseOf, alternatives, p) == q
    decreases q - p
  {
    if p < q {
      PhaseFromIsFirstBlocked(order, metrics, phaseOf, alternatives, p + 1, q);
    }
  }

  // ---------------------------------------------------------------------
  // Aggregates
  // ---------------------------------------------------------------------

  function Sum(xs: seq<real>): real
  {
    if |xs| == 0 then 0.0 else xs[0] + Sum(xs[1..])
  }

  lemma {:induction false} SumBounds(xs: seq<real>)
    requires forall i :: 0 <= i < |xs| ==> 0.0 <= xs[i] <= 1.0
    ensures 0.0 <= Sum(xs) <= |xs| as real
  {
    if |xs| > 0 {
      SumBounds(xs[1..]);
    }
  }

  /** The mean of the values, 0 for none. */
  function Mean(xs: seq<real>): real
  {
    if |xs| == 0 then 0.0 else Sum(xs) / |xs| as real
  }

  /** The mean of values in [0, 1] lies in [0, 1]. */
  lemma MeanRange(xs: seq<real>)
    requires forall i :: 0 <= i < |xs| ==> 0.0 <= xs[i] <= 1.0
    ensures 0.0 <= Mean(xs) <= 1.0
  {
    SumBounds(xs);
    if |xs| > 0 {
      assert Mean(xs) * |xs| as real == Sum(xs);
    }
  }

  /** The defined scores of the registered metrics that gate one of the phases, in registration order. */
  function GatingScores(order: seq<MetricKind>, metrics: map<MetricKind, MetricState>, phaseOf: map<MetricKind, int>,
                        phases: set<int>): (r: seq<real>)
    requires Covers(order, metrics)
    ensures forall i :: 0 <= i < |r| ==> exists j :: 0 <= j < |order| && metrics[order[j]].score == Some(r[i])
  {
    if |order| == 0 then []
    else
      var k := order[0];
      var rest := GatingScores(order[1..], metrics, phaseOf, phases);
      assert forall j :: 1 <= j < |order| ==> order[j] == order[1..][j - 1];
      var head := if k in phaseOf && phaseOf[k] in phases && metrics[k].score.Some? then [metrics[k].score.value] else [];
      assert forall i :: 0 <= i < |head| ==> metrics[order[0]].score == Some(head[i]);
      head + rest
  }

  /** The larger of two scores. */
  function Max(a: real, b: real): real
  {
    if a >= b then a else b
  }

  /** A score with `None` read as 0. */
  function OrZero(s: Score): real
  {
    if s.None? then 0.0 else s.value
  }

  /** Scores in [0, 1] or undefined. */
  predicate UnitScore(s: Score)
  {
    s.None? || 0.0 <= s.value <= 1.0
  }

  /** `depth`: the mean of the quote count, the argument size and the alignment, each the better of its two. */
  function DepthOf(srs: Score, scs: Score, ass: Score, ras: Score, cas: Score): real
  {
    (Max(OrZero(srs), OrZero(scs)) + OrZero(ass) + Max(OrZero(ras), OrZero(cas))) / 3.0
  }

  /** Depth lies in [0, 1] when its five scores do. */
  lemma DepthRange(srs: Score, scs: Score, ass: Score, ras: Score, cas: Score)
    requires UnitScore(srs) && UnitScore(scs) && UnitScore(ass) && UnitScore(ras) && UnitScore(cas)
    ensures 0.0 <= DepthOf(srs, scs, ass, ras, cas) <= 1.0
  {
  }

  // ---------------------------------------------------------------------
  // The evaluator
  // ---------------------------------------------------------------------

  class SofaEvaluator {
    /** The collaborators, the language-model pipeline (if any) and the angle map. */
    const env: Env
    /** The cache shared by the metrics. */
    var cache: Cache
    /** The registered metrics in registration order (the order of the registry dict). */
    var order: seq<MetricKind>
    /** The registry: each registered metric's state. */
    var metrics: map<MetricKind, MetricState>
    /** `_metric_phase`. */
    var phaseOf: map<MetricKind, int>
    /** `_alternative_metrics`. */
    var alternatives: map<MetricKind, seq<MetricKind>>

    ghost predicate Valid()
      reads this
    {
      Distinct(order) &&
      (forall k :: k in metrics <==> k in order) &&
      (forall k :: k in phaseOf <==> k in order) &&
      (forall k :: k in alternatives ==> k in order && |alternatives[k]| > 0) &&
      (env.inference.None? && RecoCohSource in metrics ==> metrics[RecoCohSource].score.None?)
    }

    /** The registry `__init__` builds: the twenty metrics, each with its default phase and alternatives, nothing scored. */
    constructor(ext: Externals, inference: Option<Pipeline>, angles: seq<Angle>)
      ensures Valid()
      ensures env == Env(ext, inference, angles) && cache == EmptyCache
      ensures order == DefaultOrder
      ensures forall k :: k in metrics ==> metrics[k] == Fresh
      ensures forall k :: k in phaseOf ==> phaseOf[k] == DefaultPhase(k)
      ensures alternatives == map[SomeReasons := [SomeConjectures], SomeConjectures := [SomeReasons]]
    {
      env := Env(ext, inference, angles);
      cache := EmptyCache;
      order := DefaultOrder;
      metrics := map k | k in DefaultOrder :: Fresh;
      phaseOf := map k | k in DefaultOrder :: DefaultPhase(k);
      alternatives := map[SomeReasons := [SomeConjectures], SomeConjectures := [SomeReasons]];
      DefaultOrderDistinct();
      assert DefaultOrder[8] == SomeReasons && DefaultOrder[9] == SomeConjectures;
    }

    /** A deep copy: the same registry, scores and cache. */
    constructor Copy(other: SofaEvaluator)
      ensures env == other.env && cache == other.cache && order == other.order && metrics == other.metrics
      ensures phaseOf == other.phaseOf && alternatives == other.alternatives
      ensures other.Valid() ==> Valid()
    {
      env := other.env;
      cache := other.cache;
      order := other.order;
      metrics := other.metrics;
      phaseOf := other.phaseOf;
      alternatives := other.alternatives;
    }

    /**
     * `register_metric`: a fresh, unscored metric under its class name (a
     * metric registered again keeps its place in the order), its phase, and
     * its alternatives when there are any.
     */
    method RegisterMetric(k: MetricKind, phase: int, alts: seq<MetricKind>)
      requires Valid()
      modifies this
      ensures Valid()
      ensures order == if k in old(order) then old(order) else old(order) + [k]
      ensures metrics == old(metrics)[k := Fresh]
      ensures phaseOf == old(phaseOf)[k := phase]
      ensures alternatives == if |alts| == 0 then old(alternatives) else old(alternatives)[k := alts]
      ensures cache == old(cache)
    {
      var o := order;
      if k !in o {
        DistinctSnoc(o, k);
        o := o + [k];
      }
      var a := alternatives;
      if |alts| > 0 {
        a := a[k := alts];
      }
      order, metrics, phaseOf, alternatives := o, metrics[k := Fresh], phaseOf[k := phase], a;
    }

    /**
     * `update`: the cache pass over the registered metrics, then, unless it
     * raised, the score pass; the exception that ended either pass is returned.
     */
    method Update(item: Option<Item>) returns (fault: Option<Fault>)
      requires Valid()
      modifies this
      ensures Valid()
      ensures order == old(order) && phaseOf == old(phaseOf) && alternatives == old(alternatives)
      ensures var c := CacheFrom(env, old(order), old(metrics), item, 0, old(cache), []);
        cache == c.cache &&
        (c.fault.Some? ==> metrics == old(metrics) && fault == c.fault) &&
        (c.fault.None? ==> (metrics, fault) == ScoreFrom(env, order, item, c.cache, 0, old(metrics)))
    {
      var c := CachePass(env, order, metrics, item, cache);
      cache := c.cache;
      if c.fault.Some? {
        return c.fault;
      }
      ScoreFromKeys(env, order, item, cache, 0, metrics);
      if env.inference.None? && RecoCohSource in metrics {
        ScoreFromWithoutInference(env, order, item, cache, 0, metrics);
      }
      metrics, fault := ScorePass(env, order, item, cache, metrics);
    }

    /** `reconstruction_phase`, as a function of the registry. */
    ghost function Phase(): nat
      reads this
    {
      PhaseFrom(order, metrics, phaseOf, alternatives, 0)
    }

    /** `reconstruction_phase`: phase by phase, metric by metric, the first metric that holds the analysis. */
    method ReconstructionPhase() returns (p: nat)
      requires Valid()
      ensures p == Phase()
      ensures p <= FinalPhase
    {
      p := 0;
      while p < FinalPhase
        invariant 0 <= p <= FinalPhase
        invariant forall q :: 0 <= q < p ==> !Blocked(order, metrics, phaseOf, alternatives, q)
      {
        for i := 0 to |order|
          invariant forall j :: 0 <= j < i ==> !Blocks(metrics, phaseOf, alternatives, order[j], p)
        {
          var k := order[i];
          if phaseOf[k] == p && !Satisfied(k, metrics[k].score) {
            if k !in alternatives || !AlternativeSatisfied(metrics, alternatives[k]) {
              assert Blocks(metrics, phaseOf, alternatives, order[i], p);
              PhaseFromIsFirstBlocked(order, metrics, phaseOf, alternatives, 0, p);
              return p;
            }
          }
        }
        p := p + 1;
      }
      PhaseFromIsFirstBlocked(order, metrics, phaseOf, alternatives, 0, FinalPhase);
    }

    /** `individual_score`: the score of the metric registered under the name, `None` for an unregistered one. */
    function IndividualScore(name: string): (r: Score)
      reads this
      ensures forall k :: ClassName(k) == name ==> r == (if k in metrics then metrics[k].score else None)
      ensures (forall k :: ClassName(k) != name) ==> r.None?
    {
      ClassNamesInjective();
      match KindNamed(name)
      case None => None
      case Some(k) => if k in metrics then metrics[k].score else None
    }

    /** `all_scores`: the scores of the metrics in the phases (of all metrics for no phases), by class name. */
    function AllScores(phases: set<int>): (r: map<string, Score>)
      reads this
      requires Valid()
      ensures forall k :: k in metrics && (phases == {} || phaseOf[k] in phases) ==> ClassName(k) in r && r[ClassName(k)] == metrics[k].score
      ensures forall name :: name in r ==> exists k :: k in metrics && ClassName(k) == name && (phases == {} || phaseOf[k] in phases)
    {
      ClassNamesInjective();
      map k | k in metrics && (phases == {} || phaseOf[k] in phases) :: ClassName(k) := metrics[k].score
    }

    /** `completeness`: the global completeness score, 0 when undefined. */
    function Completeness(): real
      reads this
    {
      OrZero(IndividualScore(ClassName(GlobalCompleteness)))
    }

    /** `correctness`: the mean of the defined scores of the metrics in phases 0 to 3, or 0. */
    function Correctness(): real
      reads this
      requires Valid()
    {
      Mean(GatingScores(order, metrics, phaseOf, {0, 1, 2, 3}))
    }

    /** `depth`. */
    function Depth(): real
      reads this
    {
      DepthOf(IndividualScore(ClassName(SomeReasons)), IndividualScore(ClassName(SomeConjectures)),
              IndividualScore(ClassName(ArgumentSize)),
              IndividualScore(ClassName(ReasonsAligned)), IndividualScore(ClassName(ConjecturesAligned)))
    }

    /** `from_cache("parsed_argdown")`: the cached parse, `None` when absent or unparsable. */
    function ParsedArgdownFromCache(): Option<Argument>
      reads this
    {
      LayoutArgument(cache)
    }

    /** `as_dict`. */
    ghost function AsDict(): map<string, real>
      reads this
      requires Valid()
    {
      Dict(AllScores({}), Completeness(), Correctness(), Depth(), Phase())
    }
  }

  /** `as_dict` of the scores and aggregates: every defined score, then the four aggregates under their own keys. */
  function Dict(scores: map<string, Score>, completeness: real, correctness: real, depth: real, phase: nat): (r: map<string, real>)
    ensures forall name :: name in scores && scores[name].Some? && name !in AggregateNames ==>
      name in r && r[name] == scores[name].value
    ensures forall name :: name in r && name !in AggregateNames ==> name in scores && scores[name] == Some(r[name])
    ensures "completeness" in r && r["completeness"] == completeness
    ensures "correctness" in r && r["correctness"] == correctness
    ensures "depth" in r && r["depth"] == depth
    ensures "reconstruction_phase" in r && r["reconstruction_phase"] == phase as real
  {
    var defined := map name | name in scores && scores[name].Some? :: scores[name].value;
    defined["completeness" := completeness]["correctness" := correctness]["depth" := depth]
           ["reconstruction_phase" := phase as real]
  }

  /** The keys `as_dict` adds to the scores. */
  const AggregateNames: set<string> := {"completeness", "correctness", "depth", "reconstruction_phase"}

  /**
   * Without a language-model pipeline the coherence of reconstruction and
   * source text stays unscored; as long as that metric gates phase 0 with no
   * alternative, the evaluator reports phase 0 whatever the item.
   */
  lemma NoInferenceMeansPhaseZero(e: SofaEvaluator)
    requires e.Valid() && e.env.inference.None?
    requires RecoCohSource in e.metrics && e.phaseOf[RecoCohSource] == 0 && RecoCohSource !in e.alternatives
    ensures e.Phase() == 0
  {
    var i :| 0 <= i < |e.order| && e.order[i] == RecoCohSource;
    assert Blocks(e.metrics, e.phaseOf, e.alternatives, e.order[i], 0);
  }

  /** Correctness is a mean of scores in [0, 1] whenever every gating score lies there. */
  lemma CorrectnessRange(e: SofaEvaluator)
    requires e.Valid()
    requires forall k :: k in e.metrics ==> UnitScore(e.metrics[k].score)
    ensures 0.0 <= e.Correctness() <= 1.0
  {
    var xs := GatingScores(e.order, e.metrics, e.phaseOf, {0, 1, 2, 3});
    forall i | 0 <= i < |xs|
      ensures 0.0 <= xs[i] <= 1.0
    {
      var j :| 0 <= j < |e.order| && e.metrics[e.order[j]].score == Some(xs[i]);
      assert UnitScore(e.metrics[e.order[j]].score);
    }
    MeanRange(xs);
  }
}
