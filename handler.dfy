/**
 * `AbstractUserInputHandler` of `handler.py`, with the handlers of the four
 * reconstruction phases: a chain of responsibility. The first handler of the
 * chain that is responsible for the incoming snapshot applies the user's
 * input to a copy of the item, re-evaluates a copy of the metrics, and
 * returns a revision of the snapshot with its feedback and the options for
 * the next input; a handler that is not responsible passes the request on,
 * and the end of the chain answers `None`.
 */
module Handlers {
  import opened Wrappers
  import opened Analysis
  import opened Inference
  import opened Metrics
  import opened InputOptions
  import opened Evaluator
  import opened Views
  import opened State
  import PhaseZero
  import PhaseOne
  import PhaseTwo
  import PhaseThree

  /** Python's default recursion limit: the depth at which a chain of delegations raises `RecursionError`. */
  const RecursionLimit: nat := 1000

  /** The concrete handlers, phase by phase. */
  datatype Kind = Zero(zero: PhaseZero.Kind) | One(one: PhaseOne.Kind) | Two(two: PhaseTwo.Kind) | Three

  /** The reconstruction phase a handler serves. */
  function PhaseOf(kind: Kind): nat
  {
    match kind
    case Zero(_) => 0
    case One(_) => 1
    case Two(_) => 2
    case Three => 3
  }

  /** `is_responsible` of each handler, read on the incoming snapshot. */
  predicate Responsible(kind: Kind, v: Incoming)
  {
    match kind
    case Zero(k) => PhaseZero.Responsible(k, v)
    case One(k) => PhaseOne.Responsible(k, v)
    case Two(k) => PhaseTwo.Responsible(k, v)
    case Three => PhaseThree.Responsible(v)
  }

  /** The catch-all handler of a phase. */
  function CatchAllOf(phase: nat): (kind: Kind)
    requires phase <= FinalPhase
    ensures PhaseOf(kind) == phase
  {
    if phase == 0 then Zero(PhaseZero.CatchAll)
    else if phase == 1 then One(PhaseOne.CatchAll)
    else if phase == 2 then Two(PhaseTwo.CatchAll)
    else Three
  }

  /** A handler answers only in its own phase, and each phase's catch-all answers every analysis in that phase. */
  lemma ResponsibleInItsPhase(kind: Kind, v: Incoming)
    ensures Responsible(kind, v) ==> v.phase == PhaseOf(kind)
    ensures v.phase <= FinalPhase ==> Responsible(CatchAllOf(v.phase), v)
  {
    if v.phase <= FinalPhase && v.phase == 0 {
      PhaseZero.ResponsibleInPhaseZero(PhaseZero.CatchAll, v);
    }
  }

  /** `get_feedback` of each handler, on the revised analysis. */
  function Feedback(kind: Kind, rev: Revised): string
  {
    match kind
    case Zero(k) => PhaseZero.Feedback(k)
    case One(k) => PhaseOne.Feedback(k)
    case Two(k) => PhaseTwo.Feedback(k, rev)
    case Three => PhaseThree.Feedback
  }

  /** The handlers that ask the language model or the parser, and so may raise. */
  predicate Consults(kind: Kind)
  {
    kind in {Zero(PhaseZero.MismatchCA), Zero(PhaseZero.CatchAll), One(PhaseOne.NoRJ), One(PhaseOne.CatchAll), Two(PhaseTwo.CatchAll)}
  }

  /**
   * `get_input_options` of each handler, on the revised analysis. Phase 2's
   * `NoConsUsg` offers the reconstruction alone, `IllfForm` the conjectures
   * and the reconstruction as phase 1's `JNotAlgn` does, and its catch-all
   * the same options as phase 1's.
   */
  function Options(kind: Kind, tools: Tools, gen: Generator, rev: Revised): Result<seq<InputOption>, Fault>
  {
    match kind
    case Zero(k) => PhaseZero.Options(k, tools, gen, rev)
    case One(k) =>
      if k.NoRJ? then PhaseOne.QuoteRounds(tools, gen, rev, PhaseOne.QuoteRoundsOrder, None)
      else if k.RNotAlgn? then Success(PhaseOne.AlignmentOptions(tools, rev, Reasons))
      else if k.JNotAlgn? then Success(PhaseOne.AlignmentOptions(tools, rev, Conjectures))
      else PhaseOne.CatchAllOptions(tools, gen, rev)
    case Two(k) =>
      if k.NoConsUsg? then Success(PhaseZero.ReconstructionOption(tools, rev))
      else if k.NoCompleteForm? then Success(PhaseTwo.FormOptions(tools.ext.layout, rev.item))
      else if k.IllfForm? then Success(PhaseOne.AlignmentOptions(tools, rev, Conjectures))
      else PhaseOne.CatchAllOptions(tools, gen, rev)
    case Three => Success(PhaseThree.CatchAllOptions(tools, rev))
  }

  /** The options of a handler, built by the loops of the handlers that have them. */
  method BuildOptions(kind: Kind, tools: Tools, gen: Generator, rev: Revised) returns (r: Result<seq<InputOption>, Fault>)
    ensures r == Options(kind, tools, gen, rev)
  {
    if kind == One(PhaseOne.NoRJ) {
      r := PhaseOne.NoRJOptions(tools, gen, rev);
      NoRJOptionsAre(tools, gen, rev);
    } else if kind == Two(PhaseTwo.NoCompleteForm) {
      var options := PhaseTwo.NoCompleteFormOptions(tools, rev);
      r := Success(options);
      NoCompleteFormOptionsAre(tools, gen, rev);
    } else if kind == Three {
      var options := PhaseThree.CatchAllOptionsBuild(tools, rev);
      r := Success(options);
      FinalOptionsAre(tools, gen, rev);
    } else {
      r := Options(kind, tools, gen, rev);
    }
  }

  /** The options of phase 1's `NoRJ`: the quote rounds. */
  lemma NoRJOptionsAre(tools: Tools, gen: Generator, rev: Revised)
    ensures Options(One(PhaseOne.NoRJ), tools, gen, rev) == PhaseOne.QuoteRounds(tools, gen, rev, PhaseOne.QuoteRoundsOrder, None)
  {
  }

  /** The options of phase 2's `NoCompleteForm`: the formalization fields and the reconstruction. */
  lemma NoCompleteFormOptionsAre(tools: Tools, gen: Generator, rev: Revised)
    ensures Options(Two(PhaseTwo.NoCompleteForm), tools, gen, rev) == Success(PhaseTwo.FormOptions(tools.ext.layout, rev.item))
  {
  }

  /** The options of phase 3's catch-all. */
  lemma FinalOptionsAre(tools: Tools, gen: Generator, rev: Revised)
    ensures Options(Three, tools, gen, rev) == Success(PhaseThree.CatchAllOptions(tools, rev))
  {
  }

  // ---------------------------------------------------------------------
  // The revision a responsible handler builds, as values
  // ---------------------------------------------------------------------

  /** The metrics cache and metric states after an update. */
  datatype Evaluation = Evaluation(cache: Cache, metrics: map<MetricKind, MetricState>)

  /** `metrics.update(item)` on a copy of a registry: the cache pass, then the score pass; either may raise. */
  function Reevaluated(env: Env, order: seq<MetricKind>, metrics: map<MetricKind, MetricState>, cache: Cache, item: Item): Result<Evaluation, Fault>
    requires Covers(order, metrics)
  {
    var c := CacheFrom(env, order, metrics, Some(item), 0, cache, []);
    if c.fault.Some? then Failure(c.fault.value)
    else
      var s := ScoreFrom(env, order, Some(item), c.cache, 0, metrics);
      if s.1.Some? then Failure(s.1.value) else Success(Evaluation(c.cache, s.0))
  }

  /** What a responsible handler answers with: the revised item, its evaluation, the feedback and the options. */
  datatype Response = Response(item: Item, evaluation: Evaluation, feedback: string, options: seq<InputOption>)

  /** A handler's `get_feedback`: its feedback on the revised analysis. */
  type FeedbackFn = Revised -> string

  /** A handler's `get_input_options`: its options on the revised analysis, given the model's answers; they may raise. */
  type OptionsFn = (Generator, Revised) -> Result<seq<InputOption>, Fault>

  /** `get_feedback` of a handler's class. */
  function FeedbackOf(kind: Kind): FeedbackFn
  {
    (rev: Revised) => Feedback(kind, rev)
  }

  /** `get_input_options` of a handler's class, with the handler's collaborators. */
  function OptionsOf(kind: Kind, tools: Tools): OptionsFn
  {
    (gen: Generator, rev: Revised) => Options(kind, tools, gen, rev)
  }

  /**
   * The responsible branch of `handle` on values: the input applied to the
   * item, the revised item evaluated, then the handler's feedback and
   * options on the revised analysis; an error of the update or of the
   * options is the answer.
   */
  function Respond(feedback: FeedbackFn, options: OptionsFn, tools: Tools, query: Edit, item: Item,
                   env: Env, order: seq<MetricKind>, metrics: map<MetricKind, MetricState>, cache: Cache): (r: Result<Response, Fault>)
    requires Covers(order, metrics)
    ensures r.Success? ==> Get(r.value.item, query.field) == query.value
    ensures r.Success? ==> forall g :: g != query.field ==> Get(r.value.item, g) == Get(item, g)
    ensures r.Success? ==> Reevaluated(env, order, metrics, cache, r.value.item) == Success(r.value.evaluation)
    ensures r.Success? ==>
      r.value.feedback == feedback(Revised(r.value.item, r.value.evaluation.metrics, r.value.evaluation.cache)) &&
      options(GeneratorFor(tools, r.value.item), Revised(r.value.item, r.value.evaluation.metrics, r.value.evaluation.cache))
        == Success(r.value.options)
    ensures r.Failure? ==>
      Reevaluated(env, order, metrics, cache, Set(item, query.field, query.value)).Failure? ||
      options(GeneratorFor(tools, Set(item, query.field, query.value)),
              Revised(Set(item, query.field, query.value),
                      Reevaluated(env, order, metrics, cache, Set(item, query.field, query.value)).value.metrics,
                      Reevaluated(env, order, metrics, cache, Set(item, query.field, query.value)).value.cache)).Failure?
  {
    var revised := Set(item, query.field, query.value);
    match Reevaluated(env, order, metrics, cache, revised)
    case Failure(e) => Failure(e)
    case Success(ev) =>
      var rev := Revised(revised, ev.metrics, ev.cache);
      match options(GeneratorFor(tools, revised), rev)
      case Failure(e) => Failure(e)
      case Success(opts) => Success(Response(revised, ev, feedback(rev), opts))
  }

  /** The request `handle` receives: the user's input, the current snapshot and the step the revision gets. */
  datatype Request = Request(query: Edit, state: StateOfAnalysis, globalStep: int)

  /** The incoming snapshot as the handlers read it: its phase, item and metric states. */
  ghost function IncomingOf(s: StateOfAnalysis): Incoming
    reads s, s.metrics
  {
    Incoming(s.metrics.Phase(), s.item, s.metrics.metrics)
  }

  /** The response a handler owes a request. */
  ghost function Expected(h: UserInputHandler, request: Request): Result<Response, Fault>
    reads request.state, request.state.metrics
    requires request.state.metrics.Valid()
  {
    var m := request.state.metrics;
    Respond(h.feedback, h.options, h.tools, request.query, request.state.item, m.env, m.order, m.metrics, m.cache)
  }

  /**
   * `create_revision` with the response: the revision shows its first
   * option, has the request's step and resumes from the snapshot's, records
   * the input, and holds the response's item, feedback, options and a
   * registry with the response's evaluation.
   */
  ghost predicate RevisionOf(request: Request, response: Response, s: StateOfAnalysis)
    reads request.state, request.state.metrics, s, s.metrics
  {
    s.visibleOption == 0 && s.globalStep == request.globalStep && s.resumesFromStep == request.state.globalStep &&
    s.projectId == request.state.projectId && s.userInput == Some(request.query) &&
    s.item == response.item && s.feedback == Some(response.feedback) && s.inputOptions == response.options &&
    s.metrics.Valid() && s.metrics.env == request.state.metrics.env && s.metrics.order == request.state.metrics.order &&
    s.metrics.cache == response.evaluation.cache && s.metrics.metrics == response.evaluation.metrics
  }

  // ---------------------------------------------------------------------
  // The chain
  // ---------------------------------------------------------------------

  /**
   * Which handler of a chain answers, delegating from `depth` on: the
   * first responsible one, `None` when the chain ends without one, and
   * `RecursionError` when the delegations reach the recursion limit first.
   */
  function Dispatch(kinds: seq<Kind>, v: Incoming, depth: nat): (r: Result<Option<nat>, Fault>)
    ensures r.Success? && r.value.Some? ==>
      r.value.value < |kinds| && depth + r.value.value < RecursionLimit && Responsible(kinds[r.value.value], v) &&
      forall j :: 0 <= j < r.value.value ==> !Responsible(kinds[j], v)
    ensures r == Success(None) ==> forall j :: 0 <= j < |kinds| ==> !Responsible(kinds[j], v)
    ensures r.Failure? ==>
      r.error == RecursionError && RecursionLimit < depth + |kinds| &&
      forall j :: 0 <= j < RecursionLimit - depth ==> !Responsible(kinds[j], v)
    decreases |kinds|
  {
    if |kinds| == 0 then Success(None)
    else if depth >= RecursionLimit then Failure(RecursionError)
    else if Responsible(kinds[0], v) then Success(Some(0))
    else
      match Dispatch(kinds[1..], v, depth + 1)
      case Success(Some(i)) => Success(Some(i + 1))
      case other => other
  }

  /** The first responsible handler answers, when it lies within the recursion limit. */
  lemma {:induction false} DispatchFirst(kinds: seq<Kind>, v: Incoming, depth: nat, i: nat)
    requires i < |kinds| && depth + i < RecursionLimit && Responsible(kinds[i], v)
    requires forall j :: 0 <= j < i ==> !Responsible(kinds[j], v)
    ensures Dispatch(kinds, v, depth) == Success(Some(i))
  {
    if i > 0 {
      DispatchFirst(kinds[1..], v, depth + 1, i - 1);
    }
  }

  /** A chain within the recursion limit where nobody is responsible answers `None`. */
  lemma {:induction false} DispatchNone(kinds: seq<Kind>, v: Incoming, depth: nat)
    requires depth + |kinds| <= RecursionLimit
    requires forall j :: 0 <= j < |kinds| ==> !Responsible(kinds[j], v)
    ensures Dispatch(kinds, v, depth) == Success(None)
  {
    if |kinds| > 0 {
      DispatchNone(kinds[1..], v, depth + 1);
    }
  }

  /**
   * A chain within the recursion limit that holds the catch-all of the
   * incoming phase always finds a handler, and one of that phase.
   */
  lemma CatchAllAnswers(kinds: seq<Kind>, v: Incoming, depth: nat)
    requires depth + |kinds| <= RecursionLimit && v.phase <= FinalPhase
    requires CatchAllOf(v.phase) in kinds
    ensures Dispatch(kinds, v, depth).Success? && Dispatch(kinds, v, depth).value.Some?
    ensures PhaseOf(kinds[Dispatch(kinds, v, depth).value.value]) == v.phase
  {
    ResponsibleInItsPhase(CatchAllOf(v.phase), v);
    var r := Dispatch(kinds, v, depth);
    ResponsibleInItsPhase(kinds[r.value.value], v);
  }

  /** The kinds of the handlers of a chain, in order. */
  function KindsOf(chain: seq<UserInputHandler>): (r: seq<Kind>)
    ensures |r| == |chain| && forall i :: 0 <= i < |chain| ==> r[i] == chain[i].kind
  {
    seq(|chain|, i requires 0 <= i < |chain| => chain[i].kind)
  }

  /**
   * The handlers a request passes through from a handler called at
   * `depth`: each links to the next, and the last ends the chain unless
   * the recursion limit is reached before it.
   */
  ghost predicate Chain(chain: seq<UserInputHandler>, depth: nat)
    reads set h | h in chain
    decreases |chain|
  {
    |chain| > 0 && depth <= RecursionLimit &&
    if |chain| == 1 then chain[0].next == null || RecursionLimit == depth
    else chain[0].next == chain[1] && Chain(chain[1..], depth + 1)
  }

  class UserInputHandler {
    const kind: Kind
    /** The collaborators the handler is built with, its language-model pipeline among them. */
    const tools: Tools
    /** The handler's class's `get_feedback`. */
    const feedback: FeedbackFn
    /** The handler's class's `get_input_options`. */
    const options: OptionsFn
    var next: UserInputHandler?

    /** The methods the handler's class overrides are those of its kind. */
    ghost predicate Behaves()
    {
      (forall rev :: feedback(rev) == Feedback(kind, rev)) &&
      (forall gen, rev :: options(gen, rev) == Options(kind, tools, gen, rev))
    }

    /** `__init__`: a handler of the given class with no successor. */
    constructor(kind: Kind, tools: Tools)
      ensures this.kind == kind && this.tools == tools && next == null
      ensures Behaves()
    {
      this.kind := kind;
      this.tools := tools;
      feedback := FeedbackOf(kind);
      options := OptionsOf(kind, tools);
      next := null;
    }

    /** `set_next`: links the successor and returns it, so that links can be chained. */
    method SetNext(handler: UserInputHandler) returns (r: UserInputHandler)
      modifies this
      ensures next == handler && r == handler
    {
      next := handler;
      r := handler;
    }

    /**
     * The responsible branch of `handle`: the input applied to a copy of
     * the item, a copy of the registry updated with it, the feedback and the
     * options, and a revision of the snapshot; a raising update or option
     * builder propagates its error. The snapshot is left as it was.
     */
    method Revise(request: Request) returns (r: Result<Option<StateOfAnalysis>, Fault>)
      requires request.state.metrics.Valid()
      ensures Answered(request, this, r)
      ensures r.Success? ==> r.value.Some? && fresh(r.value.value) && fresh(r.value.value.metrics) && r.value.value.metrics.Valid()
    {
      var sofa := request.state;
      var item := Set(sofa.item, request.query.field, request.query.value);
      var metrics := new SofaEvaluator.Copy(sofa.metrics);
      var fault := metrics.Update(Some(item));
      if fault.Some? {
        return Failure(fault.value);
      }
      var rev := Revised(item, metrics.metrics, metrics.cache);
      var text := feedback(rev);
      var offered := options(GeneratorFor(tools, item), rev);
      if offered.Failure? {
        return Failure(offered.error);
      }
      var revision := sofa.CreateRevision(request.globalStep, request.query, offered.value, metrics, item, Some(text));
      return Success(Some(revision));
    }

    /**
     * `handle`: the revision when this handler is responsible, otherwise
     * the successor's answer, and `None` at the end of the chain; it answers
     * as the first responsible handler of the chain does.
     */
    method Handle(request: Request, depth: nat, ghost chain: seq<UserInputHandler>) returns (r: Result<Option<StateOfAnalysis>, Fault>)
      requires request.state.metrics.Valid()
      requires Chain(chain, depth) && chain[0] == this
      ensures Routed(request, chain, depth).Failure? ==> r == Failure(RecursionError)
      ensures Routed(request, chain, depth) == Success(None) ==> r == Success(None)
      ensures Routed(request, chain, depth).Success? && Routed(request, chain, depth).value.Some? ==>
        Answered(request, chain[Routed(request, chain, depth).value.value], r)
      ensures r.Success? && r.value.Some? ==> fresh(r.value.value) && fresh(r.value.value.metrics) && r.value.value.metrics.Valid()
      decreases RecursionLimit - depth
    {
      ghost var v := IncomingOf(request.state);
      if depth == RecursionLimit {
        DispatchAtLimit(KindsOf(chain), v, depth);
        return Failure(RecursionError);
      }
      var phase := request.state.metrics.ReconstructionPhase();
      var incoming := Incoming(phase, request.state.item, request.state.metrics.metrics);
      assert incoming == v;
      if Responsible(kind, incoming) {
        DispatchFirst(KindsOf(chain), v, depth, 0);
        r := Revise(request);
        assert Routed(request, chain, depth) == Success(Some(0));
      } else if next != null {
        DispatchOn(chain, v, depth);
        ghost var rest := Routed(request, chain[1..], depth + 1);
        r := next.Handle(request, depth + 1, chain[1..]);
        assert Routed(request, chain[1..], depth + 1) == rest;
        if rest.Success? && rest.value.Some? {
          assert Routed(request, chain, depth) == Success(Some(rest.value.value + 1));
          assert chain[rest.value.value + 1] == chain[1..][rest.value.value];
        }
      } else {
        DispatchNone(KindsOf(chain), v, depth);
        return Success(None);
      }
    }
  }

  /** The handler a request is routed to along a chain, read on the incoming snapshot. */
  ghost function Routed(request: Request, chain: seq<UserInputHandler>, depth: nat): (r: Result<Option<nat>, Fault>)
    reads request.state, request.state.metrics
    ensures r.Success? && r.value.Some? ==> r.value.value < |chain|
  {
    Dispatch(KindsOf(chain), IncomingOf(request.state), depth)
  }

  /** At the recursion limit, a chain raises. */
  lemma DispatchAtLimit(kinds: seq<Kind>, v: Incoming, depth: nat)
    requires |kinds| > 0 && depth == RecursionLimit
    ensures Dispatch(kinds, v, depth) == Failure(RecursionError)
  {
  }

  /** A handler that is not responsible routes as the rest of the chain does, one step deeper. */
  lemma DispatchOn(chain: seq<UserInputHandler>, v: Incoming, depth: nat)
    requires |chain| > 1 && depth < RecursionLimit && !Responsible(chain[0].kind, v)
    ensures Dispatch(KindsOf(chain[1..]), v, depth + 1).Success? && Dispatch(KindsOf(chain[1..]), v, depth + 1).value.Some? ==>
      Dispatch(KindsOf(chain), v, depth) == Success(Some(Dispatch(KindsOf(chain[1..]), v, depth + 1).value.value + 1))
    ensures Dispatch(KindsOf(chain[1..]), v, depth + 1).Failure? || Dispatch(KindsOf(chain[1..]), v, depth + 1) == Success(None) ==>
      Dispatch(KindsOf(chain), v, depth) == Dispatch(KindsOf(chain[1..]), v, depth + 1)
  {
    assert KindsOf(chain)[1..] == KindsOf(chain[1..]);
  }

  /** How the handler that answers a request leaves the result: its error, or a revision with its response. */
  ghost predicate Answered(request: Request, h: UserInputHandler, r: Result<Option<StateOfAnalysis>, Fault>)
    requires request.state.metrics.Valid()
    reads request.state, request.state.metrics
    reads if r.Success? && r.value.Some? then {r.value.value, r.value.value.metrics} else {}
  {
    (Expected(h, request).Failure? ==> r == Failure(Expected(h, request).error)) &&
    (Expected(h, request).Success? ==>
      r.Success? && r.value.Some? && RevisionOf(request, Expected(h, request).value, r.value.value))
  }
}
