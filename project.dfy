/**
 * `project.py`: the older snapshot class kept there, and `Project`, which
 * holds the current snapshot, the step counter and the chain of handlers a
 * user's input is passed to.
 */
module Projects {
  import opened Wrappers
  import opened Analysis
  import opened Inference
  import opened Metrics
  import opened InputOptions
  import opened Evaluator
  import opened Views
  import State
  import Handlers

  const ExcellentFeedback: string := "That was excellent!"

  /**
   * The older `StateOfAnalysis` of `project.py`. Its registry of metrics is
   * left out: the class it is built from is not defined anywhere.
   */
  class StateOfAnalysis {
    var projectId: string
    var userInput: Option<State.Edit>
    /** `_input_options`: `None` until options are given. */
    var inputOptions: Option<seq<InputOption>>
    var globalStep: int
    var resumesFromStep: int
    var visibleOption: int
    var item: Item
    var feedback: Option<string>

    /** `__init__`: the first option shown, the fixed praise as feedback, and an empty item. */
    constructor(projectId: string, globalStep: int, resumesFromStep: int, inputOptions: Option<seq<InputOption>>)
      ensures this.projectId == projectId && this.globalStep == globalStep && this.resumesFromStep == resumesFromStep
      ensures visibleOption == 0 && feedback == Some(ExcellentFeedback) && this.inputOptions == inputOptions
      ensures item == NewItem("") && userInput.None?
    {
      this.projectId := projectId;
      this.globalStep := globalStep;
      this.resumesFromStep := resumesFromStep;
      visibleOption := 0;
      feedback := Some(ExcellentFeedback);
      this.inputOptions := inputOptions;
      item := NewItem("");
      userInput := None;
    }

    /** A copy sharing no state with this snapshot. */
    method DeepCopy() returns (copy: StateOfAnalysis)
      ensures fresh(copy)
      ensures copy.projectId == projectId && copy.userInput == userInput && copy.inputOptions == inputOptions
      ensures copy.globalStep == globalStep && copy.resumesFromStep == resumesFromStep
      ensures copy.visibleOption == visibleOption && copy.item == item && copy.feedback == feedback
    {
      copy := new StateOfAnalysis(projectId, globalStep, resumesFromStep, inputOptions);
      copy.visibleOption := visibleOption;
      copy.item := item;
      copy.feedback := feedback;
      copy.userInput := userInput;
    }

    /**
     * `create_revision`: a copy showing its first option, at the given step,
     * resuming from this snapshot's step, with the given input, options,
     * feedback and item; this snapshot is left as it was.
     */
    method CreateRevision(globalStep: int, userInput: Option<State.Edit>, inputOptions: Option<seq<InputOption>>,
                          feedback: Option<string>, item: Item) returns (revision: StateOfAnalysis)
      ensures fresh(revision)
      ensures revision.visibleOption == 0 && revision.globalStep == globalStep && revision.resumesFromStep == this.globalStep
      ensures revision.userInput == userInput && revision.inputOptions == inputOptions
      ensures revision.feedback == feedback && revision.item == item && revision.projectId == projectId
    {
      revision := DeepCopy();
      revision.visibleOption := 0;
      revision.globalStep := globalStep;
      revision.resumesFromStep := this.globalStep;
      revision.userInput := userInput;
      revision.inputOptions := inputOptions;
      revision.feedback := feedback;
      revision.item := item;
    }
  }

  // ---------------------------------------------------------------------
  // The visible option
  // ---------------------------------------------------------------------

  /** The option shown after a toggle: the next one, wrapping round to the first. */
  function Toggled(i: int, n: int): (r: int)
    requires n > 0
    ensures 0 <= r < n
    ensures 0 <= i < n - 1 ==> r == i + 1
    ensures i == n - 1 ==> r == 0
  {
    (i + 1) % n
  }

  /** The option shown after `k` toggles. */
  function ToggledTimes(i: int, n: int, k: nat): (r: int)
    requires n > 0
  {
    if k == 0 then i else Toggled(ToggledTimes(i, n, k - 1), n)
  }

  /** Before the last option, `k` toggles advance the option by `k`. */
  lemma {:induction false} ToggledForward(i: int, n: int, k: nat)
    requires n > 0 && 0 <= i && i + k < n
    ensures ToggledTimes(i, n, k) == i + k
  {
    if k > 0 {
      ToggledForward(i, n, k - 1);
    }
  }

  /** Toggling `a` times and then `b` times is toggling `a + b` times. */
  lemma {:induction false} ToggledTimesAdd(i: int, n: int, a: nat, b: nat)
    requires n > 0
    ensures ToggledTimes(i, n, a + b) == ToggledTimes(ToggledTimes(i, n, a), n, b)
  {
    if b > 0 {
      ToggledTimesAdd(i, n, a, b - 1);
    }
  }

  /** Toggling as many times as there are options shows the option shown before. */
  lemma ToggleCycle(i: int, n: int)
    requires n > 0 && 0 <= i < n
    ensures ToggledTimes(i, n, n) == i
  {
    ToggledForward(i, n, n - 1 - i);
    assert ToggledTimes(i, n, n - i) == 0;
    ToggledTimesAdd(i, n, n - i, i);
    ToggledForward(0, n, i);
  }

  // ---------------------------------------------------------------------
  // The chain of handlers
  // ---------------------------------------------------------------------

  /** The handlers linked one after the other, the last ending the chain. */
  ghost predicate Linked(handlers: seq<Handlers.UserInputHandler>)
    reads set h | h in handlers
  {
    (forall i :: 0 <= i < |handlers| - 1 ==> handlers[i].next == handlers[i + 1]) &&
    (|handlers| > 0 ==> handlers[|handlers| - 1].next == null)
  }

  /** Handlers linked in order form a chain for a request at depth 0, when they are fewer than the recursion limit. */
  lemma {:induction false} LinkedChain(handlers: seq<Handlers.UserInputHandler>, depth: nat)
    requires |handlers| > 0 && depth + |handlers| <= Handlers.RecursionLimit && Linked(handlers)
    ensures Handlers.Chain(handlers, depth)
    decreases |handlers|
  {
    if |handlers| > 1 {
      assert handlers[0].next == handlers[1];
      LinkedChain(handlers[1..], depth + 1);
    }
  }

  /** The intended wiring: each handler passes on to the next one, the last to none. */
  method Wire(handlers: seq<Handlers.UserInputHandler>)
    requires forall i, j :: 0 <= i < j < |handlers| ==> handlers[i] != handlers[j]
    requires forall h :: h in handlers ==> h.next == null
    modifies set h | h in handlers
    ensures Linked(handlers)
  {
    if |handlers| == 0 {
      return;
    }
    for i := 1 to |handlers|
      invariant forall j :: 0 <= j < i - 1 ==> handlers[j].next == handlers[j + 1]
      invariant forall j :: i - 1 <= j < |handlers| ==> handlers[j].next == null
    {
      var _ := handlers[i - 1].SetNext(handlers[i]);
    }
  }

  /** The wiring as written: each handler but the last passes on to itself. */
  method WireAsWritten(handlers: seq<Handlers.UserInputHandler>)
    requires forall i, j :: 0 <= i < j < |handlers| ==> handlers[i] != handlers[j]
    requires forall h :: h in handlers ==> h.next == null
    modifies set h | h in handlers
    ensures forall i :: 0 <= i < |handlers| - 1 ==> handlers[i].next == handlers[i]
    ensures |handlers| > 0 ==> handlers[|handlers| - 1].next == null
  {
    if |handlers| == 0 {
      return;
    }
    for i := 1 to |handlers|
      invariant forall j :: 0 <= j < |handlers| ==> handlers[j].next == (if j < i - 1 then handlers[j] else null)
    {
      var _ := handlers[i - 1].SetNext(handlers[i - 1]);
    }
  }

  /** The calls a request makes on a handler linked to itself, from `depth` to the recursion limit. */
  ghost function Loop(h: Handlers.UserInputHandler, depth: nat): (chain: seq<Handlers.UserInputHandler>)
    requires depth <= Handlers.RecursionLimit
    ensures |chain| == Handlers.RecursionLimit - depth + 1 && forall i :: 0 <= i < |chain| ==> chain[i] == h
  {
    seq(Handlers.RecursionLimit - depth + 1, _ => h)
  }

  /** A handler linked to itself forms a chain that reaches the recursion limit. */
  lemma {:induction false} LoopChain(h: Handlers.UserInputHandler, depth: nat)
    requires depth <= Handlers.RecursionLimit && h.next == h
    ensures Handlers.Chain(Loop(h, depth), depth)
    decreases Handlers.RecursionLimit - depth
  {
    if depth < Handlers.RecursionLimit {
      assert Loop(h, depth)[1..] == Loop(h, depth + 1);
      LoopChain(h, depth + 1);
    }
  }

  /**
   * As written, a request the first handler is not responsible for is passed
   * back to that same handler until the recursion limit raises
   * `RecursionError`; no other handler is asked.
   */
  lemma {:induction false} LoopExhausts(h: Handlers.UserInputHandler, v: Incoming, depth: nat)
    requires depth <= Handlers.RecursionLimit && !Handlers.Responsible(h.kind, v)
    ensures Handlers.Dispatch(Handlers.KindsOf(Loop(h, depth)), v, depth) == Failure(RecursionError)
    decreases Handlers.RecursionLimit - depth
  {
    var kinds := Handlers.KindsOf(Loop(h, depth));
    if depth < Handlers.RecursionLimit {
      assert kinds[1..] == Handlers.KindsOf(Loop(h, depth + 1));
      LoopExhausts(h, v, depth + 1);
    }
  }

  // ---------------------------------------------------------------------
  // The project
  // ---------------------------------------------------------------------

  const ProjectId: string := "PROJECT-ID"

  /** One handler of each given class, with the given collaborators, none linked yet. */
  method CreateHandlers(kinds: seq<Handlers.Kind>, tools: Tools) returns (created: seq<Handlers.UserInputHandler>)
    ensures |created| == |kinds| && forall j, k :: 0 <= j < k < |created| ==> created[j] != created[k]
    ensures forall j :: 0 <= j < |created| ==>
      fresh(created[j]) && created[j].next == null && created[j].kind == kinds[j] && created[j].tools == tools
  {
    created := [];
    for i := 0 to |kinds|
      invariant |created| == i
      invariant forall j :: 0 <= j < i ==> fresh(created[j]) && created[j].next == null
      invariant forall j :: 0 <= j < i ==> created[j].kind == kinds[j] && created[j].tools == tools
      invariant forall j, k :: 0 <= j < k < i ==> created[j] != created[k]
    {
      var h := new Handlers.UserInputHandler(kinds[i], tools);
      created := created + [h];
    }
  }

  class Project {
    const projectId: string
    /** The current snapshot: `None` once no handler answered a request. */
    var state: State.StateOfAnalysis?
    var globalStep: int
    const handlers: seq<Handlers.UserInputHandler>

    ghost predicate Valid()
      reads this, set h | h in handlers
      reads if state != null then {state, state.metrics} else {}
    {
      0 < |handlers| <= Handlers.RecursionLimit && Linked(handlers) &&
      (state != null ==> state.metrics.Valid())
    }

    /**
     * `__init__`: step 0, a first snapshot with the praise as feedback, an
     * empty item and a fresh registry of metrics, and one handler of each
     * given class, each passing on to the next.
     */
    constructor(tools: Tools, angles: seq<Angle>, kinds: seq<Handlers.Kind>,
                globalStep: int, resumesFromStep: int, inputOptions: Option<seq<InputOption>>)
      requires 0 < |kinds| <= Handlers.RecursionLimit
      ensures Valid() && projectId == ProjectId && this.globalStep == 0
      ensures |handlers| == |kinds| && forall i :: 0 <= i < |kinds| ==> handlers[i].kind == kinds[i] && handlers[i].tools == tools
      ensures state != null && fresh(state) && fresh(state.metrics)
      ensures state.projectId == ProjectId && state.globalStep == globalStep && state.resumesFromStep == resumesFromStep
      ensures state.visibleOption == 0 && state.feedback == Some(ExcellentFeedback) && state.item == NewItem("")
      ensures state.inputOptions == (if inputOptions.None? then [] else inputOptions.value)
    {
      projectId := ProjectId;
      var sofa := new State.StateOfAnalysis(ProjectId, tools.ext, tools.inference, angles, "", globalStep, resumesFromStep,
                                            inputOptions, Some(ExcellentFeedback), None, None);
      var created := CreateHandlers(kinds, tools);
      Wire(created);
      handlers := created;
      state := sofa;
      this.globalStep := 0;
    }

    /**
     * `toggle_visible_option`: the next option is shown; no options at all
     * raise `ZeroDivisionError`, and no snapshot (after a request no handler
     * answered) raises `AttributeError`.
     */
    method ToggleVisibleOption() returns (fault: Option<Fault>)
      modifies state
      ensures state == old(state)
      ensures state == null ==> fault == Some(AttributeError("input_options"))
      ensures state != null && |state.inputOptions| == 0 ==>
        fault == Some(ZeroDivisionError) && state.visibleOption == old(state.visibleOption)
      ensures state != null && |state.inputOptions| > 0 ==>
        fault.None? && state.visibleOption == Toggled(old(state.visibleOption), |state.inputOptions|)
      ensures state != null ==>
        state.inputOptions == old(state.inputOptions) && state.item == old(state.item) &&
        state.globalStep == old(state.globalStep) && state.feedback == old(state.feedback)
    {
      if state == null {
        return Some(AttributeError("input_options"));
      }
      var n := |state.inputOptions|;
      if n == 0 {
        return Some(ZeroDivisionError);
      }
      state.visibleOption := (state.visibleOption + 1) % n;
      fault := None;
    }

    /**
     * `update`: the step advances by one and the first handler's answer to
     * the input becomes the snapshot, `None` when no handler answered; an
     * error raised by the chain leaves the snapshot as it was.
     */
    method Update(query: State.Edit) returns (answer: Result<Option<State.StateOfAnalysis>, Fault>)
      requires Valid()
      modifies this
      ensures Valid() && globalStep == old(globalStep) + 1
      ensures old(state) == null ==> answer == Failure(AttributeError("metrics")) && state == null
      ensures answer.Failure? ==> state == old(state)
      ensures answer.Success? ==> state == (if answer.value.Some? then answer.value.value else null)
      ensures old(state) != null ==>
        var request := Handlers.Request(query, old(state), old(globalStep) + 1);
        Handlers.Routed(request, handlers, 0).Success? &&
        (Handlers.Routed(request, handlers, 0) == Success(None) ==> answer == Success(None)) &&
        (Handlers.Routed(request, handlers, 0).value.Some? ==>
          Handlers.Answered(request, handlers[Handlers.Routed(request, handlers, 0).value.value], answer))
    {
      globalStep := globalStep + 1;
      if state == null {
        return Failure(AttributeError("metrics"));
      }
      var request := Handlers.Request(query, state, globalStep);
      LinkedChain(handlers, 0);
      answer := handlers[0].Handle(request, 0, handlers);
      if answer.Success? {
        state := if answer.value.Some? then answer.value.value else null;
      }
    }
  }
}
