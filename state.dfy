/**
 * `StateOfAnalysis` of `state_of_analysis.py`: one snapshot of a logical
 * analysis in a project's history. A revision is a copy of a snapshot with
 * the step counters reset and the user's input, the new options, the
 * feedback, the evaluator and the item replaced.
 */
module State {
  import opened Wrappers
  import opened Analysis
  import opened Inference
  import opened Metrics
  import opened InputOptions
  import opened Evaluator

  /** A user's input whose value has the type of the field it names. */
  type Edit = u: UserInput | Fits(u.field, u.value) witness UserInput(Title, Text(None))

  class StateOfAnalysis {
    var projectId: string
    /** `_user_input`: `None` while it is unset, until a revision records the input that led to it. */
    var userInput: Option<Edit>
    /** `_input_options`: the options available for the next input. */
    var inputOptions: seq<InputOption>
    var globalStep: int
    var resumesFromStep: int
    /** The index of the option shown to the user. */
    var visibleOption: int
    var item: Item
    var metrics: SofaEvaluator
    var feedback: Option<string>

    /**
     * `__init__`: no option when none are given, a fresh item with the
     * source text when no item is given, and a fresh evaluator with the
     * pipeline when no evaluator is given; the first option is shown.
     */
    constructor(projectId: string, ext: Externals, inference: Option<Pipeline>, angles: seq<Angle>,
                sourceText: string, globalStep: int, resumesFromStep: int, inputOptions: Option<seq<InputOption>>,
                feedback: Option<string>, item: Option<Item>, metrics: Option<SofaEvaluator>)
      ensures this.projectId == projectId && this.globalStep == globalStep && this.resumesFromStep == resumesFromStep
      ensures visibleOption == 0 && this.feedback == feedback && userInput.None?
      ensures GetUserInput() == Failure(AttributeError("_user_input"))
      ensures this.inputOptions == (if inputOptions.None? then [] else inputOptions.value)
      ensures this.item == (if item.None? then NewItem(sourceText) else item.value)
      ensures metrics.Some? ==> this.metrics == metrics.value
      ensures metrics.None? ==>
        fresh(this.metrics) && this.metrics.Valid() &&
        this.metrics.env == Env(ext, inference, angles) && this.metrics.order == DefaultOrder
    {
      this.projectId := projectId;
      this.globalStep := globalStep;
      this.resumesFromStep := resumesFromStep;
      visibleOption := 0;
      this.feedback := feedback;
      userInput := None;
      if inputOptions.None? {
        this.inputOptions := [];
      } else {
        this.inputOptions := inputOptions.value;
      }
      if item.None? {
        this.item := NewItem(sourceText);
      } else {
        this.item := item.value;
      }
      if metrics.None? {
        this.metrics := new SofaEvaluator(ext, inference, angles);
      } else {
        this.metrics := metrics.value;
      }
    }

    /** The `user_input` getter: the recorded input, or `AttributeError` while `_user_input` is unset. */
    function GetUserInput(): (r: Result<Edit, Fault>)
      reads this
      ensures r.Success? <==> userInput.Some?
      ensures r.Success? ==> r.value == userInput.value
      ensures r.Failure? ==> r.error == AttributeError("_user_input")
    {
      if userInput.Some? then Success(userInput.value) else Failure(AttributeError("_user_input"))
    }

    /** The `input_options` setter: the options change, nothing else does. */
    method SetInputOptions(options: seq<InputOption>)
      modifies this
      ensures inputOptions == options
      ensures projectId == old(projectId) && userInput == old(userInput) && globalStep == old(globalStep)
      ensures resumesFromStep == old(resumesFromStep) && visibleOption == old(visibleOption)
      ensures item == old(item) && metrics == old(metrics) && feedback == old(feedback)
    {
      inputOptions := options;
    }

    /** The `user_input` setter: the input changes, nothing else does. */
    method SetUserInput(input: Edit)
      modifies this
      ensures userInput == Some(input) && GetUserInput() == Success(input)
      ensures projectId == old(projectId) && inputOptions == old(inputOptions) && globalStep == old(globalStep)
      ensures resumesFromStep == old(resumesFromStep) && visibleOption == old(visibleOption)
      ensures item == old(item) && metrics == old(metrics) && feedback == old(feedback)
    {
      userInput := Some(input);
    }

    /** A copy of the snapshot that shares no state with it; the evaluator is copied too. */
    method DeepCopy() returns (copy: StateOfAnalysis)
      ensures fresh(copy) && fresh(copy.metrics)
      ensures copy.projectId == projectId && copy.userInput == userInput && copy.inputOptions == inputOptions
      ensures copy.globalStep == globalStep && copy.resumesFromStep == resumesFromStep
      ensures copy.visibleOption == visibleOption && copy.item == item && copy.feedback == feedback
      ensures copy.metrics.metrics == metrics.metrics && copy.metrics.cache == metrics.cache
      ensures copy.metrics.order == metrics.order && copy.metrics.env == metrics.env
      ensures copy.metrics.phaseOf == metrics.phaseOf && copy.metrics.alternatives == metrics.alternatives
      ensures metrics.Valid() ==> copy.metrics.Valid()
    {
      var evaluator := new SofaEvaluator.Copy(metrics);
      copy := new StateOfAnalysis(projectId, metrics.env.ext, metrics.env.inference, metrics.env.angles,
                                  item.sourceText, globalStep, resumesFromStep, Some(inputOptions),
                                  feedback, Some(item), Some(evaluator));
      copy.visibleOption := visibleOption;
      copy.userInput := userInput;
    }

    /**
     * `create_revision`: a deep copy showing its first option, at the given
     * step, resuming from this snapshot's step, with the given input,
     * options, feedback, evaluator and item; this snapshot is left as it was.
     */
    method CreateRevision(globalStep: int, userInput: Edit, inputOptions: seq<InputOption>, metrics: SofaEvaluator,
                          item: Item, feedback: Option<string>) returns (revision: StateOfAnalysis)
      ensures fresh(revision)
      ensures revision.visibleOption == 0 && revision.globalStep == globalStep
      ensures revision.resumesFromStep == this.globalStep
      ensures revision.userInput == Some(userInput) && revision.inputOptions == inputOptions
      ensures revision.feedback == feedback && revision.metrics == metrics && revision.item == item
      ensures revision.projectId == projectId
    {
      revision := DeepCopy();
      revision.visibleOption := 0;
      revision.globalStep := globalStep;
      revision.resumesFromStep := this.globalStep;
      revision.SetUserInput(userInput);
      revision.SetInputOptions(inputOptions);
      revision.feedback := feedback;
      revision.metrics := metrics;
      revision.item := item;
    }
  }
}
