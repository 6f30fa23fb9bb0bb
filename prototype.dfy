/**
 * `utils.py`: the early prototype of a snapshot and its two clickable
 * options. A click stores the user's answer on the option and updates the
 * snapshot, which reads the answer of the option it shows: nothing happens
 * on an empty answer, `ASK_STHG_ELSE` shows the next option, and any other
 * answer is appended to the reconstruction and to the text.
 */
module Prototype {
  import opened Wrappers
  import Projects

  /** The answer that asks for another option. */
  const AskSomethingElse: string := "ASK_STHG_ELSE"

  const Praise: string := "That was excellent!"

  /** Python's truth value of an optional string: present and non-empty. */
  predicate Truthy(s: Option<string>)
  {
    s.Some? && |s.value| > 0
  }

  /** The text of an optional reconstruction, empty when there is none. */
  function TextOf(s: Option<string>): string
  {
    if s.Some? then s.value else ""
  }

  /** The parts of a snapshot an update changes. */
  datatype Progress = Snapshot(text: string, argdown: Option<string>, globalStep: int, visibleOption: int)

  /**
   * `update` on values, for a snapshot with `n` options whose shown option
   * holds `input`.
   */
  function Step(p: Progress, n: nat, input: Option<string>): Progress
    requires n > 0
  {
    if !Truthy(input) then p
    else if input.value == AskSomethingElse then p.(visibleOption := Projects.Toggled(p.visibleOption, n))
    else
      p.(argdown := Some(if Truthy(p.argdown) then p.argdown.value + input.value else input.value),
         text := p.text + input.value,
         globalStep := p.globalStep + 1)
  }

  /** The text is the project's text followed by the reconstruction, and an existing option is shown. */
  predicate Consistent(p: Progress, project: string, n: nat)
  {
    p.text == project + TextOf(p.argdown) && 0 <= p.visibleOption < n
  }

  /**
   * What an update does: an empty answer changes nothing; asking for
   * something else only shows the next option; any other answer extends
   * the reconstruction and the text by itself and counts one step.
   */
  lemma StepEffect(p: Progress, n: nat, input: Option<string>)
    requires n > 0
    ensures !Truthy(input) ==> Step(p, n, input) == p
    ensures Truthy(input) && input.value == AskSomethingElse ==>
      Step(p, n, input) == p.(visibleOption := Projects.Toggled(p.visibleOption, n))
    ensures Truthy(input) && input.value != AskSomethingElse ==>
      TextOf(Step(p, n, input).argdown) == TextOf(p.argdown) + input.value &&
      Step(p, n, input).text == p.text + input.value &&
      Step(p, n, input).globalStep == p.globalStep + 1 && Step(p, n, input).visibleOption == p.visibleOption
  {
    if Truthy(input) && input.value != AskSomethingElse && !Truthy(p.argdown) {
      assert TextOf(p.argdown) == "";
    }
  }

  /** Every update keeps the text equal to the project's text followed by the reconstruction. */
  lemma StepConsistent(p: Progress, project: string, n: nat, input: Option<string>)
    requires n > 0 && Consistent(p, project, n)
    ensures Consistent(Step(p, n, input), project, n)
  {
    StepEffect(p, n, input);
    if Truthy(input) && input.value != AskSomethingElse {
      assert project + TextOf(p.argdown) + input.value == project + (TextOf(p.argdown) + input.value);
    }
  }

  /** The prototype's `InputOption`: a question with the snapshot it belongs to and the answer clicked. */
  class PrototypeOption {
    const text: string
    const sofa: PrototypeState
    var userInput: Option<string>

    /** `__init__`: no answer yet. */
    constructor(sofa: PrototypeState, text: string)
      ensures this.sofa == sofa && this.text == text && userInput.None?
    {
      this.sofa := sofa;
      this.text := text;
      userInput := None;
    }

    /**
     * `_on_click`: the answer is stored on the option first, and then the
     * snapshot updates with the answer of the option it shows, which is
     * this answer when this option is the one shown.
     */
    method OnClick(input: Option<string>)
      requires sofa.Valid()
      modifies this, sofa
      ensures userInput == input && sofa.Valid()
      ensures sofa.options == old(sofa.options)
      ensures sofa.Progress() == Step(old(sofa.Progress()), |sofa.options|, sofa.options[old(sofa.visibleOption)].userInput)
      ensures this == old(sofa.options[sofa.visibleOption]) ==>
        sofa.Progress() == Step(old(sofa.Progress()), |sofa.options|, input)
    {
      userInput := input;
      sofa.Update();
    }
  }

  /** The prototype's `StateOfAnalysis`. */
  class PrototypeState {
    var text: string
    const project: string
    var globalStep: int
    var visibleOption: int
    var feedback: string
    var options: seq<PrototypeOption>
    /** `da2item.argdown_reconstruction`, the only part of the item the prototype touches. */
    var argdown: Option<string>

    function Progress(): Progress
      reads this
    {
      Snapshot(text, argdown, globalStep, visibleOption)
    }

    /** Two options, one of them shown, and the text the project's text followed by the reconstruction. */
    ghost predicate Valid()
      reads this
    {
      |options| == 2 && Consistent(Progress(), project, |options|)
    }

    /**
     * `__init__`: the text is also the project, step 0, the praise as
     * feedback, an empty reconstruction and two options, the first one shown.
     */
    constructor(text: string)
      ensures Valid() && this.text == text && project == text && globalStep == 0 && visibleOption == 0
      ensures feedback == Praise && argdown.None? && |options| == 2 && fresh(options[0]) && fresh(options[1])
      ensures options[0].text == "Please specify the conclusion:" && options[1].text == "Please specify the reasons:"
      ensures options[0].sofa == this && options[1].sofa == this
      ensures options[0].userInput.None? && options[1].userInput.None?
    {
      this.text := text;
      project := text;
      globalStep := 0;
      visibleOption := 0;
      feedback := Praise;
      argdown := None;
      options := [];
      new;
      var conclusion := new PrototypeOption(this, "Please specify the conclusion:");
      var reasons := new PrototypeOption(this, "Please specify the reasons:");
      options := [conclusion, reasons];
    }

    /**
     * `update`: the snapshot takes a step with the answer of the option it
     * shows, and stays valid.
     */
    method Update()
      requires Valid()
      modifies this
      ensures Valid() && options == old(options) && feedback == old(feedback)
      ensures Progress() == Step(old(Progress()), |options|, old(options[visibleOption].userInput))
    {
      var shown := GetVisibleInputOption();
      var input := shown.userInput;
      StepConsistent(Progress(), project, |options|, input);
      if input.Some? && |input.value| > 0 {
        if input.value == AskSomethingElse {
          IncrementVisibleInputOption();
        } else {
          if argdown.Some? && |argdown.value| > 0 {
            argdown := Some(argdown.value + input.value);
          } else {
            argdown := Some(input.value);
          }
          text := text + input.value;
          globalStep := globalStep + 1;
        }
      }
    }

    /** `increment_visible_input_option`: the next option, wrapping round to the first. */
    method IncrementVisibleInputOption()
      requires |options| > 0
      modifies this
      ensures options == old(options) && visibleOption == Projects.Toggled(old(visibleOption), |options|)
      ensures text == old(text) && argdown == old(argdown) && globalStep == old(globalStep) && feedback == old(feedback)
    {
      visibleOption := visibleOption + 1;
      visibleOption := visibleOption % |options|;
    }

    /** `get_visible_input_option`: the option shown. */
    method GetVisibleInputOption() returns (o: PrototypeOption)
      requires 0 <= visibleOption < |options|
      ensures o == options[visibleOption]
    {
      o := options[visibleOption];
    }
  }
}
