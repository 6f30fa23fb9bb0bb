/**
 * `project_store.py`: where a project's snapshots are kept. The abstract
 * store's setters and `get_last_sofa` are those of the local dummy store,
 * which keeps the history as an in-memory list that only ever grows.
 */
module ProjectStores {
  import opened Wrappers
  import opened Analysis
  import opened Inference
  import opened Metrics
  import opened InputOptions
  import State

  /** The source text of the dummy snapshot. */
  const DummySourceText: string :=
    "It is cruel and unethical to kill animals for food\n" +
    "when vegetarian options are available, especially because raising animals\n" +
    "in confinement for slaughter is cruel, and many animals in the United\n" +
    "States are not slaughtered humanely. Animals are sentient beings that\n" +
    "have emotions and social connections. Scientific studies show that cattle,\n" +
    "pigs, chickens, and all warm-blooded animals can experience stress, pain,\n" +
    "and fear."

  /** The project of a dummy store created without one. */
  const DummyProjectId: string := "dummy_project"

  /** The one option of the dummy snapshot: a choice between two reconstructions. */
  const DummyOption: InputOption :=
    ChoiceOption(["(1) P --- (2) C", "(1) Q --- (2) C"], Some("Which reco is better A or B?"), ArgdownReconstruction,
                 [("reco 1", "(1) P ---(2) C"), ("reco 2", "(1) Q ---(2) C")], None)

  /**
   * The position Python's `list[idx]` reads in a list of length `n`:
   * non-negative indices from the front, negative ones from the end, and
   * nothing (an `IndexError`) outside `-n .. n-1`.
   */
  function PyIndex(n: nat, idx: int): (r: Option<nat>)
    ensures r.Some? <==> -(n as int) <= idx < n
    ensures r.Some? ==> r.value < n && r.value % n == idx % n
  {
    if 0 <= idx < n then Some(idx)
    else if -(n as int) <= idx < 0 then Some(n + idx)
    else None
  }

  /** An index and the same index counted from the end read the same position. */
  lemma FromEnd(n: nat, i: nat)
    requires i < n
    ensures PyIndex(n, i - n) == PyIndex(n, i) == Some(i)
  {
  }

  /** Index `-1` reads the last element of every non-empty list, and nothing of an empty one. */
  lemma LastIndex(n: nat)
    ensures n > 0 ==> PyIndex(n, -1) == Some(n - 1)
    ensures n == 0 ==> PyIndex(n, -1).None?
  {
  }

  class DummyLocalProjectStore {
    /** The collaborators a new snapshot's evaluator is created with. */
    const ext: Externals
    const inference: Option<Pipeline>
    const angles: seq<Angle>
    var userId: Option<string>
    var projectId: Option<string>
    /** `_sofa_list`: the project's snapshots, oldest first. */
    var sofas: seq<State.StateOfAnalysis>

    /** A store holds at least its first snapshot. */
    ghost predicate Valid()
      reads this
    {
      |sofas| > 0
    }

    /**
     * `__init__`: the given user and project, the project defaulting to
     * `dummy_project`, and a history of one snapshot of that project: the
     * dummy source text with the dummy choice as its only option.
     */
    constructor(ext: Externals, inference: Option<Pipeline>, angles: seq<Angle>,
                userId: Option<string>, projectId: Option<string>)
      ensures Valid() && |sofas| == 1 && fresh(sofas[0])
      ensures this.userId == userId
      ensures this.projectId == (if projectId.None? then Some(DummyProjectId) else projectId)
      ensures this.ext == ext && this.inference == inference && this.angles == angles
      ensures sofas[0].projectId == this.projectId.value && sofas[0].item == NewItem(DummySourceText)
      ensures sofas[0].inputOptions == [DummyOption] && sofas[0].userInput.None? && sofas[0].feedback.None?
      ensures sofas[0].globalStep == 0 && sofas[0].resumesFromStep == 0 && sofas[0].visibleOption == 0
    {
      this.ext := ext;
      this.inference := inference;
      this.angles := angles;
      this.userId := userId;
      var project := if projectId.None? then DummyProjectId else projectId.value;
      this.projectId := Some(project);
      var dummy := new State.StateOfAnalysis(project, ext, inference, angles, "", 0, 0, Some([DummyOption]),
                                             None, Some(NewItem(DummySourceText)), None);
      sofas := [dummy];
    }

    /** `get_sofa`: the snapshot at a Python index of the history; an index outside it raises `IndexError`. */
    method GetSofa(idx: int) returns (r: Result<State.StateOfAnalysis, Fault>)
      ensures PyIndex(|sofas|, idx).None? ==> r == Failure(IndexError)
      ensures PyIndex(|sofas|, idx).Some? ==> r == Success(sofas[PyIndex(|sofas|, idx).value])
    {
      var n := |sofas|;
      if 0 <= idx < n {
        r := Success(sofas[idx]);
      } else if -n <= idx < 0 {
        r := Success(sofas[n + idx]);
      } else {
        r := Failure(IndexError);
      }
    }

    /** `get_last_sofa`: the most recently stored snapshot, which a valid store always has. */
    method GetLastSofa() returns (r: Result<State.StateOfAnalysis, Fault>)
      ensures |sofas| > 0 ==> r == Success(sofas[|sofas| - 1])
      ensures |sofas| == 0 ==> r == Failure(IndexError)
      ensures Valid() ==> r.Success?
    {
      LastIndex(|sofas|);
      r := GetSofa(-1);
    }

    /** `get_length`: the number of stored snapshots. */
    method GetLength() returns (n: nat)
      ensures n == |sofas|
    {
      n := |sofas|;
    }

    /**
     * `store_sofa`: a deep copy of the snapshot is appended; the snapshots
     * stored before are the same objects, unchanged, so history only grows.
     */
    method StoreSofa(sofa: State.StateOfAnalysis)
      modifies this
      ensures |sofas| == |old(sofas)| + 1 && sofas[..|old(sofas)|] == old(sofas)
      ensures fresh(sofas[|sofas| - 1]) && fresh(sofas[|sofas| - 1].metrics)
      ensures sofas[|sofas| - 1].projectId == sofa.projectId && sofas[|sofas| - 1].item == sofa.item
      ensures sofas[|sofas| - 1].userInput == sofa.userInput && sofas[|sofas| - 1].inputOptions == sofa.inputOptions
      ensures sofas[|sofas| - 1].globalStep == sofa.globalStep && sofas[|sofas| - 1].resumesFromStep == sofa.resumesFromStep
      ensures sofas[|sofas| - 1].visibleOption == sofa.visibleOption && sofas[|sofas| - 1].feedback == sofa.feedback
      ensures sofas[|sofas| - 1].metrics.metrics == sofa.metrics.metrics && sofas[|sofas| - 1].metrics.cache == sofa.metrics.cache
      ensures sofas[|sofas| - 1].metrics.order == sofa.metrics.order && sofas[|sofas| - 1].metrics.env == sofa.metrics.env
      ensures sofas[|sofas| - 1].metrics.phaseOf == sofa.metrics.phaseOf
      ensures sofas[|sofas| - 1].metrics.alternatives == sofa.metrics.alternatives
      ensures sofa.metrics.Valid() ==> sofas[|sofas| - 1].metrics.Valid()
      ensures userId == old(userId) && projectId == old(projectId)
      ensures old(Valid()) ==> Valid()
    {
      var copy := sofa.DeepCopy();
      sofas := sofas + [copy];
    }

    /** `list_projects`: the dummy store lists nothing. */
    method ListProjects() returns (r: Option<seq<string>>)
      ensures r.None?
    {
      r := None;
    }

    /** `set_user`: the user changes, nothing else does. */
    method SetUser(user: string)
      modifies this
      ensures userId == Some(user) && projectId == old(projectId) && sofas == old(sofas)
    {
      userId := Some(user);
    }

    /** `set_project`: the project changes, nothing else does. */
    method SetProject(project: string)
      modifies this
      ensures projectId == Some(project) && userId == old(userId) && sofas == old(sofas)
    {
      projectId := Some(project);
    }

    /** `get_project` as written: its body is only a docstring, so it answers `None`. */
    method GetProjectAsWritten() returns (r: Option<string>)
      ensures r.None?
    {
      r := None;
    }

    /** `get_project` as its docstring describes it: the current project. */
    method GetProject() returns (r: Option<string>)
      ensures r == projectId
    {
      r := projectId;
    }
  }

  /**
   * A store fresh from its constructor already has a project, which the
   * written `get_project` does not report and the corrected one does.
   */
  method GetProjectDiscrepancy(ext: Externals, inference: Option<Pipeline>, angles: seq<Angle>)
    returns (written: Option<string>, corrected: Option<string>)
    ensures written.None? && corrected == Some(DummyProjectId)
  {
    var store := new DummyLocalProjectStore(ext, inference, angles, None, None);
    written := store.GetProjectAsWritten();
    corrected := store.GetProject();
  }
}
