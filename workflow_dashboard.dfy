/** The WorkflowDashboard component: two constant pipeline catalogues (DPO and
    RLHF), which one is shown, a Running/Paused flag, and the completion
    figure computed from the shown pipeline's step statuses. */
module Workflow {
  import opened Common

  /** `StepStatus`. */
  datatype StepStatus = Pending | InProgress | Completed | Error

  /** One pipeline step; `duration` and `details` may be absent. */
  datatype WorkflowData = WorkflowData(
    id: string,
    title: string,
    description: string,
    status: StepStatus,
    duration: Option<string>,
    details: Option<seq<string>>)

  /** The two pipelines a user can select. */
  datatype WorkflowKind = Dpo | Rlhf

  /** `dpoWorkflow`. */
  const DpoWorkflow: seq<WorkflowData> := [DataCollection, ModelInitialization, PreferenceModeling, DpoOptimization, Evaluation, Deployment]

  const DataCollection: WorkflowData :=
    WorkflowData("data-collection", "Data Collection",
      "Gather preference pairs and comparison data for training",
      Completed, Some("2.3h"),
      Some(["Collected 10,000 preference pairs", "Validated data quality", "Applied filtering and cleaning"]))
  const ModelInitialization: WorkflowData :=
    WorkflowData("model-initialization", "Model Initialization",
      "Initialize base model and prepare for DPO training",
      Completed, Some("15m"),
      Some(["Loaded pre-trained model", "Configured model architecture", "Set up training parameters"]))
  const PreferenceModeling: WorkflowData :=
    WorkflowData("preference-modeling", "Preference Modeling",
      "Train preference model to understand human feedback",
      InProgress, Some("1.2h"),
      Some(["Training preference classifier", "Current accuracy: 87.3%", "Processing batch 342/500"]))
  const DpoOptimization: WorkflowData :=
    WorkflowData("dpo-optimization", "DPO Optimization",
      "Direct preference optimization using collected feedback",
      Pending, None,
      Some(["Awaiting preference modeling completion", "Hyperparameters configured", "Learning rate: 1e-5"]))
  const Evaluation: WorkflowData :=
    WorkflowData("evaluation", "Model Evaluation",
      "Evaluate optimized model performance and alignment",
      Pending, None,
      Some(["Prepare evaluation datasets", "Set up benchmarking metrics", "Configure safety assessments"]))
  const Deployment: WorkflowData :=
    WorkflowData("deployment", "Model Deployment",
      "Deploy optimized model to production environment",
      Pending, None,
      Some(["Prepare deployment configuration", "Set up monitoring systems", "Configure safety guardrails"]))

  /** `rlhfWorkflow`. */
  const RlhfWorkflow: seq<WorkflowData> := [SupervisedFinetuning, RewardModeling, PpoTraining, SafetyEvaluation, FinalEvaluation]

  const SupervisedFinetuning: WorkflowData :=
    WorkflowData("supervised-finetuning", "Supervised Fine-tuning",
      "Initial fine-tuning on high-quality supervised data",
      Completed, Some("4.1h"),
      Some(["Trained on curated instruction dataset", "Achieved 92.1% task completion rate", "Model checkpoint saved"]))
  const RewardModeling: WorkflowData :=
    WorkflowData("reward-modeling", "Reward Modeling",
      "Train reward model to predict human preferences",
      Completed, Some("2.8h"),
      Some(["Trained on 15K preference comparisons", "Model accuracy: 89.7%", "Validation loss: 0.23"]))
  const PpoTraining: WorkflowData :=
    WorkflowData("ppo-training", "PPO Training",
      "Proximal Policy Optimization using trained reward model",
      InProgress, Some("3.5h"),
      Some(["Training with PPO algorithm", "Current reward score: 4.2/5.0", "Epoch 127/200"]))
  const SafetyEvaluation: WorkflowData :=
    WorkflowData("safety-evaluation", "Safety Evaluation",
      "Comprehensive safety and alignment testing",
      Pending, None,
      Some(["Red team adversarial testing", "Bias and fairness evaluation", "Harmful content detection"]))
  const FinalEvaluation: WorkflowData :=
    WorkflowData("final-evaluation", "Final Evaluation",
      "Final performance assessment and benchmarking",
      Pending, None,
      Some(["Human evaluation studies", "Benchmark performance testing", "Quality assurance checks"]))

  /** `currentWorkflow`: the DPO list for "dpo", the RLHF list otherwise. */
  function Catalogue(k: WorkflowKind): (steps: seq<WorkflowData>)
    ensures k == Dpo ==> steps == DpoWorkflow
    ensures k == Rlhf ==> steps == RlhfWorkflow
  {
    if k == Dpo then DpoWorkflow else RlhfWorkflow
  }

  /** `completedSteps`: the number of steps whose status is "completed". */
  function CompletedSteps(steps: seq<WorkflowData>): (n: nat)
    ensures n <= |steps|
    ensures n == |steps| <==> forall i :: 0 <= i < |steps| ==> steps[i].status == Completed
  {
    if steps == [] then 0
    else (if steps[0].status == Completed then 1 else 0) + CompletedSteps(steps[1..])
  }

  /** `progress = (completedSteps / totalSteps) * 100`, as an exact ratio. */
  function Progress(steps: seq<WorkflowData>): (p: real)
    requires steps != []
    ensures 0.0 <= p <= 100.0
    ensures p == 100.0 <==> forall i :: 0 <= i < |steps| ==> steps[i].status == Completed
    ensures p == 0.0 <==> CompletedSteps(steps) == 0
  {
    Percent(CompletedSteps(steps), |steps|)
  }

  /** `Math.round` on a non-negative value: halves round up. */
  function JsRound(x: real): (n: int)
    requires x >= 0.0
    ensures n >= 0
    ensures n as real - 0.5 <= x < n as real + 0.5
  {
    (x + 0.5).Floor
  }

  /** The DPO catalogue as shipped has 2 of its 6 steps completed, so its
      progress is 100/3 and shows as 33%. */
  lemma DpoCatalogueProgress()
    ensures |DpoWorkflow| == 6 && CompletedSteps(DpoWorkflow) == 2
    ensures Progress(DpoWorkflow) == 100.0 / 3.0 && JsRound(Progress(DpoWorkflow)) == 33
  {
    var d := DpoWorkflow;
    assert CompletedSteps(d[5..]) == 0 by { assert d[5..][1..] == []; }
    assert CompletedSteps(d[4..]) == 0 by { assert d[4..][1..] == d[5..]; }
    assert CompletedSteps(d[3..]) == 0 by { assert d[3..][1..] == d[4..]; }
    assert CompletedSteps(d[2..]) == 0 by { assert d[2..][1..] == d[3..]; }
    assert CompletedSteps(d[1..]) == 1 by { assert d[1..][1..] == d[2..]; }
  }

  /** The RLHF catalogue as shipped has 2 of its 5 steps completed, so its
      progress is 40 and shows as 40%. */
  lemma RlhfCatalogueProgress()
    ensures |RlhfWorkflow| == 5 && CompletedSteps(RlhfWorkflow) == 2
    ensures Progress(RlhfWorkflow) == 40.0 && JsRound(Progress(RlhfWorkflow)) == 40
  {
    var r := RlhfWorkflow;
    assert CompletedSteps(r[4..]) == 0 by { assert r[4..][1..] == []; }
    assert CompletedSteps(r[3..]) == 0 by { assert r[3..][1..] == r[4..]; }
    assert CompletedSteps(r[2..]) == 0 by { assert r[2..][1..] == r[3..]; }
    assert CompletedSteps(r[1..]) == 1 by { assert r[1..][1..] == r[2..]; }
  }

  /** No two steps of a list share an id. */
  predicate UniqueIds(steps: seq<WorkflowData>) {
    forall i, j :: 0 <= i < j < |steps| ==> steps[i].id != steps[j].id
  }

  /** Step ids are unique within each catalogue (they are the list keys). */
  lemma CatalogueIdsUnique()
    ensures UniqueIds(DpoWorkflow)
    ensures UniqueIds(RlhfWorkflow)
  {
    var d := DpoWorkflow;
    assert d[4].id[0] != d[5].id[0];
  }

  /** The WorkflowDashboard component's state. */
  class WorkflowDashboard {
    var activeWorkflow: WorkflowKind
    var isRunning: bool

    constructor ()
      ensures activeWorkflow == Dpo && isRunning
    {
      activeWorkflow := Dpo;
      isRunning := true;
    }

    /** The steps on display. */
    function CurrentWorkflow(): (steps: seq<WorkflowData>)
      reads this
      ensures steps != []
      ensures activeWorkflow == Dpo ==> steps == DpoWorkflow
      ensures activeWorkflow == Rlhf ==> steps == RlhfWorkflow
    {
      Catalogue(activeWorkflow)
    }

    /** The Pause/Resume button: flips the flag and nothing else. */
    method ToggleRunning()
      modifies this`isRunning
      ensures isRunning == !old(isRunning)
    {
      isRunning := !isRunning;
    }

    /** The "DPO Pipeline" and "RLHF Pipeline" buttons. */
    method SelectWorkflow(k: WorkflowKind)
      modifies this`activeWorkflow
      ensures activeWorkflow == k
      ensures CurrentWorkflow() == Catalogue(k)
    {
      activeWorkflow := k;
    }

    /** The "Reset Pipeline" button has no click handler: pressing it changes
        nothing, which the empty frame states. */
    method ResetPipeline()
      ensures CurrentWorkflow() == old(CurrentWorkflow()) && isRunning == old(isRunning)
    {
    }
  }

  /** Pausing and resuming restores the flag and touches neither the selection
      nor any step. */
  method PauseThenResume(d: WorkflowDashboard)
    modifies d
    ensures d.isRunning == old(d.isRunning)
    ensures d.activeWorkflow == old(d.activeWorkflow) && d.CurrentWorkflow() == old(d.CurrentWorkflow())
  {
    d.ToggleRunning();
    d.ToggleRunning();
  }

  /** Selecting a pipeline twice is the same as selecting it once, and leaves
      the Running/Paused flag alone. */
  method SelectTwice(d: WorkflowDashboard, k: WorkflowKind)
    modifies d
    ensures d.activeWorkflow == k && d.isRunning == old(d.isRunning)
  {
    d.SelectWorkflow(k);
    ghost var once := d.activeWorkflow;
    d.SelectWorkflow(k);
    assert d.activeWorkflow == once;
  }
}
