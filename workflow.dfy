/** The workflow hook (frontend/app/lib/usePatchpilotWorkflow.ts): six steps, each
    idle, loading, succeeded or failed; one data slot per step after the upload; five
    actions that each move their step to loading and then to success (in sample mode,
    filling their slot with the sample record) or to an error; `retry`, `reset` and the
    `can*` gates. */
module Workflow {
  import opened Wrappers
  import opened Types

  /** `WorkflowState["steps"]`: a status for each step. */
  type Steps = map<WorkflowStep, StepState>

  /** `{ status: "idle", error: null }`. */
  const IdleState: StepState := StepState(Idle, None)

  const NotImplementedMessage: string := "API integration not yet implemented. Enable Sample Mode to test."

  /** Every step has a state. */
  predicate Complete(steps: Steps) {
    forall w: WorkflowStep :: w in steps
  }

  /** The steps as the hook starts and as `reset` leaves them. */
  function InitialSteps(): (s: Steps)
    ensures Complete(s)
    ensures forall w :: s[w] == IdleState
  {
    var s := map[Upload := IdleState, Analyze := IdleState, Test := IdleState,
                 Run := IdleState, Patch := IdleState, Export := IdleState];
    assert forall w: WorkflowStep :: w in s <== w == Upload || w == Analyze || w == Test || w == Run || w == Patch || w == Export;
    s
  }

  /** `updateStepStatus(step, status, error)`: `{ ...prev, [step]: { status, error } }`. */
  function WithStatus(steps: Steps, step: WorkflowStep, status: StepStatus, error: Option<string>): (r: Steps)
    ensures r.Keys == steps.Keys + {step}
    ensures r[step] == StepState(status, error)
    ensures forall w :: w in steps && w != step ==> r[w] == steps[w]
  {
    steps[step := StepState(status, error)]
  }

  /** A later status of the same step overrides an earlier one. */
  lemma WithStatusTwice(steps: Steps, step: WorkflowStep, s1: StepStatus, e1: Option<string>, s2: StepStatus, e2: Option<string>)
    ensures WithStatus(WithStatus(steps, step, s1, e1), step, s2, e2) == WithStatus(steps, step, s2, e2)
  {
  }

  /** The sample records that sample mode loads (frontend/app/lib/sampleData.ts). */
  datatype Samples = Samples(
    analysis: AnalysisResult,
    test: GeneratedTest,
    runResult: RunResult,
    patch: PatchResult,
    bugReport: BugReport)

  /** `WorkflowData`: the output of each step after the upload, or null. */
  datatype WorkflowData = WorkflowData(
    analysis: Option<AnalysisResult>,
    test: Option<GeneratedTest>,
    runResult: Option<RunResult>,
    patch: Option<PatchResult>,
    bugReport: Option<BugReport>)

  const EmptyData: WorkflowData := WorkflowData(None, None, None, None, None)

  /** Whether the slot of `step` holds a record (the upload has no slot). */
  predicate HasSlot(data: WorkflowData, step: WorkflowStep) {
    match step
    case Upload => false
    case Analyze => data.analysis.Some?
    case Test => data.test.Some?
    case Run => data.runResult.Some?
    case Patch => data.patch.Some?
    case Export => data.bugReport.Some?
  }

  /** `setData(prev => ({ ...prev, <slot>: sample }))` for the slot of `step`. */
  function FillSlot(data: WorkflowData, step: WorkflowStep, samples: Samples): (r: WorkflowData)
    requires step != Upload
    ensures HasSlot(r, step)
    ensures forall w :: w != step ==> (HasSlot(r, w) <==> HasSlot(data, w))
    ensures step == Analyze ==> r == data.(analysis := Some(samples.analysis))
    ensures step == Test ==> r == data.(test := Some(samples.test))
    ensures step == Run ==> r == data.(runResult := Some(samples.runResult))
    ensures step == Patch ==> r == data.(patch := Some(samples.patch))
    ensures step == Export ==> r == data.(bugReport := Some(samples.bugReport))
  {
    match step
    case Analyze => data.(analysis := Some(samples.analysis))
    case Test => data.(test := Some(samples.test))
    case Run => data.(runResult := Some(samples.runResult))
    case Patch => data.(patch := Some(samples.patch))
    case Export => data.(bugReport := Some(samples.bugReport))
  }

  // The computed gates.

  function CanAnalyze(steps: Steps): bool
    requires Complete(steps)
  {
    steps[Upload].status == Success
  }

  function CanGenerateTest(steps: Steps): bool
    requires Complete(steps)
  {
    steps[Analyze].status == Success && steps[Test].status != Loading
  }

  function CanRunTest(steps: Steps): bool
    requires Complete(steps)
  {
    steps[Test].status == Success && steps[Run].status != Loading
  }

  function CanGeneratePatch(steps: Steps, data: WorkflowData): bool
    requires Complete(steps)
  {
    steps[Run].status == Success && data.runResult.Some? && data.runResult.value.status == RunFailed
    && steps[Patch].status != Loading
  }

  function CanExport(steps: Steps): bool
    requires Complete(steps)
  {
    steps[Patch].status == Success && steps[Export].status != Loading
  }

  /** The step each action depends on. */
  function Predecessor(step: WorkflowStep): (r: Option<WorkflowStep>)
    ensures r.None? <==> step == Upload
  {
    match step
    case Upload => None
    case Analyze => Some(Upload)
    case Test => Some(Analyze)
    case Run => Some(Test)
    case Patch => Some(Run)
    case Export => Some(Patch)
  }

  /** The gate of an action, through the `can*` value the hook computes for it. */
  function Gate(steps: Steps, data: WorkflowData, step: WorkflowStep): bool
    requires Complete(steps) && step != Upload
  {
    match step
    case Analyze => CanAnalyze(steps)
    case Test => CanGenerateTest(steps)
    case Run => CanRunTest(steps)
    case Patch => CanGeneratePatch(steps, data)
    case Export => CanExport(steps)
  }

  /** Every gate needs its predecessor to have succeeded; every gate but the first also
      needs its own step not to be loading, and the patch gate needs a failed run. */
  lemma GatesFollowPipeline(steps: Steps, data: WorkflowData, step: WorkflowStep)
    requires Complete(steps) && step != Upload
    ensures Gate(steps, data, step) ==> steps[Predecessor(step).value].status == Success
    ensures step != Analyze ==>
      (Gate(steps, data, step) <==> steps[Predecessor(step).value].status == Success && steps[step].status != Loading
                                    && (step == Patch ==> data.runResult.Some? && data.runResult.value.status == RunFailed))
    ensures step == Analyze ==> (Gate(steps, data, step) <==> steps[Upload].status == Success)
  {
  }

  /** `canAnalyze` does not look at the analysis step itself: unlike the other gates it
      stays open while an analysis is loading. */
  lemma AnalyzeGateIgnoresLoading()
    ensures var s := WithStatus(WithStatus(InitialSteps(), Upload, Success, None), Analyze, Loading, None);
      Complete(s) && s[Analyze].status == Loading && CanAnalyze(s)
  {
  }

  /** What the hook keeps true between transitions: an error message exactly on failed
      steps; a succeeded upload has a file; every other succeeded step has its record. */
  predicate Consistent(steps: Steps, data: WorkflowData, uploaded: bool) {
    && Complete(steps)
    && (forall w :: steps[w].status == Error <==> steps[w].error.Some?)
    && (steps[Upload].status == Success ==> uploaded)
    && (forall w :: w != Upload && steps[w].status == Success ==> HasSlot(data, w))
  }

  /** In a consistent state an open gate guarantees that the record the action reads is
      there: an analysis for test generation, a test to run, a failed run to patch, a
      patch to export. */
  lemma GatesHaveInputs(steps: Steps, data: WorkflowData, uploaded: bool)
    requires Consistent(steps, data, uploaded)
    ensures CanAnalyze(steps) ==> uploaded
    ensures CanGenerateTest(steps) ==> data.analysis.Some?
    ensures CanRunTest(steps) ==> data.test.Some?
    ensures CanGeneratePatch(steps, data) ==> data.runResult.Some? && data.runResult.value.status == RunFailed
    ensures CanExport(steps) ==> data.patch.Some?
  {
    assert steps[Analyze].status == Success ==> HasSlot(data, Analyze);
    assert steps[Test].status == Success ==> HasSlot(data, Test);
    assert steps[Patch].status == Success ==> HasSlot(data, Patch);
  }

  /** The final transition of an action keeps the state consistent. */
  lemma {:induction false} FinishKeepsConsistent(steps: Steps, data: WorkflowData, uploaded: bool, step: WorkflowStep, samples: Samples)
    requires Consistent(steps, data, uploaded) && step != Upload
    ensures Consistent(WithStatus(steps, step, Success, None), FillSlot(data, step, samples), uploaded)
    ensures Consistent(WithStatus(steps, step, Error, Some(NotImplementedMessage)), data, uploaded)
    ensures Consistent(WithStatus(steps, step, Loading, None), data, uploaded)
  {
    var d := FillSlot(data, step, samples);
    assert forall w :: w != Upload && w != step ==> (HasSlot(d, w) <==> HasSlot(data, w));
  }

  /** A file the user picked (its contents are not modelled). */
  datatype FileRef = FileRef(name: string)

  class PatchpilotWorkflow {
    var sampleMode: bool
    var uploadedFile: Option<FileRef>
    var currentStep: Option<WorkflowStep>
    var steps: Steps
    var data: WorkflowData
    const samples: Samples

    predicate Valid()
      reads this
    {
      Consistent(steps, data, uploadedFile.Some?)
    }

    constructor (samples: Samples)
      ensures Valid()
      ensures !sampleMode && uploadedFile == None && currentStep == None
      ensures steps == InitialSteps() && data == EmptyData && this.samples == samples
    {
      sampleMode := false;
      uploadedFile := None;
      currentStep := None;
      steps := InitialSteps();
      data := EmptyData;
      this.samples := samples;
    }

    method SetSampleMode(on: bool)
      requires Valid()
      modifies this
      ensures Valid()
      ensures sampleMode == on
      ensures uploadedFile == old(uploadedFile) && currentStep == old(currentStep)
      ensures steps == old(steps) && data == old(data)
    {
      sampleMode := on;
    }

    /** `updateStepStatus(step, status, error)`. */
    method UpdateStepStatus(step: WorkflowStep, status: StepStatus, error: Option<string>)
      modifies this
      ensures steps == WithStatus(old(steps), step, status, error)
      ensures sampleMode == old(sampleMode) && uploadedFile == old(uploadedFile)
      ensures currentStep == old(currentStep) && data == old(data)
    {
      steps := WithStatus(steps, step, status, error);
    }

    /** `setVideo(file)`: the upload succeeds with this file and becomes the current step. */
    method SetVideo(file: FileRef)
      requires Valid()
      modifies this
      ensures Valid()
      ensures uploadedFile == Some(file) && currentStep == Some(Upload)
      ensures steps == WithStatus(old(steps), Upload, Success, None)
      ensures sampleMode == old(sampleMode) && data == old(data)
    {
      uploadedFile := Some(file);
      UpdateStepStatus(Upload, Success, None);
      currentStep := Some(Upload);
    }

    /** The synchronous start of an action: its step becomes current and loading. The
        returned flag is the sample mode the action's callback was created with, which
        decides how the action ends. */
    method Begin(step: WorkflowStep) returns (capturedSampleMode: bool)
      requires Valid() && step != Upload
      modifies this
      ensures Valid()
      ensures capturedSampleMode == sampleMode
      ensures currentStep == Some(step) && steps == WithStatus(old(steps), step, Loading, None)
      ensures sampleMode == old(sampleMode) && uploadedFile == old(uploadedFile) && data == old(data)
    {
      currentStep := Some(step);
      FinishKeepsConsistent(steps, data, uploadedFile.Some?, step, samples);
      UpdateStepStatus(step, Loading, None);
      capturedSampleMode := sampleMode;
    }

    /** The end of an action, after its await. In sample mode the step's slot gets the
        sample record and the step succeeds; otherwise the step fails with the
        not-implemented message and the data stay as they are. */
    method Finish(step: WorkflowStep, capturedSampleMode: bool)
      requires Valid() && step != Upload
      modifies this
      ensures Valid()
      ensures capturedSampleMode ==>
        data == FillSlot(old(data), step, samples) && steps == WithStatus(old(steps), step, Success, None)
      ensures !capturedSampleMode ==>
        data == old(data) && steps == WithStatus(old(steps), step, Error, Some(NotImplementedMessage))
      ensures sampleMode == old(sampleMode) && uploadedFile == old(uploadedFile) && currentStep == old(currentStep)
    {
      FinishKeepsConsistent(steps, data, uploadedFile.Some?, step, samples);
      if capturedSampleMode {
        data := FillSlot(data, step, samples);
        UpdateStepStatus(step, Success, None);
      } else {
        UpdateStepStatus(step, Error, Some(NotImplementedMessage));
      }
    }

    /** `analyze`, `generateTest`, `runTest`, `generatePatch` or `exportBugReport`, run to
        completion with nothing in between. */
    method RunAction(step: WorkflowStep)
      requires Valid() && step != Upload
      modifies this
      ensures Valid()
      ensures currentStep == Some(step)
      ensures sampleMode ==>
        data == FillSlot(old(data), step, samples) && steps == WithStatus(old(steps), step, Success, None)
      ensures !sampleMode ==>
        data == old(data) && steps == WithStatus(old(steps), step, Error, Some(NotImplementedMessage))
      ensures sampleMode == old(sampleMode) && uploadedFile == old(uploadedFile)
    {
      ghost var before := steps;
      var captured := Begin(step);
      Finish(step, captured);
      WithStatusTwice(before, step, Loading, None, Success, None);
      WithStatusTwice(before, step, Loading, None, Error, Some(NotImplementedMessage));
    }

    /** `retry(step)`: the upload cannot be retried; any other step runs its action again. */
    method Retry(step: WorkflowStep)
      requires Valid()
      modifies this
      ensures Valid()
      ensures step == Upload ==> unchanged(this)
      ensures step != Upload ==> currentStep == Some(step)
      ensures step != Upload && sampleMode ==>
        data == FillSlot(old(data), step, samples) && steps == WithStatus(old(steps), step, Success, None)
      ensures step != Upload && !sampleMode ==>
        data == old(data) && steps == WithStatus(old(steps), step, Error, Some(NotImplementedMessage))
      ensures sampleMode == old(sampleMode) && uploadedFile == old(uploadedFile)
    {
      if step != Upload {
        RunAction(step);
      }
    }

    /** `reset()`: back to the initial steps, data, file and current step; the sample
        mode stays as it is. */
    method Reset()
      modifies this
      ensures Valid()
      ensures uploadedFile == None && currentStep == None && steps == InitialSteps() && data == EmptyData
      ensures sampleMode == old(sampleMode)
    {
      uploadedFile := None;
      currentStep := None;
      steps := InitialSteps();
      data := EmptyData;
    }
  }

  /** In sample mode, uploading a video and then running the five actions in order (the
      actions themselves do not consult the gates) leaves every step succeeded and every
      slot filled with its sample record. */
  method SampleWalkthrough(samples: Samples, file: FileRef) returns (w: PatchpilotWorkflow)
    ensures w.Valid()
    ensures w.data == WorkflowData(Some(samples.analysis), Some(samples.test), Some(samples.runResult),
                                   Some(samples.patch), Some(samples.bugReport))
    ensures forall s :: w.steps[s] == StepState(Success, None)
    ensures w.currentStep == Some(Export)
  {
    w := new PatchpilotWorkflow(samples);
    w.SetSampleMode(true);
    w.SetVideo(file);
    assert CanAnalyze(w.steps);
    w.RunAction(Analyze);
    w.RunAction(Test);
    w.RunAction(Run);
    w.RunAction(Patch);
    w.RunAction(Export);
  }
}
