/** The workflow page (frontend/app/workflow/page.tsx): which tabs may be opened, the
    guarded tab change, and the simulated upload progress that climbs in steps of 10 and
    stops at 90. */
module WorkflowPage {
  import opened Wrappers
  import opened Types
  import Workflow

  /** The values of the `WorkflowTab` union. */
  const Tabs: set<string> := {"upload", "analysis", "test", "results", "patch", "export"}

  /** `isTabEnabled(tab)`. The tab arrives as any string (the tab widget's value is cast),
      so an unknown name reaches the `default` branch. */
  function IsTabEnabled(tab: string, steps: Workflow.Steps, runResult: Option<RunResult>): (r: bool)
    requires Workflow.Complete(steps)
    ensures tab == "upload" ==> r
    ensures tab !in Tabs ==> !r
  {
    match tab
    case "upload" => true
    case "analysis" => steps[Upload].status == Success
    case "test" => steps[Analyze].status == Success
    case "results" => steps[Test].status == Success
    case "patch" => steps[Run].status == Success && runResult.Some? && runResult.value.status == RunFailed
    case "export" => steps[Patch].status == Success
    case _ => false
  }

  /** The tab that shows, and starts, each step's action. */
  function TabOf(step: WorkflowStep): (t: string)
    ensures t in Tabs
  {
    match step
    case Upload => "upload"
    case Analyze => "analysis"
    case Test => "test"
    case Run => "results"
    case Patch => "patch"
    case Export => "export"
  }

  /** An open gate always has its tab enabled. The analysis tab is enabled exactly when
      its gate is open; for the later actions the gate is open exactly when the tab is
      enabled and the action is not already loading. */
  lemma {:induction false} TabsMatchGates(steps: Workflow.Steps, data: Workflow.WorkflowData, step: WorkflowStep)
    requires Workflow.Complete(steps) && step != Upload
    ensures Workflow.Gate(steps, data, step) ==> IsTabEnabled(TabOf(step), steps, data.runResult)
    ensures step == Analyze ==> (IsTabEnabled(TabOf(step), steps, data.runResult) <==> Workflow.Gate(steps, data, step))
    ensures step != Analyze ==>
      (Workflow.Gate(steps, data, step) <==> IsTabEnabled(TabOf(step), steps, data.runResult) && steps[step].status != Loading)
  {
    Workflow.GatesFollowPipeline(steps, data, step);
  }

  /** The interval's updater: `prev >= 90 ? 90 : prev + 10`. */
  function NextProgress(prev: int): (r: int)
    ensures prev >= 90 ==> r == 90
    ensures prev < 90 ==> r == prev + 10
  {
    if prev >= 90 then 90 else prev + 10
  }

  /** The progress after `n` ticks from 0. */
  function ProgressAfter(n: nat): int {
    if n == 0 then 0 else NextProgress(ProgressAfter(n - 1))
  }

  /** From a start of 0 the progress after `n` ticks is `10 * n` capped at 90: it never
      passes 90, and it reaches 90 after nine ticks and stays there. */
  lemma {:induction false} ProgressIsCapped(n: nat)
    ensures ProgressAfter(n) == if 10 * n <= 90 then 10 * n else 90
  {
    if n > 0 {
      ProgressIsCapped(n - 1);
    }
  }

  /** The `% 10 == 0` conjunct of `WorkflowPageState.Valid` is what keeps the cap: a
      tick from a multiple of 10 no larger than 90 stays a multiple of 10 no larger
      than 90. */
  lemma TickKeepsTens(p: int)
    requires 0 <= p <= 90 && p % 10 == 0
    ensures 0 <= NextProgress(p) <= 90 && NextProgress(p) % 10 == 0
  {
  }

  /** Without that conjunct the cap would fail: from 85, which is below 90 but not a
      multiple of 10, one tick reaches 95. */
  lemma CapNeedsTenStepsFromZero()
    ensures NextProgress(85) == 95
  {
  }

  /** The page's own state. */
  class WorkflowPageState {
    var activeTab: string
    var uploadProgress: int
    var isUploading: bool
    /** Whether the progress interval is still running. */
    var ticking: bool

    predicate Valid()
      reads this
    {
      activeTab in Tabs && 0 <= uploadProgress <= 100 && (ticking ==> uploadProgress <= 90 && uploadProgress % 10 == 0)
    }

    constructor ()
      ensures Valid() && activeTab == "upload" && uploadProgress == 0 && !ticking && !isUploading
    {
      activeTab := "upload";
      uploadProgress := 0;
      isUploading := false;
      ticking := false;
    }

    /** The tab widget's change handler: the tab changes only when it is enabled. */
    method RequestTab(value: string, steps: Workflow.Steps, runResult: Option<RunResult>)
      requires Valid() && Workflow.Complete(steps)
      modifies this
      ensures Valid()
      ensures activeTab == if IsTabEnabled(value, steps, runResult) then value else old(activeTab)
      ensures uploadProgress == old(uploadProgress) && ticking == old(ticking) && isUploading == old(isUploading)
    {
      if IsTabEnabled(value, steps, runResult) {
        activeTab := value;
      }
    }

    /** The start of `handleUploadAndAnalyze`: without an uploaded file nothing happens;
        otherwise the upload is shown, progress goes back to 0 and the interval starts. */
    method StartUpload(hasFile: bool)
      requires Valid()
      modifies this
      ensures Valid() && activeTab == old(activeTab)
      ensures !hasFile ==> unchanged(this)
      ensures hasFile ==> isUploading && uploadProgress == 0 && ticking
    {
      if hasFile {
        isUploading := true;
        uploadProgress := 0;
        ticking := true;
      }
    }

    /** One firing of the interval: the updater runs, and the interval is cleared once the
        progress had reached 90. While it runs the progress stays a multiple of 10 no
        greater than 90. */
    method Tick()
      requires Valid() && ticking
      modifies this
      ensures Valid()
      ensures uploadProgress == NextProgress(old(uploadProgress)) && uploadProgress <= 90
      ensures ticking == (old(uploadProgress) < 90)
      ensures activeTab == old(activeTab) && isUploading == old(isUploading)
    {
      if uploadProgress >= 90 {
        ticking := false;
      }
      uploadProgress := NextProgress(uploadProgress);
    }

    /** After the analysis: progress jumps to 100 and the `finally` clears the interval. */
    method FinishUpload()
      requires Valid()
      modifies this
      ensures Valid() && uploadProgress == 100 && !ticking
      ensures activeTab == old(activeTab) && isUploading == old(isUploading)
    {
      uploadProgress := 100;
      ticking := false;
    }

    /** Half a second later (or at once, if the analysis threw): the upload indicator
        is hidden and progress is back to 0. */
    method SettleUpload()
      requires Valid()
      modifies this
      ensures Valid() && !isUploading && uploadProgress == 0
      ensures activeTab == old(activeTab) && ticking == old(ticking)
    {
      isUploading := false;
      uploadProgress := 0;
    }
  }
}
