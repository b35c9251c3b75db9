/** The front-end's workflow vocabulary (frontend/app/lib/types.ts): the six steps,
    their status, and the records each step produces. */
module Types {
  import opened Wrappers

  datatype WorkflowStep = Upload | Analyze | Test | Run | Patch | Export

  datatype StepStatus = Idle | Loading | Success | Error

  datatype StepState = StepState(status: StepStatus, error: Option<string>)

  datatype TimelineEvent = TimelineEvent(timestamp: string, description: string)

  datatype ReproductionStep = ReproductionStep(number: nat, description: string)

  datatype AnalysisResult = AnalysisResult(
    timeline: seq<TimelineEvent>,
    reproSteps: seq<ReproductionStep>,
    expected: string,
    actual: string,
    targetUrl: Option<string>)

  datatype GeneratedTest = GeneratedTest(playwrightSpec: string, filename: string)

  /** The front-end's run status: "success" | "failed". */
  datatype RunStatus = RunSuccess | RunFailed

  datatype RunResult = RunResult(
    status: RunStatus,
    stdout: string,
    stderr: string,
    screenshotUrl: Option<string>)

  datatype PatchResult = PatchResult(diff: string, rationale: string, risks: seq<string>)

  datatype BugReport = BugReport(markdown: string)
}
