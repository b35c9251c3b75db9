# PatchPilot core, modelled in Dafny

PatchPilot turns a screen recording of a bug into a Playwright test, runs the test, and
asks a generative model for a patch. Its demo shop, NeonMart, has a deliberately broken
checkout for PatchPilot to find. This project models the deterministic core of both and
proves properties of the model:

- **Test runner** (`PlaywrightRunner`, backend/playwright_runner.py). A `Host` class holds
  the disk (a map from path to contents), its directories, a millisecond clock and a log of
  started subprocesses. `RunPlaywrightTest` writes the script to the one fixed file
  `temp/test_run.spec.ts` and starts `npx playwright test temp/test_run.spec.ts
  --reporter=json` with a 60-second budget. It turns the outcome (`Exited`, `TimedOut` or
  `Crashed`) into a result record and deletes the file.
- **Fenced-JSON extraction and patch-reply defaults** (`Gemini`, backend/gemini.py).
  `clear_json_response` is modelled as the leftmost-match reading of its regular
  expression. The `failing_test` fallback and the `risks` default are modelled too.
- **Response normalisation** (`BackendAdapter`, frontend/app/lib/backendAdapter.ts).
  - The four normalisers turn loosely typed JSON into typed records, or into a
    `NormalizationError` listing what is missing.
  - The "MM:SS" ↔ seconds conversions.
  - The payloads of `generateTest` and `generatePatch`.
  - The `HttpAdapter` object: its base URL and its API-call listeners.
- **Workflow hook** (`Workflow`, frontend/app/lib/usePatchpilotWorkflow.ts). Six steps, each
  idle, loading, succeeded or failed, and one data slot per action. The five actions run
  as two transitions each: `Begin` moves the step to loading; `Finish` moves it to success
  or error. Also modelled: `retry`, `reset` and the `can*` gates.
- **Diff viewer** (`DiffViewer`, frontend/app/components/DiffViewer.tsx): `parseDiff` and
  the line numbers its counter hands out.
- **Workflow page** (`WorkflowPage`, frontend/app/workflow/page.tsx): which tabs are
  enabled, the guarded tab change, and the simulated upload progress.
- **Demo shop** (`Storefront`, `Checkout`; neonmart/app/page.tsx,
  neonmart/app/checkout/page.tsx, neonmart/app/lib/data.ts). The cart upsert, the subtotal
  and count folds, and the checkout link. On the checkout page: shipping, the SAVE10
  coupon, the total, and the validity flag. An effect recomputes that flag only when the
  form or the subtotal changes. `StaleAfterCouponAndShipping` proves the stale-flag bug the
  page was written to contain.
- **Configuration** (`Config`, frontend/app/lib/config.ts): the pipeline mode and the
  backend URL, with the environment as a parameter.
- **Shared modules.** `Wrappers` has `Option` and `Result`. `Text` has string helpers:
  split and join, trimming, decimal numerals, padding. `Js` has the JavaScript
  semantics the front-end relies on: JSON values, truthiness, `String(v)`, `Number(s)`,
  `trim`, and the case conversions. `Types` has the records of
  frontend/app/lib/types.ts.

Where a description of the system and its code differ, the model follows the code.
- The runner as written has no environment provisioning, no executable lookup, no URL
  rewriting and no per-run unique file name. It always uses `temp/test_run.spec.ts`. So
  these features are absent from the model.
- Creating the directory and writing the file happen before the `try`. A failure there
  escapes as an exception (`Raised`) instead of becoming a result.
- The configuration warning at frontend/app/lib/config.ts:30-34 can never fire, because the
  URL always falls back to a non-empty default. `Config.BackendUrlNeverEmpty` proves this.

## Model

| member | source | states |
|---|---|---|
| PlaywrightRunner.Interpret | backend/playwright_runner.py:37-68 | Status is Passed exactly when the process exited with code 0. A normal exit passes stdout and stderr on, with a missing stream read as "". A timeout gives empty stdout and stderr "Test execution timed out after <duration>ms". Any other fault gives empty stdout and stderr "Error running test: <message>". Every result carries the measured duration and no screenshot. |
| PlaywrightRunner.TimeoutMessageStatesDuration | backend/playwright_runner.py:50-58 | The timeout's stderr starts with the fixed prefix and ends in "ms". The text between them is a numeral whose value is the reported duration. |
| PlaywrightRunner.FaultsAreDistinguishable | backend/playwright_runner.py:50-68 | A timeout and a crash are both reported as failures. Their stderr messages never coincide. |
| PlaywrightRunner.Host.constructor | backend/playwright_runner.py:1-18 | A host with the given disk, directories and clock, and no subprocess started yet. |
| PlaywrightRunner.Host.RunPlaywrightTest | backend/playwright_runner.py:19-76 | A failure while creating the directory or writing the file escapes as `Raised`, before any subprocess starts. Otherwise exactly one subprocess is logged. It has the fixed argv, timeout 60 and the working directory, and it sees the file holding exactly `testCode`. The result is `Interpret` of the outcome, and its duration is the clock's advance, which for a time-out is at least the 60-second budget. Afterwards `temp/` exists. The test file is gone, unless its delete fails, in which case the file stays and the result is the same. |
| PlaywrightRunner.TwoRuns | backend/playwright_runner.py:19-76 | After two consecutive runs, a passing one and a timed-out one, no test file is left and two subprocesses are logged. The second subprocess sees only the second script. |
| Gemini.PyStrip | backend/gemini.py:33-34 | `str.strip()`: no Python white space is left at either end. All-white-space text strips to "". |
| Gemini.FindFence | backend/gemini.py:31 | The first index at or after `from` where "```" starts, or None when there is none. |
| Gemini.FencedGroup | backend/gemini.py:31-32 | The group never contains a fence. A match needs two fences that do not overlap. Any two fences at least eight characters apart give a match. |
| Gemini.ClearJsonResponse | backend/gemini.py:29-34 | Text without any fence is stripped whole. The result never starts or ends with white space. |
| Gemini.BlockExtracted | backend/gemini.py:29-34 | A reply has three parts: fence-free text not ending in a backtick, then a block, then anything. The block opens with "```", then optionally "json", then optionally a newline. It closes with "```", optionally after a newline. The content must have no fence and must not be read as part of the opening. Before a bare closing fence it must not end in a backtick or a newline. The group is then exactly the content, and the result is the content stripped. |
| Gemini.SingleFenceStripsWhole | backend/gemini.py:31-34 | A reply with at most one fence (an unclosed block, or none) has no match, so the whole reply is stripped. |
| Gemini.TruthinessDiffersOnEmptyContainers | backend/gemini.py:206 | For JSON values, Python and JavaScript truthiness differ exactly on the empty array and the empty object, which only JavaScript counts as true. |
| Gemini.FailingTest | backend/gemini.py:206 | The request's own failing test when it is non-empty. Otherwise the run result's `playwrightSpec` when that entry is present and truthy. Otherwise "". The chosen value is always "" or truthy. |
| Gemini.ParsedReply.DefaultRisks | backend/gemini.py:265-267 | A missing "risks" entry becomes the empty list. An existing one is kept whatever its value. No other key changes. |
| Js.Get | frontend/app/lib/backendAdapter.ts:504 | A property read is defined exactly for an object that has the key, and yields that key's value. |
| Js.ToJsString | frontend/app/lib/backendAdapter.ts:538 | `String(v)` of a string is that string. `Number(String(n))` is `n` for every integer `n`. |
| Js.Trim | neonmart/app/checkout/page.tsx:44-46 | `trim()`: never longer, no JavaScript white space at either end, and a string without white space at its ends is unchanged. |
| Js.Number | frontend/app/lib/backendAdapter.ts:352 | `Number(s)` of a non-empty string of digits is that numeral's value. |
| Js.NumberOfIntToString | frontend/app/lib/backendAdapter.ts:537 | `Number(String(n))` is `n` for every integer. |
| Js.ToLowerCase | frontend/app/lib/config.ts:15 | Same length, with every character lowered one by one. |
| Js.ToUpperCase | neonmart/app/checkout/page.tsx:58 | Same length, with every character raised one by one. |
| Text.Split | frontend/app/components/DiffViewer.tsx:19 | `split(sep)` gives one more piece than there are separators, and no piece contains the separator. |
| Text.JoinSplit | frontend/app/components/DiffViewer.tsx:19 | Joining the pieces of a split with the separator gives back the original string. |
| Text.TrimSurrounded | neonmart/app/checkout/page.tsx:58 | Trimming a string with no trimmed character at its ends, surrounded by trimmed characters, gives that string back. |
| Text.PadStart | frontend/app/lib/backendAdapter.ts:537 | `padStart(width, fill)`: a string already long enough is unchanged. Otherwise the string is prefixed with `fill` up to `width`. |
| Text.DigitsValueOfNatToString | frontend/app/lib/backendAdapter.ts:537 | Reading back the decimal numeral of `n` gives `n`. |
| BackendAdapter.FormatTimestamp | frontend/app/lib/backendAdapter.ts:533-537 | The "MM:SS" text always has a colon. For every non-negative number of seconds, parsing it back gives the same number. |
| BackendAdapter.ZeroTimestamp | frontend/app/lib/backendAdapter.ts:533-537 | Zero seconds, which is also what a non-number `t` becomes, format as "00:00". |
| BackendAdapter.ParseTimestamp | frontend/app/lib/backendAdapter.ts:352-353 | A timestamp without a colon counts as minutes only: its `Number`, or 0 for NaN, times 60. |
| BackendAdapter.ParseJoined | frontend/app/lib/backendAdapter.ts:352-353 | Two colon-free parts joined by a colon parse as the first part's number times 60 plus the second's, each NaN read as 0. |
| BackendAdapter.NormalizeEvent | frontend/app/lib/backendAdapter.ts:526-554 | An event is rejected exactly when it has neither `t`/`event` nor `timestamp`/`description`. The error has the fixed message and fields ["t", "event"]. A `t`/`event` event has `String(event)` as its description. Its timestamp is "MM:SS" of a numeric `t`, and "00:00" for any other `t`. An event with only `timestamp`/`description` gets `String` of each. |
| BackendAdapter.NormalizeEvents | frontend/app/lib/backendAdapter.ts:526-554 | The timeline is normalised element by element in order. On failure the error is that of the first event that fails. |
| BackendAdapter.NormalizeStep | frontend/app/lib/backendAdapter.ts:558-584 | A step is rejected exactly when it is neither a string nor an object with `description`. It is numbered `index + 1`, and a string step is its own description. |
| BackendAdapter.NormalizeSteps | frontend/app/lib/backendAdapter.ts:558-584 | Each accepted step is the normalisation of the input step at the same position, numbered by its index. On failure the error is that of the first failing step. |
| BackendAdapter.StepsNumberedInOrder | frontend/app/lib/backendAdapter.ts:558-584 | The steps are accepted exactly when every step is a string or has a `description`. They are then numbered 1, 2, … in input order, and string steps keep their text. |
| BackendAdapter.NormalizeAnalysis | frontend/app/lib/backendAdapter.ts:495-597 | A non-object is rejected with field "root". A missing or non-array `timeline` is rejected with field "timeline", and then a missing or non-array `reproSteps` with field "reproSteps". With both arrays, the analysis is accepted exactly when every event and every step normalises. Otherwise the first event error wins, then the first step error. An accepted timeline and step list are exactly those normalisations. `expected` and `actual` are `String` of the value when truthy, else "". The target URL is `targetUrl`, else `target_url`, else absent. |
| BackendAdapter.AnalysisAccepted | frontend/app/lib/backendAdapter.ts:526-584 | An object with both arrays is accepted exactly when every timeline item has `t` and `event` or `timestamp` and `description`, and every step is a string or has a `description`. |
| BackendAdapter.TimelineSecondsRecovered | frontend/app/lib/backendAdapter.ts:350-356 | A backend event with non-negative integer seconds, normalised and then converted back for the `generateTest` payload, has its seconds recovered exactly. |
| BackendAdapter.NormalizeTest | frontend/app/lib/backendAdapter.ts:599-632 | A non-object is rejected. Otherwise the response is rejected exactly when both spec fields are falsy or `filename` is falsy. The error lists "playwrightSpec" and then "filename" among those missing, and its message joins them with ", ". An accepted spec prefers `playwrightSpec` over `playwright_spec`. |
| BackendAdapter.NormalizeRun | frontend/app/lib/backendAdapter.ts:634-690 | A non-object is rejected. Otherwise the run is accepted exactly when the status is "passed", "failed" or "success" and stdout and stderr are each a string or absent. The errors come in the source's order: the status, with its message and the value received, then stdout, then stderr. The result is success exactly for "passed" or "success". The streams come through unchanged, with absent read as "". The screenshot is `String` of a truthy `screenshotUrl`, else of a truthy `screenshot_url`, else none. |
| BackendAdapter.RunnerResultNormalizes | frontend/app/lib/backendAdapter.ts:634-690 | Whatever the subprocess did, the runner's result dictionary is accepted by `normalizeRun`. It is "success" exactly when the process exited with code 0, and both streams come through unchanged. |
| BackendAdapter.StringsOf | frontend/app/lib/backendAdapter.ts:742-744 | `items.map(String)`: same length, each element converted with `String`. |
| BackendAdapter.NormalizePatch | frontend/app/lib/backendAdapter.ts:692-746 | A non-object is rejected. A falsy `diff`, a falsy `rationale` or a non-array `risks` is rejected, listing all of them in that order. When all three are present, the response is rejected exactly when the rationale is neither a string nor an array. The error then has the rationale message, field ["rationale"] and the raw value. An array rationale is joined with "\n", and a string one is kept. Every risk is converted with `String`. |
| BackendAdapter.BackendTimeline | frontend/app/lib/backendAdapter.ts:350-358 | One backend event per timeline entry, in order. Each one's seconds are the parsed "MM:SS" timestamp, with the description kept. |
| BackendAdapter.StepDescriptions | frontend/app/lib/backendAdapter.ts:363 | The payload's steps are the descriptions, in order. |
| BackendAdapter.TestPayload | frontend/app/lib/backendAdapter.ts:360-367 | The title is the expected behaviour, or "Bug Analysis" when it is empty. A non-empty explicit target URL wins over the analysis's own. The timeline and steps are converted as above. |
| BackendAdapter.ErrorLog | frontend/app/lib/backendAdapter.ts:451-457 | The non-empty streams, stderr first, joined by "\n\n--- Output ---\n\n"; "" when both are empty. |
| BackendAdapter.PatchTitle | frontend/app/lib/backendAdapter.ts:438-440 | "Bug Analysis" when there is no expected behaviour. Otherwise a prefix of it, at most 100 characters long: all of it when it fits, exactly 100 characters when it does not. |
| BackendAdapter.BuildPatchPayload | frontend/app/lib/backendAdapter.ts:419-466 | The error log is never empty. It is "No error log available" when both streams are empty, else the merged log, which starts with stderr when stderr is non-empty. The title is truncated as above, and an empty target URL is sent as null. `failing_test` is left undefined exactly for a failed run and is null otherwise. The run result is passed on unchanged. The analysis half carries the timeline converted to `{t, event}`, the step descriptions, `expected` and `actual`. |
| BackendAdapter.PatchTimelineKeepsSeconds | frontend/app/lib/backendAdapter.ts:425-436 | An event with non-negative integer seconds, normalised and then put into the `generatePatch` payload, carries its seconds exactly. |
| BackendAdapter.TrimTrailingSlash | frontend/app/lib/backendAdapter.ts:205 | One trailing "/" is removed and nothing else changes. A URL without a trailing slash is unchanged. |
| BackendAdapter.Without | frontend/app/lib/backendAdapter.ts:214 | After `filter(cb => cb !== x)`, `x` is gone. Every other listener keeps its number of subscriptions: the multiset loses exactly the copies of `x`. |
| BackendAdapter.WithoutConcat | frontend/app/lib/backendAdapter.ts:214 | Filtering a list is filtering each part in turn, so the listeners kept stay in their original order. |
| BackendAdapter.WithoutAbsent | frontend/app/lib/backendAdapter.ts:214 | Unsubscribing a callback that is not subscribed leaves the listener list as it is. |
| BackendAdapter.Deliveries | frontend/app/lib/backendAdapter.ts:227 | One call per listener, in order, each with the same record. |
| BackendAdapter.HttpAdapter.constructor | frontend/app/lib/backendAdapter.ts:199-206 | The base URL is the given one without its trailing slash. There is no last call and no listener. |
| BackendAdapter.HttpAdapter.OnApiCall | frontend/app/lib/backendAdapter.ts:211-212 | The callback is appended to the listeners and nothing else changes. |
| BackendAdapter.HttpAdapter.Unsubscribe | frontend/app/lib/backendAdapter.ts:213-215 | The listeners become `Without` of the old ones. Every subscription of the callback is dropped, and the rest keep their count and order. Nothing else changes. |
| BackendAdapter.HttpAdapter.NotifyApiCall | frontend/app/lib/backendAdapter.ts:221-228 | The record becomes the last API call (what `getLastApiCall` returns). Every current listener is called with it once, in subscription order. The listeners themselves are unchanged. |
| BackendAdapter.UnsubscribedListenerIsNotCalled | frontend/app/lib/backendAdapter.ts:211-228 | After unsubscribing, a callback is not called by the next notification, while a listener that is still subscribed is. |
| Workflow.InitialSteps | frontend/app/lib/usePatchpilotWorkflow.ts:30-46 | All six steps are present and idle with no error. |
| Workflow.WithStatus | frontend/app/lib/usePatchpilotWorkflow.ts:55-63 | `updateStepStatus`: the named step gets the new status and error. Every other step is unchanged. |
| Workflow.WithStatusTwice | frontend/app/lib/usePatchpilotWorkflow.ts:55-63 | A later status of the same step replaces an earlier one. |
| Workflow.FillSlot | frontend/app/lib/usePatchpilotWorkflow.ts:71-174 | An action in sample mode fills exactly its own data slot with its sample record, and no other slot changes. |
| Workflow.Predecessor | frontend/app/lib/usePatchpilotWorkflow.ts:222-235 | Every step but the upload has a predecessor. |
| Workflow.GatesFollowPipeline | frontend/app/lib/usePatchpilotWorkflow.ts:222-235 | `canAnalyze` holds exactly when the upload succeeded. Each later gate holds exactly when its predecessor succeeded and its own step is not loading. `canGeneratePatch` also needs a failed run result. |
| Workflow.AnalyzeGateIgnoresLoading | frontend/app/lib/usePatchpilotWorkflow.ts:222 | Unlike the other gates, `canAnalyze` stays open while the analysis is loading. |
| Workflow.GatesHaveInputs | frontend/app/lib/usePatchpilotWorkflow.ts:222-235 | In a consistent state each open gate guarantees the record its action needs: the file, the analysis, the test, a failed run, or the patch. |
| Workflow.FinishKeepsConsistent | frontend/app/lib/usePatchpilotWorkflow.ts:71-174 | The loading, success and error transitions of an action keep the state consistent. In a consistent state, errors sit exactly on failed steps and every succeeded step has its record. |
| Workflow.PatchpilotWorkflow.constructor | frontend/app/lib/usePatchpilotWorkflow.ts:35-53 | Sample mode is off, there is no file and no current step, the steps are initial and every slot is empty. |
| Workflow.PatchpilotWorkflow.SetSampleMode | frontend/app/lib/usePatchpilotWorkflow.ts:36 | Only the sample mode changes. |
| Workflow.PatchpilotWorkflow.UpdateStepStatus | frontend/app/lib/usePatchpilotWorkflow.ts:55-63 | The steps become `WithStatus` of the old steps, and nothing else changes. |
| Workflow.PatchpilotWorkflow.SetVideo | frontend/app/lib/usePatchpilotWorkflow.ts:65-69 | The file is stored, the upload succeeds, and the upload becomes the current step. The data are unchanged. |
| Workflow.PatchpilotWorkflow.Begin | frontend/app/lib/usePatchpilotWorkflow.ts:71-73 | The step becomes current and loading. The sample mode the action was created with is captured. |
| Workflow.PatchpilotWorkflow.Finish | frontend/app/lib/usePatchpilotWorkflow.ts:75-93 | With the captured sample mode, the step's slot gets its sample and the step succeeds. Without it, the step fails with "API integration not yet implemented. Enable Sample Mode to test." and the data are unchanged. |
| Workflow.PatchpilotWorkflow.RunAction | frontend/app/lib/usePatchpilotWorkflow.ts:71-174 | An action run to completion moves its step from loading to success and fills only its own slot (sample mode), or ends in the error with the data unchanged. |
| Workflow.PatchpilotWorkflow.Retry | frontend/app/lib/usePatchpilotWorkflow.ts:176-199 | Retrying the upload changes nothing. Retrying any other step runs that step's action. |
| Workflow.PatchpilotWorkflow.Reset | frontend/app/lib/usePatchpilotWorkflow.ts:201-219 | The steps, data, file and current step return to their initial values. The sample mode stays as it was. |
| Workflow.SampleWalkthrough | frontend/app/lib/usePatchpilotWorkflow.ts:65-174 | In sample mode an upload followed by the five actions leaves every step succeeded and every slot holding its sample. |
| DiffViewer.ClassifyLine | frontend/app/components/DiffViewer.tsx:26-41 | "@@" lines are hunks with no number. "+" (not "+++") lines are additions numbered counter + 1. "-" (not "---") lines are removals numbered with the counter as it stands. Lines starting with "\\" are unnumbered context. Every other line, "+++"/"---" headers included, is context numbered counter + 1. Additions and removals drop their first character. Numbered context drops one leading space. Hunks and unnumbered lines keep the whole line. |
| DiffViewer.Entries | frontend/app/components/DiffViewer.tsx:19-44 | One entry per line. |
| DiffViewer.ParseDiff | frontend/app/components/DiffViewer.tsx:18-45 | The loop yields exactly one entry per "\n"-separated line, in order. Each line is classified with the counter that the lines before it left behind. |
| DiffViewer.Range | frontend/app/components/DiffViewer.tsx:21 | `[1, …, n]`. |
| DiffViewer.EntriesSnoc | frontend/app/components/DiffViewer.tsx:23-42 | Appending a line appends its classification at the current counter. |
| DiffViewer.NumbersAreConsecutive | frontend/app/components/DiffViewer.tsx:21-41 | The numbers on additions and numbered context lines are exactly 1, 2, 3, … in order, with no gap and no repeat. |
| DiffViewer.RemoveCarriesPreviousNumber | frontend/app/components/DiffViewer.tsx:32-34 | A removed line carries the number of the last numbered line before it (0 when there is none) and does not move the counter. |
| WorkflowPage.IsTabEnabled | frontend/app/workflow/page.tsx:86-102 | The upload tab is always enabled, and an unknown tab never is. |
| WorkflowPage.TabOf | frontend/app/workflow/page.tsx:159-166 | Every step's tab is one of the six tabs. |
| WorkflowPage.TabsMatchGates | frontend/app/workflow/page.tsx:86-102 | The analysis, test, results, patch and export tabs are enabled by the success of the upload, analysis, test, run and patch steps; the patch tab also needs a failed run. So an open gate always has its tab enabled. The analysis tab is enabled exactly when its gate is open. A later gate is open exactly when its tab is enabled and the step is not loading. |
| WorkflowPage.NextProgress | frontend/app/workflow/page.tsx:118-124 | Below 90 the updater adds 10. From 90 on it returns 90. |
| WorkflowPage.ProgressIsCapped | frontend/app/workflow/page.tsx:117-125 | From 0, the progress after `n` ticks is `10n` capped at 90, so it never exceeds 90. |
| WorkflowPage.TickKeepsTens | frontend/app/workflow/page.tsx:118-124 | A tick from a multiple of 10 no larger than 90 gives a multiple of 10 no larger than 90. This is the `% 10 == 0` part of the page state's invariant. |
| WorkflowPage.CapNeedsTenStepsFromZero | frontend/app/workflow/page.tsx:118-124 | The cap needs that invariant: from 85, which is not a multiple of 10, one tick gives 95. |
| WorkflowPage.WorkflowPageState.constructor | frontend/app/workflow/page.tsx:51-56 | The upload tab is active, progress is 0, and nothing is uploading. |
| WorkflowPage.WorkflowPageState.RequestTab | frontend/app/workflow/page.tsx:273-277 | The tab changes to the requested one exactly when it is enabled. A disabled tab leaves the active tab unchanged. |
| WorkflowPage.WorkflowPageState.StartUpload | frontend/app/workflow/page.tsx:110-125 | Without a file nothing changes. Otherwise the upload is shown, progress restarts at 0, and the interval runs. |
| WorkflowPage.WorkflowPageState.Tick | frontend/app/workflow/page.tsx:117-125 | The progress becomes the updater's value and stays at or below 90. The interval stops once it has reached 90. |
| WorkflowPage.WorkflowPageState.FinishUpload | frontend/app/workflow/page.tsx:129-140 | After the analysis the progress is 100 and the interval is cleared. |
| WorkflowPage.WorkflowPageState.SettleUpload | frontend/app/workflow/page.tsx:130-137 | The upload indicator is hidden and progress is back at 0. |
| Storefront.FindIndex | neonmart/app/page.tsx:20 | The first line with the product's id, or -1 exactly when there is none. |
| Storefront.AddedTo | neonmart/app/page.tsx:18-29 | After `addToCart(p)` the product is in the cart with at least one unit. The cart is one line longer exactly when no line had the product. |
| Storefront.SumZero | neonmart/app/page.tsx:14 | A fold of quantities or line totals is 0 exactly when every term is 0. |
| Storefront.Subtotal | neonmart/app/page.tsx:13-16 | The subtotal is 0 exactly when every line costs nothing. |
| Storefront.Count | neonmart/app/page.tsx:41 | With at least one unit per line, the count is 0 exactly for the empty cart. |
| Storefront.AddKeepsOtherLines | neonmart/app/page.tsx:20-26 | Adding a product already in the cart raises only that line's quantity by one, at the same index. Adding a new product appends `{p, qty: 1}` and keeps the existing lines. |
| Storefront.AddKeepsIdsUnique | neonmart/app/page.tsx:18-29 | Product ids stay unique, and quantities positive, across any add. |
| Storefront.AddRaisesCount | neonmart/app/page.tsx:41 | Each add raises the cart count, the sum of the quantities, by exactly one. |
| Storefront.AddRaisesSubtotal | neonmart/app/page.tsx:13-26 | Each add raises the sum of price × quantity by the price on the affected line: the line already in the cart, or the new product. |
| Storefront.SumAppend | neonmart/app/page.tsx:14 | The fold over a cart with one more line adds that line's term. |
| Storefront.SumUpdate | neonmart/app/page.tsx:14 | Replacing one line changes the fold by the difference of that line's terms. |
| Storefront.CountCoversLines | neonmart/app/page.tsx:41 | With at least one unit per line, the count is at least the number of lines. |
| Storefront.CheckoutLink | neonmart/app/page.tsx:124-129 | The link is enabled exactly when the cart has lines. Its target is "/checkout?subtotal=" followed by a numeral whose value is the subtotal. |
| Storefront.Shop.constructor | neonmart/app/page.tsx:10-11 | The cart is empty and closed. |
| Storefront.Shop.AddToCart | neonmart/app/page.tsx:18-29 | The cart becomes the upsert of the product and opens. The count rises by one, and ids stay unique. |
| Storefront.ExampleBasket | neonmart/app/lib/data.ts:1-13 | Two hoodies and a pair of sneakers make two lines, count 3 and subtotal 307. |
| Checkout.ShippingCost | neonmart/app/checkout/page.tsx:31 | Shipping is free exactly for standard, and 12 for express. |
| Checkout.Discount | neonmart/app/checkout/page.tsx:32 | The discount is 10 exactly when the coupon is applied, and 0 otherwise. |
| Checkout.ParseSubtotal | neonmart/app/checkout/page.tsx:19 | An absent subtotal parameter gives 0. A non-empty one gives `Number` of it. |
| Checkout.Total | neonmart/app/checkout/page.tsx:34-38 | The total is never negative, and NaN exactly when the subtotal is. It is positive exactly when subtotal + shipping exceeds the discount, and then equals subtotal + shipping − discount. |
| Checkout.FormOk | neonmart/app/checkout/page.tsx:44-48 | A form that passes the validity test has a name of at least two characters and an address of at least six, even before trimming. |
| Checkout.CouponAccepted | neonmart/app/checkout/page.tsx:58-61 | An accepted code is six characters long once trimmed, so the entered text has at least six. |
| Checkout.CouponCharacterised | neonmart/app/checkout/page.tsx:57-60 | A code is accepted exactly when, once trimmed, it has six characters that raise to S, A, V, E, 1, 0. Every other code is refused, whatever its length or letters. |
| Checkout.CouponIgnoresCase | neonmart/app/checkout/page.tsx:58 | Any six-character code without white space at its ends whose characters raise to SAVE10 is accepted, whatever mix of cases it is typed in. |
| Checkout.CouponAcceptsSave10 | neonmart/app/checkout/page.tsx:58-59 | "SAVE10" is accepted. |
| Checkout.CouponAcceptsLowerCase | neonmart/app/checkout/page.tsx:58-59 | "save10" is accepted. |
| Checkout.CouponIgnoresSurroundingSpace | neonmart/app/checkout/page.tsx:58 | Padding a code (one without white space at its ends) with any white space on either side does not change whether it is accepted. |
| Checkout.LinkSubtotalRoundTrip | neonmart/app/checkout/page.tsx:19 | The subtotal the cart writes into the checkout link is the subtotal the checkout page reads from it. |
| Checkout.AbsentSubtotalNeverValid | neonmart/app/checkout/page.tsx:19-48 | Without a subtotal parameter the base is 0, and no form can be valid. |
| Checkout.CheckoutPage.constructor | neonmart/app/checkout/page.tsx:19-41 | The subtotal is read from the parameter, with standard shipping, no coupon and an empty form. The validity flag is false and agrees with the state. |
| Checkout.CheckoutPage.RunValidityEffect | neonmart/app/checkout/page.tsx:42-53 | The flag becomes the validity test only when a form field changed. The test is name trimmed longer than 1, "@" in the email, address trimmed longer than 5, subtotal > 0 and total > 0. Otherwise the flag keeps its old value. |
| Checkout.CheckoutPage.SetForm | neonmart/app/checkout/page.tsx:85-101 | Changing a form field brings the flag up to date. Re-entering the same value leaves the flag as it was. |
| Checkout.CheckoutPage.SetShipping | neonmart/app/checkout/page.tsx:110-113 | Shipping changes and the flag is not recomputed. |
| Checkout.CheckoutPage.SetCoupon | neonmart/app/checkout/page.tsx:125 | The entered code changes and the flag is not recomputed. |
| Checkout.CheckoutPage.ApplyCoupon | neonmart/app/checkout/page.tsx:57-60 | The coupon is applied exactly when the trimmed, upper-cased code is "SAVE10", and cleared otherwise. The flag is not recomputed. |
| Checkout.SubtotalTen | neonmart/app/checkout/page.tsx:19 | The parameter "10" gives the subtotal 10. |
| Checkout.StaleAfterCouponAndShipping | neonmart/app/checkout/page.tsx:40-53 | Start with subtotal 10, apply SAVE10 (total 0) and fill in a good form: the flag is false. Switching to express makes the total 12 and the form acceptable, yet the flag stays false, out of date with the state. |
| Config.GetPipelineMode | frontend/app/lib/config.ts:14-21 | The mode is backend exactly when the variable is set and lower-cases to "backend". An unset or unrecognised value gives sample. |
| Config.ModeIgnoresCase | frontend/app/lib/config.ts:15 | Two settings that lower-case alike select the same mode. |
| Config.UpperCaseBackend | frontend/app/lib/config.ts:15-17 | "BACKEND" selects the backend pipeline. |
| Config.ResolveConfig | frontend/app/lib/config.ts:23-27 | The backend URL is the variable unless it is unset or empty, which gives "http://localhost:8000". Development holds exactly when NODE_ENV is "development". |
| Config.BackendUrlNeverEmpty | frontend/app/lib/config.ts:30-34 | The backend URL is never empty, so the warning about backend mode without a URL is never issued. |

## Left out

- The real subprocess, clock and file system. The subprocess outcome, its duration, and whether the setup or the delete fails are parameters chosen by the environment. `npx` and Playwright themselves are not part of this model.
- The duration is a whole number of milliseconds. The truncation of the float difference `(time.time() - start_time) * 1000` by `int(...)` is not modelled.
- A write that fails part-way, which could leave an empty or partial file behind, is modelled as leaving the disk unchanged.
- The generative-model calls of backend/gemini.py (upload, `generate_content`, retries), the prompts, `json.loads` and the pydantic response classes are foreign, non-deterministic API. Only `clear_json_response`, the `failing_test` choice and the `risks` default are modelled.
- backend/video_utils.py (frame decoding with library numerics), backend/app.py (routing) and backend/schemas.py are not part of this model. Note that backend/schemas.py's `PatchRequest` has no `run_result` and its `PatchResponse` has no `risks`: the model follows the code of backend/gemini.py.
- `Gemini.FailingTest`: a `failing_test` of `None` is modelled as "". `run_result` is modelled as an optional dictionary.
- `HttpAdapter.request` (fetch, status codes, Blob sizes, ISO time stamps, building `ApiCallInfo`), the mock adapter, `createAdapter` and frontend/app/lib/useBackendHealth.ts are network and polling code. API calls are modelled only from the moment an `ApiCallInfo` reaches `notifyApiCall`. `getLastApiCall` is the `lastApiCall` field.
- Listeners are modelled by identity (a number). What a callback does when called is not modelled; the calls are recorded in `delivered`.
- JSON numbers are integers, and `Number(s)` covers only an optional sign followed by decimal digits. Fractions, exponents, hexadecimal and `Infinity` are not modelled, and floating-point `Math.floor` on fractional seconds is not needed.
- String lengths are counted in code points, not UTF-16 units.
- `Js.ToLowerCase`, `Js.ToUpperCase`: only the mappings that can produce an ASCII letter are modelled (A–Z, a–z, the Kelvin sign, the long s and the dotless i). Other characters are left unchanged, and multi-character mappings such as "ß" → "SS" are not modelled.
- JavaScript's `in` on arrays (`"length" in []`) is not modelled: property tests see only object keys.
- `BackendAdapter.BuildPatchPayload`: the constant `original_code: null` field is not represented.
- The sample fixtures of frontend/app/lib/sampleData.ts are a parameter (`Samples`) rather than their literal contents.
- The `setTimeout` delays of the hook's actions and all other async interleaving. Each action is split into `Begin` and `Finish`, so a client can interleave other calls between them; callbacks that React would create anew are not modelled beyond the captured sample mode.
- The wiring between frontend/app/workflow/page.tsx and the hook is not modelled (the page destructures fields the hook as written does not return). The page's own rendering, its animations and its other state are left out.
- All rendering and animation components, theming, motion and the canvas backgrounds are UI only.
- `fmt` and `toFixed` money formatting (neonmart/app/lib/data.ts:15) and the look of the checkout page are not modelled.
- How Next.js delivers `searchParams` to the checkout page is not modelled: the query parameter is an `Option<string>`, and `Checkout.AbsentSubtotalNeverValid` covers the case where it never arrives.
- Products are identified by their `id` alone, as in the code. Two products with the same id and different prices are allowed, which is why `Storefront.AddRaisesSubtotal` speaks of the price on the affected line.
- Gemini.BlockExtracted: the group is pinned exactly only when no fence comes before the block. For other fenced replies, `Gemini.FencedGroup` states only which fences must surround a group.
