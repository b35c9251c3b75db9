/** The front-end's HTTP adapter (frontend/app/lib/backendAdapter.ts): it checks the
    loosely typed JSON the backend returns and turns it into the front-end's typed
    records, or rejects it with a `NormalizationError` naming what is missing; it
    converts timeline timestamps between "MM:SS" and seconds; it builds the request
    payloads; and it keeps a list of listeners told of every API call. */
module BackendAdapter {
  import opened Wrappers
  import Text
  import opened Js
  import opened Types
  import PlaywrightRunner

  /** `new NormalizationError(message, missingFields, receivedData)`. */
  datatype NormalizationError = NormalizationError(message: string, missingFields: seq<string>, receivedData: Json)

  /** `String(v)` of a property that may be `undefined`. */
  function PropString(v: Option<Json>): string {
    match v
    case None => "undefined"
    case Some(j) => ToJsString(j)
  }

  // ---------------------------------------------------------------------------
  // Timestamps: seconds -> "MM:SS" (normalizeAnalysis) and "MM:SS" -> seconds
  // (generateTest / generatePatch)
  // ---------------------------------------------------------------------------

  /** JavaScript's `a % b`, whose sign follows the dividend. */
  function JsRem(a: int, b: int): int
    requires b > 0
  {
    if a >= 0 then a % b else -((-a) % b)
  }

  /** `${String(Math.floor(s / 60)).padStart(2, "0")}:${String(Math.floor(s % 60)).padStart(2, "0")}`.
      Every non-negative number of seconds reads back through `ParseTimestamp`. */
  function FormatTimestamp(seconds: int): (r: string)
    ensures ':' in r
    ensures seconds >= 0 ==> ParseTimestamp(r) == seconds
  {
    var m := Text.PadStart(Text.IntToString(seconds / 60), 2, '0');
    var s := Text.PadStart(Text.IntToString(JsRem(seconds, 60)), 2, '0');
    assert (m + ":" + s)[|m|] == ':';
    if seconds >= 0 then
      PaddedNumeral(seconds / 60);
      PaddedNumeral(seconds % 60);
      ParseJoined(m, s);
      m + ":" + s
    else m + ":" + s
  }

  /** Zero seconds format as "00:00". */
  lemma ZeroTimestamp()
    ensures FormatTimestamp(0) == "00:00"
  {
    PaddedZero();
    assert 0 / 60 == 0 && JsRem(0, 60) == 0;
  }

  lemma PaddedZero()
    ensures Text.PadStart(Text.IntToString(0), 2, '0') == "00"
  {
    var d := Text.IntToString(0);
    assert d == ['0'] by { assert Text.NatToString(0) == [Text.DigitChar(0)]; }
    var m := Text.PadStart(d, 2, '0');
    assert |m| == 2 && m[1..] == d && m[0] == '0';
  }

  /** `const [minutes, seconds] = ts.split(":").map(Number); (minutes || 0) * 60 + (seconds || 0)`:
      a missing or non-numeric part counts as 0, so a value without a colon is read as
      minutes alone. */
  function ParseTimestamp(ts: string): (r: int)
    ensures ':' !in ts ==> r == OrZero(Number(ts)) * 60
  {
    var parts := Text.Split(ts, ':');
    var minutes := OrZero(Number(parts[0]));
    var seconds := if |parts| > 1 then OrZero(Number(parts[1])) else 0;
    assert ':' !in ts ==> parts == [ts] by {
      if ':' !in ts { Text.SplitWithoutSeparator(ts, ':'); }
    }
    minutes * 60 + seconds
  }

  /** Splitting at the first separator. */
  lemma {:induction false} SplitAtSeparator(a: string, b: string, sep: char)
    requires sep !in a
    ensures Text.Split(a + [sep] + b, sep) == [a] + Text.Split(b, sep)
  {
    if |a| == 0 {
      assert a + [sep] + b == [sep] + b;
      assert ([sep] + b)[1..] == b;
    } else {
      assert sep !in a[1..];
      SplitAtSeparator(a[1..], b, sep);
      assert (a + [sep] + b)[1..] == a[1..] + [sep] + b;
      assert [a[0]] + a[1..] == a;
    }
  }

  /** A zero-padded numeral reads back as its number. */
  lemma PaddedNumeral(n: nat)
    ensures var s := Text.PadStart(Text.NatToString(n), 2, '0');
      ':' !in s && Number(s) == Finite(n)
  {
    var d := Text.NatToString(n);
    var s := Text.PadStart(d, 2, '0');
    Text.DigitsValueOfNatToString(n);
    var z := s[..|s| - |d|];
    assert s == z + d;
    Text.DigitsValueLeadingZeros(z, d);
    assert ':' !in s by {
      forall i | 0 <= i < |s| ensures s[i] != ':' {
        if i >= |z| { assert s[i] == d[i - |z|]; }
      }
    }
  }

  /** Parsing two colon-free parts joined by a colon reads each part as a number. */
  lemma ParseJoined(m: string, s: string)
    requires ':' !in m && ':' !in s
    ensures ParseTimestamp(m + [':'] + s) == OrZero(Number(m)) * 60 + OrZero(Number(s))
  {
    SplitAtSeparator(m, s, ':');
    Text.SplitWithoutSeparator(s, ':');
    assert Text.Split(m + [':'] + s, ':') == [m, s];
  }

  // ---------------------------------------------------------------------------
  // normalizeAnalysis
  // ---------------------------------------------------------------------------

  const TimelineEventError: string :=
    "Timeline event missing required fields (expected 't' and 'event' or 'timestamp' and 'description')"
  const ReproStepError: string := "Repro step must be a string or object with 'description' field"

  /** One timeline event: the backend's `{t, event}` (a non-number `t` counts as 0
      seconds) or the front-end's own `{timestamp, description}`. */
  function NormalizeEvent(event: Json): (r: Result<TimelineEvent, NormalizationError>)
    ensures r.Err? <==> !(Has(event, "t") && Has(event, "event"))
                        && !(Has(event, "timestamp") && Has(event, "description"))
    ensures r.Err? ==> r.error == NormalizationError(TimelineEventError, ["t", "event"], event)
    ensures Has(event, "t") && Has(event, "event") ==>
      r.Ok? && r.value.description == ToJsString(event.fields["event"])
      && (event.fields["t"].JNum? ==> r.value.timestamp == FormatTimestamp(event.fields["t"].n))
      && (!event.fields["t"].JNum? ==> r.value.timestamp == "00:00")
    ensures !(Has(event, "t") && Has(event, "event")) && Has(event, "timestamp") && Has(event, "description") ==>
      r == Ok(TimelineEvent(ToJsString(event.fields["timestamp"]), ToJsString(event.fields["description"])))
  {
    ZeroTimestamp();
    if IsObjectLike(event) && Has(event, "t") && Has(event, "event") then
      var t := event.fields["t"];
      var seconds := if t.JNum? then t.n else 0;
      Ok(TimelineEvent(FormatTimestamp(seconds), ToJsString(event.fields["event"])))
    else if IsObjectLike(event) && Has(event, "timestamp") && Has(event, "description") then
      Ok(TimelineEvent(ToJsString(event.fields["timestamp"]), ToJsString(event.fields["description"])))
    else
      Err(NormalizationError(TimelineEventError, ["t", "event"], event))
  }

  /** `timeline.map(...)`: every event normalised in order; the first bad one raises. */
  function NormalizeEvents(events: seq<Json>): (r: Result<seq<TimelineEvent>, NormalizationError>)
    ensures r.Ok? ==> (|r.value| == |events|
      && forall i :: 0 <= i < |events| ==> NormalizeEvent(events[i]) == Ok(r.value[i]))
    ensures r.Err? ==> exists i :: (0 <= i < |events| && NormalizeEvent(events[i]) == Err(r.error)
      && forall j :: 0 <= j < i ==> NormalizeEvent(events[j]).Ok?)
  {
    if |events| == 0 then Ok([])
    else
      match NormalizeEvent(events[0])
      case Err(e) => Err(e)
      case Ok(first) =>
        match NormalizeEvents(events[1..])
        case Err(e) =>
          FirstEventErrorShifts(events, e);
          Err(e)
        case Ok(rest) =>
          assert forall i :: 1 <= i < |events| ==> events[i] == events[1..][i - 1];
          Ok([first] + rest)
  }

  /** The first failing event of the tail, behind an accepted head, is the first
      failing event of the whole list. */
  lemma FirstEventErrorShifts(events: seq<Json>, e: NormalizationError)
    requires |events| > 0 && NormalizeEvent(events[0]).Ok?
    requires exists i :: (0 <= i < |events| - 1 && NormalizeEvent(events[1..][i]) == Err(e)
      && forall j :: 0 <= j < i ==> NormalizeEvent(events[1..][j]).Ok?)
    ensures exists i :: (0 <= i < |events| && NormalizeEvent(events[i]) == Err(e)
      && forall j :: 0 <= j < i ==> NormalizeEvent(events[j]).Ok?)
  {
    var i :| 0 <= i < |events| - 1 && NormalizeEvent(events[1..][i]) == Err(e)
      && forall j :: 0 <= j < i ==> NormalizeEvent(events[1..][j]).Ok?;
    assert forall j :: 0 <= j < i + 1 ==> NormalizeEvent(events[j]).Ok? by {
      forall j | 0 <= j < i + 1 ensures NormalizeEvent(events[j]).Ok? {
        if j > 0 { assert events[j] == events[1..][j - 1]; }
      }
    }
    assert NormalizeEvent(events[i + 1]) == Err(e);
  }

  /** One reproduction step at position `index`: a string, or an object with a
      `description`; it is numbered `index + 1`. */
  function NormalizeStep(step: Json, index: nat): (r: Result<ReproductionStep, NormalizationError>)
    ensures r.Err? <==> !step.JStr? && !Has(step, "description")
    ensures r.Err? ==> r.error == NormalizationError(ReproStepError, ["description"], step)
    ensures r.Ok? ==> r.value.number == index + 1
    ensures r.Ok? && step.JStr? ==> r.value.description == step.s
  {
    if step.JStr? then Ok(ReproductionStep(index + 1, step.s))
    else if IsObjectLike(step) && Has(step, "description") then
      Ok(ReproductionStep(index + 1, ToJsString(step.fields["description"])))
    else Err(NormalizationError(ReproStepError, ["description"], step))
  }

  /** `reproSteps.map((step, index) => ...)` from position `from` on. */
  function NormalizeSteps(steps: seq<Json>, from: nat): (r: Result<seq<ReproductionStep>, NormalizationError>)
    requires from <= |steps|
    decreases |steps| - from
    ensures r.Ok? ==> (|r.value| == |steps| - from
      && forall i :: from <= i < |steps| ==> NormalizeStep(steps[i], i) == Ok(r.value[i - from]))
    ensures r.Err? ==> exists i :: (from <= i < |steps| && NormalizeStep(steps[i], i) == Err(r.error)
      && forall j :: from <= j < i ==> NormalizeStep(steps[j], j).Ok?)
  {
    if from == |steps| then Ok([])
    else
      match NormalizeStep(steps[from], from)
      case Err(e) => Err(e)
      case Ok(first) =>
        match NormalizeSteps(steps, from + 1)
        case Err(e) =>
          var i :| from + 1 <= i < |steps| && NormalizeStep(steps[i], i) == Err(e)
            && forall j :: from + 1 <= j < i ==> NormalizeStep(steps[j], j).Ok?;
          assert forall j :: from <= j < i ==> NormalizeStep(steps[j], j).Ok?;
          Err(e)
        case Ok(rest) => Ok([first] + rest)
  }

  /** Normalised reproduction steps are numbered 1, 2, ... in input order and keep each
      string step as its description; the list is rejected exactly when some step is
      neither a string nor an object with a `description`. */
  lemma StepsNumberedInOrder(steps: seq<Json>)
    ensures NormalizeSteps(steps, 0).Ok? <==> forall i :: 0 <= i < |steps| ==> steps[i].JStr? || Has(steps[i], "description")
    ensures var r := NormalizeSteps(steps, 0);
      r.Ok? ==> |r.value| == |steps| && forall i :: 0 <= i < |steps| ==>
        r.value[i].number == i + 1 && (steps[i].JStr? ==> r.value[i].description == steps[i].s)
  {
    if NormalizeSteps(steps, 0).Err? {
      var i :| 0 <= i < |steps| && NormalizeStep(steps[i], i).Err?;
    } else {
      StepsAllOk(steps, 0);
      var r := NormalizeSteps(steps, 0).value;
      forall i | 0 <= i < |steps|
        ensures r[i].number == i + 1 && (steps[i].JStr? ==> r[i].description == steps[i].s)
      {
        assert NormalizeStep(steps[i], i) == Ok(r[i - 0]);
      }
    }
  }

  lemma {:induction false} StepsAllOk(steps: seq<Json>, from: nat)
    requires from <= |steps|
    requires NormalizeSteps(steps, from).Ok?
    ensures forall i :: from <= i < |steps| ==> steps[i].JStr? || Has(steps[i], "description")
    decreases |steps| - from
  {
    if from < |steps| {
      StepsAllOk(steps, from + 1);
    }
  }

  /** `normalizeAnalysis(raw)`. */
  function NormalizeAnalysis(raw: Json): (r: Result<AnalysisResult, NormalizationError>)
    ensures !IsObjectLike(raw) ==> r == Err(NormalizationError("Analysis response must be an object", ["root"], raw))
    ensures IsObjectLike(raw) && !(Get(raw, "timeline").Some? && Get(raw, "timeline").value.JArr?) ==>
      r == Err(NormalizationError("Analysis response missing 'timeline' array", ["timeline"], raw))
    ensures r.Ok? ==> (raw.JObj? && "timeline" in raw.fields && raw.fields["timeline"].JArr?
      && "reproSteps" in raw.fields && raw.fields["reproSteps"].JArr?
      && |r.value.timeline| == |raw.fields["timeline"].items|
      && |r.value.reproSteps| == |raw.fields["reproSteps"].items|)
    ensures IsObjectLike(raw) && Get(raw, "timeline").Some? && Get(raw, "timeline").value.JArr?
            && !(Get(raw, "reproSteps").Some? && Get(raw, "reproSteps").value.JArr?) ==>
      r == Err(NormalizationError("Analysis response missing 'reproSteps' array", ["reproSteps"], raw))
    ensures raw.JObj? && "timeline" in raw.fields && raw.fields["timeline"].JArr?
            && "reproSteps" in raw.fields && raw.fields["reproSteps"].JArr? ==>
      var events := NormalizeEvents(raw.fields["timeline"].items);
      var steps := NormalizeSteps(raw.fields["reproSteps"].items, 0);
      && (r.Ok? <==> events.Ok? && steps.Ok?)
      && (events.Err? ==> r == Err(events.error))
      && (events.Ok? && steps.Err? ==> r == Err(steps.error))
      && (r.Ok? ==> r.value.timeline == events.value && r.value.reproSteps == steps.value)
    ensures r.Ok? ==> r.value.expected == (if Truthy(Get(raw, "expected")) then PropString(Get(raw, "expected")) else "")
    ensures r.Ok? ==> r.value.actual == (if Truthy(Get(raw, "actual")) then PropString(Get(raw, "actual")) else "")
    ensures r.Ok? ==> (r.value.targetUrl ==
      if Truthy(Get(raw, "targetUrl")) then Some(PropString(Get(raw, "targetUrl")))
      else if Truthy(Get(raw, "target_url")) then Some(PropString(Get(raw, "target_url")))
      else None)
  {
    if !IsObjectLike(raw) then
      Err(NormalizationError("Analysis response must be an object", ["root"], raw))
    else if !(Get(raw, "timeline").Some? && Get(raw, "timeline").value.JArr?) then
      Err(NormalizationError("Analysis response missing 'timeline' array", ["timeline"], raw))
    else if !(Get(raw, "reproSteps").Some? && Get(raw, "reproSteps").value.JArr?) then
      Err(NormalizationError("Analysis response missing 'reproSteps' array", ["reproSteps"], raw))
    else
      match NormalizeEvents(raw.fields["timeline"].items)
      case Err(e) => Err(e)
      case Ok(timeline) =>
        match NormalizeSteps(raw.fields["reproSteps"].items, 0)
        case Err(e) => Err(e)
        case Ok(steps) =>
          var expected := if Truthy(Get(raw, "expected")) then PropString(Get(raw, "expected")) else "";
          var actual := if Truthy(Get(raw, "actual")) then PropString(Get(raw, "actual")) else "";
          var targetUrl :=
            if Truthy(Get(raw, "targetUrl")) then Some(PropString(Get(raw, "targetUrl")))
            else if Truthy(Get(raw, "target_url")) then Some(PropString(Get(raw, "target_url")))
            else None;
          Ok(AnalysisResult(timeline, steps, expected, actual, targetUrl))
  }

  /** An event is accepted when it has `t` and `event`, or `timestamp` and `description`. */
  predicate EventShaped(event: Json) {
    (Has(event, "t") && Has(event, "event")) || (Has(event, "timestamp") && Has(event, "description"))
  }

  /** An object with both arrays is accepted exactly when every timeline item is an
      event in one of the two shapes and every step is a string or has a
      `description`. */
  lemma AnalysisAccepted(raw: Json)
    requires raw.JObj? && "timeline" in raw.fields && raw.fields["timeline"].JArr?
    requires "reproSteps" in raw.fields && raw.fields["reproSteps"].JArr?
    ensures var events := raw.fields["timeline"].items; var steps := raw.fields["reproSteps"].items;
      NormalizeAnalysis(raw).Ok? <==>
        (forall i :: 0 <= i < |events| ==> EventShaped(events[i]))
        && (forall i :: 0 <= i < |steps| ==> steps[i].JStr? || Has(steps[i], "description"))
  {
    var events := raw.fields["timeline"].items;
    StepsNumberedInOrder(raw.fields["reproSteps"].items);
    if NormalizeEvents(events).Err? {
      var i :| 0 <= i < |events| && NormalizeEvent(events[i]) == Err(NormalizeEvents(events).error);
      assert !EventShaped(events[i]);
    } else {
      assert forall i :: 0 <= i < |events| ==> NormalizeEvent(events[i]).Ok? && EventShaped(events[i]);
    }
  }

  /** A backend timeline of `{t, event}` items with non-negative integer seconds survives
      the trip through `normalizeAnalysis` and back through the payload conversion of
      `generateTest`: every `t` is recovered. */
  lemma TimelineSecondsRecovered(raw: Json, i: nat)
    requires var r := NormalizeAnalysis(raw); r.Ok? && i < |r.value.timeline|
    requires var ev := raw.fields["timeline"].items[i];
      Has(ev, "t") && Has(ev, "event") && ev.fields["t"].JNum? && ev.fields["t"].n >= 0
    ensures ParseTimestamp(NormalizeAnalysis(raw).value.timeline[i].timestamp) == raw.fields["timeline"].items[i].fields["t"].n
  {
    var r := NormalizeAnalysis(raw).value;
    var ev := raw.fields["timeline"].items[i];
    assert NormalizeEvent(ev) == Ok(r.timeline[i]);
  }

  // ---------------------------------------------------------------------------
  // normalizeTest, normalizeRun, normalizePatch
  // ---------------------------------------------------------------------------

  /** `normalizeTest(raw)`: the spec (`playwrightSpec`, or `playwright_spec`) and the
      `filename` must both be truthy; otherwise the error lists what is missing. */
  method NormalizeTest(raw: Json) returns (r: Result<GeneratedTest, NormalizationError>)
    ensures !IsObjectLike(raw) ==> r == Err(NormalizationError("Test response must be an object", ["root"], raw))
    ensures IsObjectLike(raw) ==>
      var noSpec := !Truthy(Get(raw, "playwrightSpec")) && !Truthy(Get(raw, "playwright_spec"));
      var noFile := !Truthy(Get(raw, "filename"));
      var missing := (if noSpec then ["playwrightSpec"] else []) + (if noFile then ["filename"] else []);
      && (r.Err? <==> noSpec || noFile)
      && (r.Err? ==> r.error == NormalizationError(
            "Test response missing required fields: " + Text.Join(missing, ", "), missing, raw))
    ensures r.Ok? ==> (r.value.filename == PropString(Get(raw, "filename"))
      && r.value.playwrightSpec == (if Truthy(Get(raw, "playwrightSpec")) then PropString(Get(raw, "playwrightSpec"))
                                    else PropString(Get(raw, "playwright_spec"))))
  {
    if !IsObjectLike(raw) {
      return Err(NormalizationError("Test response must be an object", ["root"], raw));
    }
    var missing: seq<string> := [];
    if !Truthy(Get(raw, "playwrightSpec")) && !Truthy(Get(raw, "playwright_spec")) {
      missing := missing + ["playwrightSpec"];
    }
    if !Truthy(Get(raw, "filename")) {
      missing := missing + ["filename"];
    }
    if |missing| > 0 {
      return Err(NormalizationError("Test response missing required fields: " + Text.Join(missing, ", "), missing, raw));
    }
    var spec := if Truthy(Get(raw, "playwrightSpec")) then PropString(Get(raw, "playwrightSpec"))
                else if Truthy(Get(raw, "playwright_spec")) then PropString(Get(raw, "playwright_spec"))
                else "";
    r := Ok(GeneratedTest(spec, PropString(Get(raw, "filename"))));
  }

  /** The statuses `normalizeRun` accepts. */
  const RunStatuses: set<Option<Json>> := {Some(JStr("passed")), Some(JStr("failed")), Some(JStr("success"))}
  const StatusMessage: string := "Run response status must be 'passed', 'failed', or 'success', got: "

  /** `typeof v === "string" || v === undefined`. */
  predicate StringOrAbsent(v: Option<Json>) {
    v.None? || v.value.JStr?
  }

  /** `normalizeRun(raw)`: the backend's "passed" becomes "success", "failed" stays,
      "success" is accepted as is, and any other status is rejected; stdout and stderr
      must be strings when present. */
  function NormalizeRun(raw: Json): (r: Result<RunResult, NormalizationError>)
    ensures !IsObjectLike(raw) ==> r == Err(NormalizationError("Run response must be an object", ["root"], raw))
    ensures IsObjectLike(raw) ==>
      (r.Ok? <==> Get(raw, "status") in RunStatuses && StringOrAbsent(Get(raw, "stdout")) && StringOrAbsent(Get(raw, "stderr")))
    ensures IsObjectLike(raw) && Get(raw, "status") !in RunStatuses ==>
      r == Err(NormalizationError(StatusMessage + PropString(Get(raw, "status")), ["status"], raw))
    ensures IsObjectLike(raw) && Get(raw, "status") in RunStatuses && !StringOrAbsent(Get(raw, "stdout")) ==>
      r == Err(NormalizationError("Run response stdout must be string or undefined", ["stdout"], raw))
    ensures IsObjectLike(raw) && Get(raw, "status") in RunStatuses && StringOrAbsent(Get(raw, "stdout"))
            && !StringOrAbsent(Get(raw, "stderr")) ==>
      r == Err(NormalizationError("Run response stderr must be string or undefined", ["stderr"], raw))
    ensures r.Ok? ==> (r.value.status == RunSuccess <==> Get(raw, "status") in {Some(JStr("passed")), Some(JStr("success"))})
    ensures r.Ok? ==> (r.value.status == RunFailed <==> Get(raw, "status") == Some(JStr("failed")))
    ensures r.Ok? ==> (r.value.stdout == (if Has(raw, "stdout") then raw.fields["stdout"].s else "")
                       && r.value.stderr == (if Has(raw, "stderr") then raw.fields["stderr"].s else ""))
    ensures r.Ok? ==> (r.value.screenshotUrl ==
      if Truthy(Get(raw, "screenshotUrl")) then Some(PropString(Get(raw, "screenshotUrl")))
      else if Truthy(Get(raw, "screenshot_url")) then Some(PropString(Get(raw, "screenshot_url")))
      else None)
  {
    if !IsObjectLike(raw) then
      Err(NormalizationError("Run response must be an object", ["root"], raw))
    else
      var backendStatus := Get(raw, "status");
      if backendStatus !in RunStatuses then
        Err(NormalizationError(StatusMessage + PropString(backendStatus), ["status"], raw))
      else
        var status := if backendStatus == Some(JStr("failed")) then RunFailed else RunSuccess;
        var stdout := Get(raw, "stdout");
        var stderr := Get(raw, "stderr");
        if stdout.Some? && !stdout.value.JStr? then
          Err(NormalizationError("Run response stdout must be string or undefined", ["stdout"], raw))
        else if stderr.Some? && !stderr.value.JStr? then
          Err(NormalizationError("Run response stderr must be string or undefined", ["stderr"], raw))
        else
          var screenshot := Get(raw, "screenshotUrl");
          var screenshotAlt := Get(raw, "screenshot_url");
          Ok(RunResult(
            status,
            if Truthy(stdout) then PropString(stdout) else "",
            if Truthy(stderr) then PropString(stderr) else "",
            if Truthy(screenshot) then Some(PropString(screenshot))
            else if Truthy(screenshotAlt) then Some(PropString(screenshotAlt))
            else None))
  }

  /** The dictionary the backend runner returns, as JSON on the wire. */
  function RunnerResultJson(t: PlaywrightRunner.TestResult): Json {
    JObj(map[
      "status" := JStr(if t.status == PlaywrightRunner.Passed then "passed" else "failed"),
      "stdout" := JStr(t.stdout),
      "stderr" := JStr(t.stderr),
      "durationMs" := JNum(t.durationMs),
      "screenshotUrl" := match t.screenshotUrl case Some(u) => JStr(u) case None => JNull])
  }

  /** Whatever the subprocess did, the runner's result is accepted by `normalizeRun`,
      which reports "success" exactly when the test process exited with code 0, and
      passes both streams through unchanged. */
  lemma RunnerResultNormalizes(outcome: PlaywrightRunner.Outcome, durationMs: nat)
    ensures var t := PlaywrightRunner.Interpret(outcome, durationMs);
      NormalizeRun(RunnerResultJson(t)) == Ok(RunResult(
        if outcome.Exited? && outcome.returnCode == 0 then RunSuccess else RunFailed,
        t.stdout, t.stderr, None))
  {
  }

  /** `items.map(String)`. */
  function StringsOf(items: seq<Json>): (r: seq<string>)
    ensures |r| == |items| && forall i :: 0 <= i < |r| ==> r[i] == ToJsString(items[i])
  {
    seq(|items|, i requires 0 <= i < |items| => ToJsString(items[i]))
  }

  const PatchFieldsMessage: string := "Patch response missing required fields: "

  const RationaleMessage: string := "Patch response rationale must be string or array of strings"

  /** `normalizePatch(raw)`: `diff` and `rationale` must be truthy and `risks` an array,
      else all three shortcomings are listed in that order; a list rationale is joined
      with newlines, a string one is kept, any other value is rejected; every risk is
      converted to a string. */
  method NormalizePatch(raw: Json) returns (r: Result<PatchResult, NormalizationError>)
    ensures !IsObjectLike(raw) ==> r == Err(NormalizationError("Patch response must be an object", ["root"], raw))
    ensures IsObjectLike(raw) ==>
      var noDiff := !Truthy(Get(raw, "diff"));
      var noRationale := !Truthy(Get(raw, "rationale"));
      var noRisks := !(Has(raw, "risks") && raw.fields["risks"].JArr?);
      var missing := (if noDiff then ["diff"] else []) + (if noRationale then ["rationale"] else [])
                     + (if noRisks then ["risks (must be array)"] else []);
      (noDiff || noRationale || noRisks) ==>
        r == Err(NormalizationError(PatchFieldsMessage + Text.Join(missing, ", "), missing, raw))
    ensures r.Ok? ==> (raw.JObj? && Truthy(Get(raw, "diff")) && "risks" in raw.fields && raw.fields["risks"].JArr?
      && "rationale" in raw.fields
      && r.value.diff == ToJsString(raw.fields["diff"])
      && |r.value.risks| == |raw.fields["risks"].items|
      && r.value.risks == StringsOf(raw.fields["risks"].items)
      && (raw.fields["rationale"].JStr? ==> r.value.rationale == raw.fields["rationale"].s)
      && (raw.fields["rationale"].JArr? ==>
            r.value.rationale == Text.Join(StringsOf(raw.fields["rationale"].items), "\n")))
    ensures IsObjectLike(raw) && Truthy(Get(raw, "diff")) && Has(raw, "risks") && raw.fields["risks"].JArr?
            && Truthy(Get(raw, "rationale")) ==>
      (r.Err? <==> !raw.fields["rationale"].JStr? && !raw.fields["rationale"].JArr?)
    ensures IsObjectLike(raw) && Truthy(Get(raw, "diff")) && Has(raw, "risks") && raw.fields["risks"].JArr?
            && Truthy(Get(raw, "rationale")) && !raw.fields["rationale"].JStr? && !raw.fields["rationale"].JArr? ==>
      r == Err(NormalizationError(RationaleMessage, ["rationale"], raw))
  {
    if !IsObjectLike(raw) {
      return Err(NormalizationError("Patch response must be an object", ["root"], raw));
    }
    var missing: seq<string> := [];
    if !Truthy(Get(raw, "diff")) {
      missing := missing + ["diff"];
    }
    if !Truthy(Get(raw, "rationale")) {
      missing := missing + ["rationale"];
    }
    if !(Has(raw, "risks") && raw.fields["risks"].JArr?) {
      missing := missing + ["risks (must be array)"];
    }
    assert missing == (if !Truthy(Get(raw, "diff")) then ["diff"] else [])
                      + (if !Truthy(Get(raw, "rationale")) then ["rationale"] else [])
                      + (if !(Has(raw, "risks") && raw.fields["risks"].JArr?) then ["risks (must be array)"] else []);
    if |missing| > 0 {
      return Err(NormalizationError(PatchFieldsMessage + Text.Join(missing, ", "), missing, raw));
    }
    var rationaleValue := raw.fields["rationale"];
    var rationale: string;
    if rationaleValue.JArr? {
      rationale := Text.Join(StringsOf(rationaleValue.items), "\n");
    } else if rationaleValue.JStr? {
      rationale := rationaleValue.s;
    } else {
      return Err(NormalizationError(RationaleMessage, ["rationale"], raw));
    }
    var risks := raw.fields["risks"].items;
    r := Ok(PatchResult(
      ToJsString(raw.fields["diff"]),
      rationale,
      StringsOf(risks)));
  }

  // ---------------------------------------------------------------------------
  // Payloads of generateTest and generatePatch
  // ---------------------------------------------------------------------------

  datatype BackendEvent = BackendEvent(t: int, event: string)

  /** The analysis in the backend's `AnalysisResponse` shape. */
  datatype AnalysisPayload = AnalysisPayload(
    title: string,
    timeline: seq<BackendEvent>,
    reproSteps: seq<string>,
    expected: string,
    actual: string,
    targetUrl: Option<string>)

  /** `failing_test` is sent as `undefined` (left out of the JSON) or as `null`. */
  datatype Omitted = Undefined | Null

  datatype PatchPayload = PatchPayload(
    analysis: AnalysisPayload,
    errorLog: string,
    runResult: RunResult,
    failingTest: Omitted)

  /** The timeline with every "MM:SS" timestamp turned into seconds. */
  function BackendTimeline(timeline: seq<TimelineEvent>): (r: seq<BackendEvent>)
    ensures |r| == |timeline|
    ensures forall i :: 0 <= i < |r| ==>
      r[i] == BackendEvent(ParseTimestamp(timeline[i].timestamp), timeline[i].description)
  {
    seq(|timeline|, i requires 0 <= i < |timeline| =>
      BackendEvent(ParseTimestamp(timeline[i].timestamp), timeline[i].description))
  }

  function StepDescriptions(steps: seq<ReproductionStep>): (r: seq<string>)
    ensures |r| == |steps| && forall i :: 0 <= i < |r| ==> r[i] == steps[i].description
  {
    seq(|steps|, i requires 0 <= i < |steps| => steps[i].description)
  }

  /** A present, non-empty string (JavaScript truthiness of an optional string). */
  predicate Given(s: Option<string>) {
    s.Some? && s.value != ""
  }

  /** The body `generateTest` posts: the title is the expected behaviour or "Bug Analysis",
      and an explicit target URL wins over the analysis's own. */
  function TestPayload(analysis: AnalysisResult, targetUrl: Option<string>): (p: AnalysisPayload)
    ensures p.title == if analysis.expected != "" then analysis.expected else "Bug Analysis"
    ensures p.targetUrl == if Given(targetUrl) then targetUrl else analysis.targetUrl
    ensures p.timeline == BackendTimeline(analysis.timeline) && p.reproSteps == StepDescriptions(analysis.reproSteps)
    ensures p.expected == analysis.expected && p.actual == analysis.actual
  {
    AnalysisPayload(
      if analysis.expected != "" then analysis.expected else "Bug Analysis",
      BackendTimeline(analysis.timeline),
      StepDescriptions(analysis.reproSteps),
      analysis.expected,
      analysis.actual,
      if Given(targetUrl) then targetUrl else analysis.targetUrl)
  }

  const OutputSeparator: string := "\n\n--- Output ---\n\n"
  const NoErrorLog: string := "No error log available"

  /** `[stderr || "", stdout || ""].filter(Boolean).join(separator)`: the non-empty streams,
      stderr first, joined by the output separator; "" when both are empty. */
  function ErrorLog(stderr: string, stdout: string): (r: string)
    ensures stderr != "" && stdout != "" ==> r == stderr + OutputSeparator + stdout
    ensures stderr != "" && stdout == "" ==> r == stderr
    ensures stderr == "" ==> r == stdout
  {
    var kept := (if stderr != "" then [stderr] else []) + (if stdout != "" then [stdout] else []);
    assert stderr != "" && stdout != "" ==> kept[1..] == [stdout] && Text.Join(kept[1..], OutputSeparator) == stdout;
    Text.Join(kept, OutputSeparator)
  }

  /** The title `generatePatch` sends: the first 100 characters of the expected
      behaviour, or "Bug Analysis" when there is none. */
  function PatchTitle(expected: string): (r: string)
    ensures expected == "" ==> r == "Bug Analysis"
    ensures expected != "" ==> |r| <= 100 && Text.StartsWith(expected, r)
    ensures expected != "" && |expected| <= 100 ==> r == expected
    ensures expected != "" && |expected| > 100 ==> |r| == 100
  {
    if expected != "" then (if |expected| <= 100 then expected else expected[..100]) else "Bug Analysis"
  }

  /** The body `generatePatch` posts. The error log is never empty: when neither stream
      has text it is the "No error log available" placeholder. */
  function BuildPatchPayload(analysis: AnalysisResult, run: RunResult): (p: PatchPayload)
    ensures p.errorLog != ""
    ensures run.stderr == "" && run.stdout == "" ==> p.errorLog == NoErrorLog
    ensures run.stderr != "" || run.stdout != "" ==> p.errorLog == ErrorLog(run.stderr, run.stdout)
    ensures run.stderr != "" ==> Text.StartsWith(p.errorLog, run.stderr)
    ensures p.analysis.title == PatchTitle(analysis.expected)
    ensures p.analysis.targetUrl == if Given(analysis.targetUrl) then analysis.targetUrl else None
    ensures p.analysis.timeline == BackendTimeline(analysis.timeline)
    ensures p.analysis.reproSteps == StepDescriptions(analysis.reproSteps)
    ensures p.analysis.expected == analysis.expected && p.analysis.actual == analysis.actual
    ensures p.failingTest == if run.status == RunFailed then Undefined else Null
    ensures p.runResult == run
  {
    var log := ErrorLog(run.stderr, run.stdout);
    assert run.stderr != "" && run.stdout != "" ==> log[..|run.stderr|] == run.stderr;
    PatchPayload(
      AnalysisPayload(
        PatchTitle(analysis.expected),
        BackendTimeline(analysis.timeline),
        StepDescriptions(analysis.reproSteps),
        analysis.expected,
        analysis.actual,
        if Given(analysis.targetUrl) then analysis.targetUrl else None),
      if log != "" then log else NoErrorLog,
      run,
      if run.status == RunFailed then Undefined else Null)
  }

  /** `generatePatch` sends back the seconds it was given: an event with non-negative
      integer `t`, normalised and then put into the patch payload, carries that `t`. */
  lemma {:induction false} PatchTimelineKeepsSeconds(raw: Json, run: RunResult, i: nat)
    requires var r := NormalizeAnalysis(raw); r.Ok? && i < |r.value.timeline|
    requires var ev := raw.fields["timeline"].items[i];
      Has(ev, "t") && Has(ev, "event") && ev.fields["t"].JNum? && ev.fields["t"].n >= 0
    ensures var p := BuildPatchPayload(NormalizeAnalysis(raw).value, run);
      i < |p.analysis.timeline| && p.analysis.timeline[i].t == raw.fields["timeline"].items[i].fields["t"].n
  {
    TimelineSecondsRecovered(raw, i);
  }

  // ---------------------------------------------------------------------------
  // The adapter object: base URL and API-call listeners
  // ---------------------------------------------------------------------------

  /** `baseUrl.replace(/\/$/, "")`: one trailing slash removed, nothing else changed. */
  function TrimTrailingSlash(url: string): (r: string)
    ensures Text.EndsWith(url, "/") ==> r + "/" == url
    ensures !Text.EndsWith(url, "/") ==> r == url
  {
    if |url| > 0 && url[|url| - 1] == '/' then url[..|url| - 1] else url
  }

  /** The debug record of one API call. */
  datatype ApiCallInfo = ApiCallInfo(
    timestamp: string,
    endpoint: string,
    httpMethod: string,
    requestPayloadSize: Option<nat>,
    responseSize: Option<nat>,
    error: Option<string>,
    duration: Option<nat>)

  /** A subscribed callback, identified as JavaScript compares functions: by identity. */
  type Listener = nat

  /** `s.filter(cb => cb !== x)`. */
  function Without(s: seq<Listener>, x: Listener): (r: seq<Listener>)
    ensures x !in r
    ensures forall y :: y != x ==> (y in r <==> y in s)
    ensures |r| <= |s|
    ensures multiset(r) == multiset(s)[x := 0]
  {
    if |s| == 0 then [] else
      var rest := Without(s[1..], x);
      assert s == [s[0]] + s[1..];
      (if s[0] == x then [] else [s[0]]) + rest
  }

  /** Filtering works piece by piece: the listeners of `a` that are kept come before
      those of `b`, each in its own order. */
  lemma {:induction false} WithoutConcat(a: seq<Listener>, b: seq<Listener>, x: Listener)
    ensures Without(a + b, x) == Without(a, x) + Without(b, x)
  {
    if |a| > 0 {
      assert (a + b)[1..] == a[1..] + b;
      WithoutConcat(a[1..], b, x);
    } else {
      assert a + b == b;
    }
  }

  /** Removing a callback that is not subscribed leaves the list as it is. */
  lemma {:induction false} WithoutAbsent(s: seq<Listener>, x: Listener)
    requires x !in s
    ensures Without(s, x) == s
  {
    if |s| > 0 {
      assert x !in s[1..];
      WithoutAbsent(s[1..], x);
      assert [s[0]] + s[1..] == s;
    }
  }

  /** The calls one notification makes: each listener in turn, with the same record. */
  function Deliveries(listeners: seq<Listener>, info: ApiCallInfo): (r: seq<(Listener, ApiCallInfo)>)
    ensures |r| == |listeners| && forall i :: 0 <= i < |r| ==> r[i] == (listeners[i], info)
  {
    seq(|listeners|, i requires 0 <= i < |listeners| => (listeners[i], info))
  }

  class HttpAdapter {
    var baseUrl: string
    var lastApiCall: Option<ApiCallInfo>
    var listeners: seq<Listener>
    /** Every call of a listener, in order: which listener, with which record. */
    var delivered: seq<(Listener, ApiCallInfo)>

    constructor (url: string)
      ensures baseUrl == TrimTrailingSlash(url)
      ensures lastApiCall == None && listeners == [] && delivered == []
    {
      baseUrl := TrimTrailingSlash(url);
      lastApiCall := None;
      listeners := [];
      delivered := [];
    }

    /** `onApiCall(cb)`: the callback is appended to the listeners. */
    method OnApiCall(cb: Listener)
      modifies this
      ensures listeners == old(listeners) + [cb]
      ensures baseUrl == old(baseUrl) && lastApiCall == old(lastApiCall) && delivered == old(delivered)
    {
      listeners := listeners + [cb];
    }

    /** The function `onApiCall` returns: every subscription of `cb` is dropped and the
        other listeners keep their order. */
    method Unsubscribe(cb: Listener)
      modifies this
      ensures listeners == Without(old(listeners), cb)
      ensures baseUrl == old(baseUrl) && lastApiCall == old(lastApiCall) && delivered == old(delivered)
    {
      listeners := Without(listeners, cb);
    }

    /** `notifyApiCall(info)`: records `info` as the last call and calls every listener,
        in subscription order, with it. */
    method NotifyApiCall(info: ApiCallInfo)
      modifies this
      ensures lastApiCall == Some(info)
      ensures delivered == old(delivered) + Deliveries(listeners, info)
      ensures listeners == old(listeners) && baseUrl == old(baseUrl)
    {
      lastApiCall := Some(info);
      var i := 0;
      while i < |listeners|
        invariant 0 <= i <= |listeners|
        invariant delivered == old(delivered) + Deliveries(listeners[..i], info)
        invariant listeners == old(listeners) && baseUrl == old(baseUrl) && lastApiCall == Some(info)
      {
        assert Deliveries(listeners[..i + 1], info) == Deliveries(listeners[..i], info) + [(listeners[i], info)];
        delivered := delivered + [(listeners[i], info)];
        i := i + 1;
      }
      assert listeners[..i] == listeners;
    }
  }

  /** A listener that unsubscribed is not called by later notifications, and the ones
      still subscribed are. */
  method UnsubscribedListenerIsNotCalled(a: HttpAdapter, cb: Listener, other: Listener, info: ApiCallInfo)
    requires cb != other
    modifies a
    ensures a.lastApiCall == Some(info)
    ensures |a.delivered| >= |old(a.delivered)|
    ensures (cb, info) !in a.delivered[|old(a.delivered)|..]
    ensures (other, info) in a.delivered[|old(a.delivered)|..]
  {
    a.OnApiCall(cb);
    a.OnApiCall(other);
    a.Unsubscribe(cb);
    assert other in a.listeners;
    var n := |a.delivered|;
    a.NotifyApiCall(info);
    var added := a.delivered[n..];
    assert |added| == |a.listeners|;
    assert added == Deliveries(a.listeners, info);
    var j :| 0 <= j < |a.listeners| && a.listeners[j] == other;
    assert added[j] == (other, info);
  }
}
