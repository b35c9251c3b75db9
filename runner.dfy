/** The backend test runner (backend/playwright_runner.py, `run_playwright_test`):
    write the script to one fixed file, run Playwright on it as a subprocess with a
    60-second budget, turn the outcome into a result record, and delete the file.
    The disk, the clock and the subprocess are explicit: a `Host` holds the files and
    the time, and the subprocess is an abstract `Outcome` chosen by the environment. */
module PlaywrightRunner {
  import opened Wrappers
  import Text

  /** The directory created before writing, and the one file every run uses. */
  const TempDir: string := "temp"
  const TestFile: string := "temp/test_run.spec.ts"

  /** The argument vector and the timeout (in seconds) of the subprocess. */
  const Argv: seq<string> := ["npx", "playwright", "test", TestFile, "--reporter=json"]
  const TimeoutSeconds: nat := 60

  const TimeoutPrefix: string := "Test execution timed out after "
  const CrashPrefix: string := "Error running test: "

  datatype Status = Passed | Failed

  /** The dictionary the runner returns: status, captured streams, duration in
      milliseconds and a screenshot link (always `None`). */
  datatype TestResult = TestResult(
    status: Status,
    stdout: string,
    stderr: string,
    durationMs: nat,
    screenshotUrl: Option<string>)

  /** How `subprocess.run` ends: the process exits (its captured streams may be
      `None`), the 60-second budget expires, or some other exception is raised. */
  datatype Outcome =
    | Exited(returnCode: int, out: Option<string>, err: Option<string>)
    | TimedOut
    | Crashed(message: string)

  /** A failure while preparing the file, before the `try`: creating the directory,
      or opening and writing the file. */
  datatype SetupFault = NoFault | MakeDirsFault(reason: string) | WriteFault(reason: string)

  /** One subprocess invocation as the host saw it: the argument vector, the timeout,
      the working directory, and what the test file held when the process started. */
  datatype Invocation = Invocation(
    argv: seq<string>,
    timeoutSeconds: nat,
    cwd: string,
    script: Option<string>)

  /** A call of `run_playwright_test` either returns a result or lets an exception escape. */
  datatype Completion = Returned(result: TestResult) | Raised(reason: string)

  /** The result the runner builds from the subprocess outcome and the measured
      duration: "passed" exactly for exit code 0, failed otherwise; a normal exit
      passes the streams on with `None` read as ""; a timeout and any other fault
      have empty stdout and an explanatory stderr; no path sets a screenshot. */
  function Interpret(outcome: Outcome, durationMs: nat): (r: TestResult)
    ensures r.durationMs == durationMs && r.screenshotUrl == None
    ensures r.status == Passed <==> outcome.Exited? && outcome.returnCode == 0
    ensures outcome.Exited? ==> r.stdout == outcome.out.GetOr("") && r.stderr == outcome.err.GetOr("")
    ensures outcome.TimedOut? ==>
      r.stdout == "" && r.stderr == TimeoutPrefix + Text.NatToString(durationMs) + "ms"
    ensures outcome.Crashed? ==> r.stdout == "" && r.stderr == CrashPrefix + outcome.message
  {
    match outcome
    case Exited(code, out, err) =>
      TestResult(if code == 0 then Passed else Failed, out.GetOr(""), err.GetOr(""), durationMs, None)
    case TimedOut =>
      TestResult(Failed, "", TimeoutPrefix + Text.NatToString(durationMs) + "ms", durationMs, None)
    case Crashed(message) =>
      TestResult(Failed, "", CrashPrefix + message, durationMs, None)
  }

  /** The timeout message names the duration: the text between the prefix and the
      "ms" suffix is a numeral whose value is the reported `durationMs`. */
  lemma TimeoutMessageStatesDuration(durationMs: nat)
    ensures var e := Interpret(TimedOut, durationMs).stderr;
      Text.StartsWith(e, TimeoutPrefix) && Text.EndsWith(e, "ms")
      && var digits := e[|TimeoutPrefix|..|e| - 2];
         Text.AllDigits(digits) && Text.DigitsValue(digits) == durationMs
  {
    var e := Interpret(TimedOut, durationMs).stderr;
    assert e[|TimeoutPrefix|..|e| - 2] == Text.NatToString(durationMs);
    Text.DigitsValueOfNatToString(durationMs);
  }

  /** Every fault that is not a normal exit is reported as a failure whose stderr
      can be told apart: a timeout message never starts like a crash message. */
  lemma FaultsAreDistinguishable(d1: nat, d2: nat, message: string)
    ensures Interpret(TimedOut, d1).status == Failed && Interpret(Crashed(message), d2).status == Failed
    ensures Interpret(TimedOut, d1).stderr != Interpret(Crashed(message), d2).stderr
  {
    var t := Interpret(TimedOut, d1).stderr;
    var c := Interpret(Crashed(message), d2).stderr;
    assert t[0] == 'T' && c[0] == 'E';
  }

  /** The machine `run_playwright_test` runs on: its files (relative paths of the
      working directory to contents), its directories, a millisecond clock, and the
      log of subprocesses started. */
  class Host {
    var disk: map<string, string>
    var dirs: set<string>
    var clock: nat
    var invocations: seq<Invocation>
    const cwd: string

    constructor (cwd: string, disk: map<string, string>, dirs: set<string>, clock: nat)
      ensures this.cwd == cwd && this.disk == disk && this.dirs == dirs && this.clock == clock
      ensures invocations == []
    {
      this.cwd := cwd;
      this.disk := disk;
      this.dirs := dirs;
      this.clock := clock;
      this.invocations := [];
    }

    /** One call of `run_playwright_test(testCode)`. The environment decides whether
        preparing the file fails (`fault`), how the subprocess ends (`outcome`), how
        many milliseconds it takes (`elapsedMs`) and whether the final delete fails
        (`deleteFails`).
        A setup fault escapes as an exception before any subprocess starts. Otherwise
        exactly one subprocess runs, with the fixed argument vector and timeout, while
        the test file holds `testCode`; the result is `Interpret` of its outcome and of
        the time it took; and afterwards the test file is gone unless its delete failed,
        in which case the result is the same. The subprocess only times out once its
        budget of `TimeoutSeconds` has passed. */
    method RunPlaywrightTest(testCode: string, fault: SetupFault, outcome: Outcome, elapsedMs: nat, deleteFails: bool)
      returns (c: Completion)
      requires outcome.TimedOut? ==> elapsedMs >= TimeoutSeconds * 1000
      modifies this
      ensures fault.MakeDirsFault? ==> c == Raised(fault.reason) && unchanged(this)
      ensures fault.WriteFault? ==>
        c == Raised(fault.reason) && dirs == old(dirs) + {TempDir}
        && disk == old(disk) && clock == old(clock) && invocations == old(invocations)
      ensures fault.NoFault? ==>
        && c == Returned(Interpret(outcome, elapsedMs))
        && c.result.durationMs == clock - old(clock)
        && invocations == old(invocations) + [Invocation(Argv, TimeoutSeconds, cwd, Some(testCode))]
        && dirs == old(dirs) + {TempDir}
        && clock == old(clock) + elapsedMs
        && disk == (if deleteFails then old(disk)[TestFile := testCode] else old(disk) - {TestFile})
      ensures fault.NoFault? && !deleteFails ==> TestFile !in disk
    {
      // os.makedirs("temp", exist_ok=True)
      if fault.MakeDirsFault? {
        return Raised(fault.reason);
      }
      dirs := dirs + {TempDir};
      // open(test_file, "w").write(test_code)
      if fault.WriteFault? {
        return Raised(fault.reason);
      }
      disk := disk[TestFile := testCode];

      var startTime := clock;
      // try: subprocess.run([...], timeout=60, cwd=os.getcwd())
      var seen := if TestFile in disk then Some(disk[TestFile]) else None;
      invocations := invocations + [Invocation(Argv, TimeoutSeconds, cwd, seen)];
      clock := clock + elapsedMs;
      var durationMs := clock - startTime;
      var result: TestResult;
      match outcome {
        case Exited(code, out, err) =>
          var status := if code == 0 then Passed else Failed;
          result := TestResult(status, out.GetOr(""), err.GetOr(""), durationMs, None);
        case TimedOut =>
          result := TestResult(Failed, "", TimeoutPrefix + Text.NatToString(durationMs) + "ms", durationMs, None);
        case Crashed(message) =>
          result := TestResult(Failed, "", CrashPrefix + message, durationMs, None);
      }
      // finally: remove the file if it exists; a failing remove is swallowed
      if TestFile in disk && !deleteFails {
        disk := disk - {TestFile};
      }
      c := Returned(result);
    }
  }

  /** Runs on a host: a passing run followed by a timed-out one; the second run sees
      only its own script, and the file is gone after each. */
  method TwoRuns(h: Host, first: string, second: string)
    modifies h
    ensures TestFile !in h.disk
    ensures |h.invocations| == |old(h.invocations)| + 2
    ensures h.invocations[|h.invocations| - 1].script == Some(second)
  {
    var r1 := h.RunPlaywrightTest(first, NoFault, Exited(0, Some("ok"), None), 1200, false);
    assert r1.result.status == Passed && r1.result.stderr == "" && TestFile !in h.disk;
    var r2 := h.RunPlaywrightTest(second, NoFault, TimedOut, 60000, false);
    assert r2.result.status == Failed && r2.result.durationMs == 60000;
  }
}
