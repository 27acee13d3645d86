/**
 * The run trigger of app.py: the run-state record, the single-run guard
 * of run_script and the text it assembles from the script's output.
 *
 * Running the script is not modelled; its effect arrives as an Execution.
 * The clock is not modelled either: the two timestamps run_script takes
 * are parameters.
 */
module RunService {
  import opened Optional

  /** A formatted local time, as time.strftime gives it. */
  type Timestamp = string

  /** Outcome of the last run: "ok" or "error". */
  datatype Status = Ok | Error

  /** The _state record. */
  datatype RunState = RunState(
    running: bool,
    lastStart: Option<Timestamp>,
    lastEnd: Option<Timestamp>,
    lastStatus: Option<Status>)

  /** The record as the service starts. */
  const Idle := RunState(false, None, None, None)

  /** What running the script did. */
  datatype Execution =
      /** The script returned; what it wrote to stdout and to stderr. */
    | Finished(stdout: string, stderr: string)
      /** The script raised an Exception: the output so far and repr of the exception. */
    | Raised(stdout: string, stderr: string, exception: string)
      /** The script raised an exception outside Exception (SystemExit, KeyboardInterrupt), which the handler does not catch. */
    | Escaped

  /** The handler's answer. */
  datatype Response =
    | Json(code: int, status: string, message: string)
    | Html(code: int, body: string)
      /** The exception leaves the handler; no response is written. */
    | Propagated

  /** One call of run_script: whether the script file exists, the start time, what the script does, the end time. */
  datatype Request = Request(scriptExists: bool, started: Timestamp, execution: Execution, ended: Timestamp)

  const BusyCode: int := 409
  const NotFoundCode: int := 404
  const OkCode: int := 200
  const FailureCode: int := 500
  const BusyMessage: string := "Ya hay una ejecución en curso."
  const NotFoundPrefix: string := "No existe el archivo "

  const StdoutHeader: string := "=== STDOUT ===\n"
  const StderrHeader: string := "=== STDERR ===\n"
  const PartialStdoutHeader: string := "=== STDOUT (parcial) ===\n"
  const ErrorHeader: string := "=== ERROR ===\n"
  const ExceptionTag: string := "\n[Exception captured in app]: "
  const Placeholder: string := "(No hubo salida por stdout ni stderr)"

  /** The ASCII characters str.strip removes: space, tab to carriage return, and the separators 0x1C to 0x1F. */
  predicate IsSpace(c: char) {
    c == ' ' || ('\t' <= c <= '\r') || ('\U{1C}' <= c <= '\U{1F}')
  }

  /** s.strip() == "": s holds nothing but white space. */
  predicate IsBlank(s: string) {
    forall i :: 0 <= i < |s| ==> IsSpace(s[i])
  }

  /** A section of the output: a header, the text and a line break; nothing when the text is empty. */
  function Section(header: string, text: string): string {
    if text == "" then "" else header + text + "\n"
  }

  /** The output shown after a run that finished. */
  function SuccessText(stdout: string, stderr: string): string {
    if stdout == "" && stderr == "" then Placeholder
    else Section(StdoutHeader, stdout) + Section(StderrHeader, stderr)
  }

  /** The captured error text: stderr followed by the exception. */
  function ErrorText(stderr: string, exception: string): string {
    stderr + (ExceptionTag + exception + "\n")
  }

  /** The ERROR section: the captured error text and a blank line. */
  function ErrorSection(stderr: string, exception: string): string {
    ErrorHeader + ErrorText(stderr, exception) + "\n"
  }

  /** The output shown after a run that raised. */
  function FailureText(stdout: string, stderr: string, exception: string): string {
    Section(PartialStdoutHeader, stdout) + ErrorSection(stderr, exception)
  }

  /** The output wrapped in a <pre> element, as the HTML response body. */
  function Pre(text: string): string {
    "<pre>" + text + "</pre>"
  }

  /** The outcome of the guard at the head of run_script. */
  datatype Admission =
      /** The call is answered at once and the record is left as it was. */
    | Rejected(response: Response)
      /** A run has started; the record while it is in progress. */
    | Admitted(inProgress: RunState)

  /** The guard of run_script: the busy check, the file check, then marking the run as started. */
  function Admit(s: RunState, scriptFilename: string, scriptExists: bool, started: Timestamp): Admission {
    if s.running then Rejected(Json(BusyCode, "busy", BusyMessage))
    else if !scriptExists then Rejected(Json(NotFoundCode, "error", NotFoundPrefix + scriptFilename))
    else Admitted(RunState(true, Some(started), None, None))
  }

  /** The end of an admitted run: the record and the answer once the script is done. */
  function Finish(s: RunState, execution: Execution, ended: Timestamp): (RunState, Response) {
    match execution
    case Finished(out, err) =>
      (RunState(false, s.lastStart, Some(ended), Some(Ok)), Html(OkCode, Pre(SuccessText(out, err))))
    case Raised(out, err, exception) =>
      (RunState(false, s.lastStart, Some(ended), Some(Error)), Html(FailureCode, Pre(FailureText(out, err, exception))))
    case Escaped =>
      (s, Propagated)
  }

  /** The whole of one run_script call that no other call overlaps: the new record and the answer. */
  function Step(s: RunState, scriptFilename: string, req: Request): (RunState, Response) {
    match Admit(s, scriptFilename, req.scriptExists, req.started)
    case Rejected(response) => (s, response)
    case Admitted(inProgress) => Finish(inProgress, req.execution, req.ended)
  }

  /** Successive calls, each on the record the previous one left. */
  function Steps(s: RunState, scriptFilename: string, reqs: seq<Request>): (r: (RunState, seq<Response>))
    ensures |r.1| == |reqs|
    decreases |reqs|
  {
    if reqs == [] then (s, [])
    else
      var (s1, r1) := Step(s, scriptFilename, reqs[0]);
      var (sn, rs) := Steps(s1, scriptFilename, reqs[1..]);
      (sn, [r1] + rs)
  }

  /**
   * The busy check comes first: while a run is in progress every call is
   * answered 409 "busy", even when the script file has gone, and the
   * record is left as it was.
   */
  lemma BusyFirst(s: RunState, scriptFilename: string, req: Request)
    requires s.running
    ensures Step(s, scriptFilename, req) == (s, Json(BusyCode, "busy", BusyMessage))
  {
  }

  /** With no run in progress and no script file, the call is answered 404 and the record is left as it was. */
  lemma MissingScript(s: RunState, scriptFilename: string, req: Request)
    requires !s.running && !req.scriptExists
    ensures Step(s, scriptFilename, req).0 == s
    ensures Step(s, scriptFilename, req).1 == Json(NotFoundCode, "error", NotFoundPrefix + scriptFilename)
  {
  }

  /**
   * An accepted call records its start time; a run that finishes ends with
   * status ok, code 200 and an end time, one that raises with status error,
   * code 500 and an end time, and both clear the running flag.
   */
  lemma AcceptedOutcome(s: RunState, scriptFilename: string, req: Request)
    requires !s.running && req.scriptExists
    ensures var (t, resp) := Step(s, scriptFilename, req);
            && t.lastStart == Some(req.started)
            && (req.execution.Finished? ==>
                  !t.running && t.lastStatus == Some(Ok) && t.lastEnd == Some(req.ended) && resp.Html? && resp.code == OkCode)
            && (req.execution.Raised? ==>
                  !t.running && t.lastStatus == Some(Error) && t.lastEnd == Some(req.ended) && resp.Html? && resp.code == FailureCode)
            && (req.execution.Escaped? ==> t.running && t.lastEnd == None && t.lastStatus == None)
  {
  }

  /**
   * A consistent record: while running there is a start and neither end
   * nor status; otherwise an end time comes with a status and a start.
   */
  predicate Consistent(s: RunState) {
    if s.running then s.lastStart.Some? && s.lastEnd.None? && s.lastStatus.None?
    else (s.lastEnd.Some? <==> s.lastStatus.Some?) && (s.lastEnd.Some? ==> s.lastStart.Some?)
  }

  /** Every call keeps the record consistent, starting from the idle one. */
  lemma StepConsistent(s: RunState, scriptFilename: string, req: Request)
    requires Consistent(s)
    ensures Consistent(Idle)
    ensures Consistent(Step(s, scriptFilename, req).0)
  {
  }

  /**
   * Starting idle, as long as no run escapes the handler, every call
   * leaves the running flag cleared and none is ever answered "busy".
   */
  lemma {:induction false} IdleThroughout(s: RunState, scriptFilename: string, reqs: seq<Request>)
    requires !s.running
    requires forall i :: 0 <= i < |reqs| ==> !reqs[i].execution.Escaped?
    ensures !Steps(s, scriptFilename, reqs).0.running
    ensures forall i :: 0 <= i < |reqs| ==> Steps(s, scriptFilename, reqs).1[i] != Json(BusyCode, "busy", BusyMessage)
    decreases |reqs|
  {
    if reqs != [] {
      var s1 := Step(s, scriptFilename, reqs[0]).0;
      IdleThroughout(s1, scriptFilename, reqs[1..]);
      assert forall i :: 1 <= i < |reqs| ==>
        Steps(s, scriptFilename, reqs).1[i] == Steps(s1, scriptFilename, reqs[1..]).1[i - 1];
    }
  }

  /**
   * While the flag is set the record never changes: every call is
   * answered "busy" and leaves it as it was.
   */
  lemma {:induction false} BusyWhileRunning(s: RunState, scriptFilename: string, reqs: seq<Request>)
    requires s.running
    ensures Steps(s, scriptFilename, reqs).0 == s
    ensures forall i :: 0 <= i < |reqs| ==> Steps(s, scriptFilename, reqs).1[i] == Json(BusyCode, "busy", BusyMessage)
    decreases |reqs|
  {
    if reqs != [] {
      BusyWhileRunning(s, scriptFilename, reqs[1..]);
      assert forall i :: 1 <= i < |reqs| ==>
        Steps(s, scriptFilename, reqs).1[i] == Steps(s, scriptFilename, reqs[1..]).1[i - 1];
    }
  }

  /**
   * At most one run is in progress: once a call is admitted, every call
   * that arrives before its script is done is answered "busy" and leaves
   * the record alone, and the run then ends as if no call had overlapped it.
   */
  lemma RunExclusive(s: RunState, scriptFilename: string, req: Request, overlapping: seq<Request>)
    requires !s.running && req.scriptExists
    ensures Admit(s, scriptFilename, true, req.started).Admitted?
    ensures var inProgress := Admit(s, scriptFilename, true, req.started).inProgress;
            && inProgress.running
            && Steps(inProgress, scriptFilename, overlapping).0 == inProgress
            && (forall i :: 0 <= i < |overlapping| ==>
                  Steps(inProgress, scriptFilename, overlapping).1[i] == Json(BusyCode, "busy", BusyMessage))
            && Finish(inProgress, req.execution, req.ended) == Step(s, scriptFilename, req)
  {
    BusyWhileRunning(Admit(s, scriptFilename, true, req.started).inProgress, scriptFilename, overlapping);
  }

  /**
   * Once a run escapes the handler the flag is never cleared: every later
   * call is answered "busy" and the record stays as that run left it.
   */
  lemma StuckAfterEscape(s: RunState, scriptFilename: string, req: Request, later: seq<Request>)
    requires !s.running && req.scriptExists && req.execution.Escaped?
    ensures Step(s, scriptFilename, req).0.running
    ensures Steps(Step(s, scriptFilename, req).0, scriptFilename, later).0 == Step(s, scriptFilename, req).0
    ensures forall i :: 0 <= i < |later| ==>
              Steps(Step(s, scriptFilename, req).0, scriptFilename, later).1[i] == Json(BusyCode, "busy", BusyMessage)
  {
    BusyWhileRunning(Step(s, scriptFilename, req).0, scriptFilename, later);
  }

  /** The placeholder is shown exactly when the script wrote nothing to either stream. */
  lemma PlaceholderExactly(stdout: string, stderr: string)
    ensures SuccessText(stdout, stderr) == Placeholder <==> stdout == "" && stderr == ""
  {
    if stdout != "" {
      assert SuccessText(stdout, stderr)[0] == '=';
    } else if stderr != "" {
      assert SuccessText(stdout, stderr)[0] == '=';
    }
  }

  /**
   * The STDOUT section (header, stdout, line break) leads the output
   * exactly when stdout is not empty, and a STDERR section follows it
   * exactly when stderr is not empty; with stdout empty the STDERR section
   * leads the output exactly when stderr is not empty. Unless both streams
   * are empty, the output is those sections and nothing more.
   */
  lemma SuccessSections(stdout: string, stderr: string)
    ensures StdoutHeader <= SuccessText(stdout, stderr) <==> stdout != ""
    ensures stdout != "" ==> SuccessText(stdout, stderr)[..|StdoutHeader| + |stdout| + 1] == StdoutHeader + stdout + "\n"
    ensures stdout == "" ==> (StderrHeader <= SuccessText(stdout, stderr) <==> stderr != "")
    ensures stderr != "" ==> StderrHeader + stderr + "\n" <= SuccessText(stdout, stderr)[|Section(StdoutHeader, stdout)|..]
    ensures stdout != "" ==> (StderrHeader <= SuccessText(stdout, stderr)[|Section(StdoutHeader, stdout)|..] <==> stderr != "")
    ensures !(stdout == "" && stderr == "") ==>
              |SuccessText(stdout, stderr)| == |Section(StdoutHeader, stdout)| + |Section(StderrHeader, stderr)|
  {
    var text := SuccessText(stdout, stderr);
    if stdout == "" {
      if stderr == "" {
        assert text[0] != StdoutHeader[0];
        assert text[0] != StderrHeader[0];
      } else {
        assert text[7] != StdoutHeader[7];
      }
    }
  }

  /**
   * After a failure the output always ends with the ERROR section (the
   * captured stderr, then the exception, then a blank line), and the
   * partial STDOUT section (header, partial stdout, line break) leads it
   * exactly when there was partial output; nothing else lies between or
   * around them.
   */
  lemma FailureSections(stdout: string, stderr: string, exception: string)
    ensures var text := FailureText(stdout, stderr, exception);
            var tail := ErrorSection(stderr, exception);
            && |text| == |Section(PartialStdoutHeader, stdout)| + |tail|
            && text[|text| - |tail|..] == tail
            && (PartialStdoutHeader <= text <==> stdout != "")
            && (stdout != "" ==> text[..|PartialStdoutHeader| + |stdout| + 1] == PartialStdoutHeader + stdout + "\n")
  {
    var text := FailureText(stdout, stderr, exception);
    var head := Section(PartialStdoutHeader, stdout);
    assert text[|head|..] == ErrorSection(stderr, exception);
    if stdout == "" {
      assert text[4] != PartialStdoutHeader[4];
    } else {
      assert text[..|PartialStdoutHeader|] == PartialStdoutHeader;
    }
  }

  /** The run-state holder of the service and its run_script handler. */
  class Runner {
    const scriptFilename: string
    var running: bool
    var lastStart: Option<Timestamp>
    var lastEnd: Option<Timestamp>
    var lastStatus: Option<Status>

    function State(): RunState
      reads this
    {
      RunState(running, lastStart, lastEnd, lastStatus)
    }

    constructor (scriptFilename: string)
      ensures this.scriptFilename == scriptFilename
      ensures State() == Idle
    {
      this.scriptFilename := scriptFilename;
      running := false;
      lastStart := None;
      lastEnd := None;
      lastStatus := None;
    }

    /**
     * The head of run_script: rejects the call while a run is in progress
     * or when the script is missing, otherwise marks the run as started.
     */
    method Accept(scriptExists: bool, started: Timestamp) returns (admission: Admission)
      modifies this
      ensures admission == Admit(old(State()), scriptFilename, scriptExists, started)
      ensures State() == if admission.Admitted? then admission.inProgress else old(State())
    {
      if running {
        return Rejected(Json(BusyCode, "busy", BusyMessage));
      }
      if !scriptExists {
        return Rejected(Json(NotFoundCode, "error", NotFoundPrefix + scriptFilename));
      }
      running := true;
      lastStart := Some(started);
      lastEnd := None;
      lastStatus := None;
      admission := Admitted(State());
    }

    /**
     * The rest of run_script once the script is done: assembles the
     * output and records how the run ended, clearing the flag, unless the
     * exception is one the handler does not catch.
     */
    method Complete(execution: Execution, ended: Timestamp) returns (response: Response)
      modifies this
      ensures (State(), response) == Finish(old(State()), execution, ended)
    {
      match execution {
        case Finished(out, err) =>
          var combined := CombineSuccess(out, err);
          lastStatus := Some(Ok);
          lastEnd := Some(ended);
          running := false;
          response := Html(OkCode, Pre(combined));
        case Raised(out, err, exception) =>
          var combined := CombineFailure(out, err, exception);
          lastStatus := Some(Error);
          lastEnd := Some(ended);
          running := false;
          response := Html(FailureCode, Pre(combined));
        case Escaped =>
          response := Propagated;
      }
    }

    /** run_script: the guard, then, for an admitted call, the end of the run. */
    method RunScript(req: Request) returns (response: Response)
      modifies this
      ensures (State(), response) == Step(old(State()), scriptFilename, req)
    {
      var admission := Accept(req.scriptExists, req.started);
      if admission.Rejected? {
        return admission.response;
      }
      response := Complete(req.execution, req.ended);
    }
  }

  /**
   * The output assembly of a finished run: each non-empty stream adds its
   * section, and an output that strips to nothing becomes the placeholder.
   */
  method CombineSuccess(stdout: string, stderr: string) returns (combined: string)
    ensures combined == SuccessText(stdout, stderr)
  {
    combined := "";
    if stdout != "" {
      combined := combined + (StdoutHeader + stdout + "\n");
    }
    assert combined == Section(StdoutHeader, stdout);
    if stderr != "" {
      combined := combined + (StderrHeader + stderr + "\n");
    }
    assert combined == Section(StdoutHeader, stdout) + Section(StderrHeader, stderr);
    if combined != "" {
      assert !IsSpace(combined[0]);
    }
    if IsBlank(combined) {
      combined := Placeholder;
    }
  }

  /** The output assembly of a run that raised: partial stdout, if any, then the error section. */
  method CombineFailure(stdout: string, stderr: string, exception: string) returns (combined: string)
    ensures combined == FailureText(stdout, stderr, exception)
  {
    var errorText := stderr + (ExceptionTag + exception + "\n");
    combined := "";
    if stdout != "" {
      combined := combined + (PartialStdoutHeader + stdout + "\n");
    }
    assert combined == Section(PartialStdoutHeader, stdout);
    combined := combined + (ErrorHeader + errorText + "\n");
  }
}
