/** One execution of the codex binary (src/codex.rs: `run` and
    `run_internal`). The operating system's part is an input: whether the
    child could be spawned, the lines its two streams deliver, how the
    stdout stream ends, and the exit status. */
module CodexRun {
  import opened Wrappers
  import opened Json
  import opened CodexOptions
  import opened CodexEvents
  import opened CodexFinalize

  /** How reading stdout stopped: end of file, or an I/O error. */
  datatype StreamEnd = Eof | ReadError

  /** How waiting for the child ended: its exit code (None when a signal
      ended it), or an error from the wait itself. */
  datatype WaitOutcome = Exited(code: Option<int>) | WaitFailed

  /** What the spawned child does. */
  datatype Child = Child(stdout: seq<Line>, stdoutEnd: StreamEnd, stderr: seq<string>, exit: WaitOutcome)

  datatype Launch = SpawnFailed | Spawned(child: Child)

  /** The errors `run_internal` returns instead of a result. */
  datatype RunError = SpawnError | StdoutReadError | WaitError

  /** The state of the stdout loop of `run_internal`: the result being built
      and the drain-only latch, updated in place line by line. */
  class StdoutLoop {
    const config: FoldConfig
    var result: CodexResult
    var parseErrorSeen: bool

    function State(): LoopState
      reads this
    {
      LoopState(result, parseErrorSeen)
    }

    constructor (config: FoldConfig)
      ensures this.config == config && State() == StartState()
    {
      this.config := config;
      result := InitialResult();
      parseErrorSeen := false;
    }

    /** One loop iteration: skip empty lines and everything after a parse
        error; record a parse error and latch; or interpret the event. */
    method ProcessLine(line: Line)
      modifies this
      ensures State() == Step(config, old(State()), line)
    {
      if line.Blank? {
        return;
      }
      if parseErrorSeen {
        return;
      }
      match line {
        case Malformed(text, reason) =>
          result := RecordParseError(result, ParseErrorMessage(reason, text));
          // the child is also told to stop here; that signal is not modelled
          parseErrorSeen := true;
        case Event(v) =>
          result := CollectEvent(config, result, v);
          result := TakeThreadId(result, v);
          match AgentMessageText(v) {
            case Some(text) => result := AppendAgentText(result, text);
            case None =>
          }
          result := DetectFailure(result, v);
      }
    }

    /** The loop itself: every line up to end of stream is read. */
    method ReadToEnd(lines: seq<Line>)
      modifies this
      ensures State() == FoldLines(config, old(State()), lines)
    {
      var i := 0;
      while i < |lines|
        invariant 0 <= i <= |lines|
        invariant State() == FoldLines(config, old(State()), lines[..i])
      {
        assert lines[..i + 1][..i] == lines[..i];
        ProcessLine(lines[i]);
        i := i + 1;
      }
      assert lines[..i] == lines;
    }
  }

  /** The stdout loop's outcome from the start state. */
  function StdoutState(opts: Options, lines: seq<Line>): LoopState {
    FoldLines(FoldConfig(opts.returnAllMessages, MessageLimit(opts)), StartState(), lines)
  }

  /** What `run_internal` returns for a given behaviour of the child. */
  function RunInternalSpec(opts: Options, launch: Launch): Result<CodexResult, RunError> {
    match launch
    case SpawnFailed => Failure(SpawnError)
    case Spawned(child) =>
      if child.stdoutEnd.ReadError? then Failure(StdoutReadError)
      else match child.exit
        case WaitFailed => Failure(WaitError)
        case Exited(code) =>
          var afterLoop := StdoutState(opts, child.stdout).result;
          Success(EnforceRequiredFields(MergeExitStatus(afterLoop, code, StderrOutput(child.stderr))))
  }

  /** `run_internal`: builds the command line, drains both streams, merges the
      exit status and validates the result. */
  method RunInternal(opts: Options, launch: Launch)
    returns (argv: seq<string>, outcome: Result<CodexResult, RunError>)
    ensures argv == CommandArgs(opts)
    ensures outcome == RunInternalSpec(opts, launch)
  {
    argv := BuildCommandArgs(opts);
    if launch.SpawnFailed? {
      return argv, Failure(SpawnError);
    }
    var child := launch.child;
    var messageLimit := MessageLimit(opts);
    var stderrOutput := CollectStderr(child.stderr);
    var stdoutLoop := new StdoutLoop(FoldConfig(opts.returnAllMessages, messageLimit));
    stdoutLoop.ReadToEnd(child.stdout);
    if child.stdoutEnd.ReadError? {
      return argv, Failure(StdoutReadError);
    }
    match child.exit {
      case WaitFailed =>
        outcome := Failure(WaitError);
      case Exited(code) =>
        var merged := MergeExitStatus(stdoutLoop.result, code, stderrOutput);
        outcome := Success(EnforceRequiredFields(merged));
    }
  }

  /** `run`: with a deadline that fires, the synthetic timeout result replaces
      whatever the execution would have produced; otherwise the execution's
      own outcome. Without a deadline `timedOut` has no effect. */
  method Run(opts: Options, launch: Launch, timedOut: bool)
    returns (argv: seq<string>, outcome: Result<CodexResult, RunError>)
    ensures argv == CommandArgs(opts)
    ensures opts.timeoutSecs.Some? && timedOut ==> outcome == Success(TimeoutResult(opts.timeoutSecs.value))
    ensures opts.timeoutSecs.None? || !timedOut ==> outcome == RunInternalSpec(opts, launch)
  {
    argv, outcome := RunInternal(opts, launch);
    if opts.timeoutSecs.Some? && timedOut {
      outcome := Success(TimeoutResult(opts.timeoutSecs.value));
    }
  }
}
