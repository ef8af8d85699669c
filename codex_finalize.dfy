/** What happens to the result after the stdout loop (src/codex.rs: the
    stderr joiner, the exit-status merge, `push_warning`,
    `enforce_required_fields`, and the synthetic timeout result of `run`). */
module CodexFinalize {
  import opened Wrappers
  import opened Text
  import opened CodexEvents

  // ---------------------------------------------------------------- stderr

  /** Stderr lines with the leading empty ones dropped. */
  function DropLeadingEmpty(lines: seq<string>): seq<string>
    decreases |lines|
  {
    if lines != [] && lines[0] == "" then DropLeadingEmpty(lines[1..]) else lines
  }

  /** The stderr text the joiner produces: the lines from the first non-empty
      one on, separated by newlines. */
  function StderrOutput(lines: seq<string>): string {
    Join(DropLeadingEmpty(lines), "\n")
  }

  /** Adding a line at the end of the input: an empty line before any text is
      dropped, anything else is kept at the end. */
  lemma {:induction false} DropLeadingEmptySnoc(lines: seq<string>, line: string)
    ensures DropLeadingEmpty(lines + [line])
         == if DropLeadingEmpty(lines) == [] && line == "" then []
            else DropLeadingEmpty(lines) + [line]
    ensures DropLeadingEmpty(lines) != [] ==> DropLeadingEmpty(lines)[0] != ""
    decreases |lines|
  {
    if lines == [] {
      assert lines + [line] == [line];
      if line == "" {
        assert [line][1..] == [];
      }
    } else if lines[0] == "" {
      assert (lines + [line])[1..] == lines[1..] + [line];
      DropLeadingEmptySnoc(lines[1..], line);
    }
  }

  /** The stderr drain task: each line is appended, preceded by a newline
      when the text so far is non-empty. */
  method CollectStderr(lines: seq<string>) returns (output: string)
    ensures output == StderrOutput(lines)
  {
    output := "";
    var i := 0;
    while i < |lines|
      invariant 0 <= i <= |lines|
      invariant output == StderrOutput(lines[..i])
    {
      DropLeadingEmptySnoc(lines[..i], lines[i]);
      assert lines[..i + 1] == lines[..i] + [lines[i]];
      var kept := DropLeadingEmpty(lines[..i]);
      if kept != [] {
        JoinStartsWithFirst(kept, "\n");
      }
      if output != "" {
        output := output + "\n";
      }
      output := output + lines[i];
      i := i + 1;
    }
    assert lines[..i] == lines;
  }

  // ---------------------------------------------------------------- exit status

  /** `ExitStatus::success`: the child exited with code 0 (a child ended by a
      signal has no code). */
  predicate ExitSucceeded(code: Option<int>) {
    code == Some(0)
  }

  /** `{:?}` of `ExitStatus::code()`. */
  function DebugExitCode(code: Option<int>): string {
    match code
    case Some(c) => "Some(" + IntToString(c) + ")"
    case None => "None"
  }

  function ExitFailureMessage(code: Option<int>): string {
    "codex command failed with exit code: " + DebugExitCode(code)
  }

  const StderrLabel: string := "\nStderr: "

  /** Merges the exit status and the stderr text: a failed exit fails the run
      and keeps an existing error (else a generic one), with stderr appended
      as context; a clean exit turns non-empty stderr into the warning. */
  function MergeExitStatus(r: CodexResult, code: Option<int>, stderr: string): (r': CodexResult)
    ensures ExitSucceeded(code) ==> r'.success == r.success && r'.error == r.error
    ensures ExitSucceeded(code) ==> r'.warnings == if stderr == "" then r.warnings else Some(stderr)
    ensures !ExitSucceeded(code) ==> !r'.success && r'.error.Some? && r'.warnings == r.warnings
    ensures !ExitSucceeded(code) ==>
      IsPrefix(r.error.GetOr(ExitFailureMessage(code)), r'.error.value)
    ensures !ExitSucceeded(code) ==>
      r'.error.value == r.error.GetOr(ExitFailureMessage(code)) + (if stderr == "" then "" else StderrLabel + stderr)
    ensures r'.(success := r.success, error := r.error, warnings := r.warnings) == r
  {
    if !ExitSucceeded(code) then
      var errorMsg := match r.error
        case Some(err) => err
        case None => ExitFailureMessage(code);
      var context := if stderr != "" then StderrLabel + stderr else "";
      var full := errorMsg + context;
      assert full[..|errorMsg|] == errorMsg;
      r.(success := false, error := Some(full))
    else if stderr != "" then r.(warnings := Some(stderr))
    else r
  }

  // ---------------------------------------------------------------- warnings

  /** `push_warning`: adds a warning on a new line after a non-empty one. */
  function PushWarning(existing: Option<string>, warning: string): (r: Option<string>)
    ensures r.Some? && IsSuffix(warning, r.value)
    ensures existing.Some? && existing.value != "" ==>
      IsPrefix(existing.value + "\n", r.value) && |r.value| == |existing.value| + 1 + |warning|
    ensures existing.None? || existing == Some("") ==> r == Some(warning)
  {
    match existing
    case Some(current) => if current != "" then Some(current + "\n" + warning) else Some(warning)
    case None => Some(warning)
  }

  /** A reference for several pushes: the warnings pushed one after another. */
  function PushAll(existing: Option<string>, warnings: seq<string>): Option<string> {
    if warnings == [] then existing
    else PushWarning(PushAll(existing, warnings[..|warnings| - 1]), warnings[|warnings| - 1])
  }

  /** Pushing non-empty warnings onto none gives them joined by newlines. */
  lemma {:induction false} PushAllJoins(warnings: seq<string>)
    requires forall i :: 0 <= i < |warnings| ==> warnings[i] != ""
    ensures PushAll(None, warnings) == if warnings == [] then None else Some(Join(warnings, "\n"))
    decreases |warnings|
  {
    if |warnings| > 1 {
      var init := warnings[..|warnings| - 1];
      PushAllJoins(init);
      JoinStartsWithFirst(init, "\n");
    } else if |warnings| == 1 {
      assert warnings[..0] == [];
    }
  }

  // ---------------------------------------------------------------- validation

  const MissingSessionIdPrefix: string := "Failed to get SESSION_ID from the codex session.\n\n"

  const NoAgentMessagesWarning: string :=
    "No agent_messages returned; enable return_all_messages or check codex output for details."

  /** `enforce_required_fields`: a missing session id fails the run with its
      own message put in front of any earlier error; missing agent text only
      adds a warning and leaves `success` alone. */
  function EnforceRequiredFields(r: CodexResult): (r': CodexResult)
    ensures r.sessionId == "" ==>
      !r'.success && r'.error.Some? && IsPrefix(MissingSessionIdPrefix, r'.error.value)
      && r'.error.value[|MissingSessionIdPrefix|..] == r.error.GetOr("")
    ensures r.sessionId != "" ==> r'.success == r.success && r'.error == r.error
    ensures r.agentMessages == "" ==> r'.warnings == PushWarning(r.warnings, NoAgentMessagesWarning)
    ensures r.agentMessages != "" ==> r'.warnings == r.warnings
    ensures r'.success ==> r.success && r'.sessionId != ""
    ensures r'.(success := r.success, error := r.error, warnings := r.warnings) == r
  {
    var checked := if r.sessionId == "" then
        r.(success := false, error := Some(MissingSessionIdPrefix + r.error.GetOr("")))
      else r;
    if checked.agentMessages == "" then
      checked.(warnings := PushWarning(checked.warnings, NoAgentMessagesWarning))
    else checked
  }

  // ---------------------------------------------------------------- timeout

  function TimeoutMessage(secs: nat): string {
    "Codex execution timed out after " + NatToString(secs) + " seconds"
  }

  /** The result `run` returns when the deadline fires: failed, empty, with
      only the timeout message; `run` returns it as is, without
      `EnforceRequiredFields`. */
  function TimeoutResult(secs: nat): (r: CodexResult)
    ensures !r.success && r.error == Some(TimeoutMessage(secs)) && r.warnings.None?
    ensures r.sessionId == "" && r.agentMessages == "" && r.allMessages == []
    ensures !r.agentMessagesTruncated && !r.allMessagesTruncated
  {
    CodexResult(false, "", "", false, [], false, Some(TimeoutMessage(secs)), None)
  }
}
