/** Properties of a whole execution, from the child's behaviour to the result. */
module RunProperties {
  import opened Wrappers
  import opened Json
  import opened Text
  import opened CodexOptions
  import opened CodexEvents
  import opened CodexFinalize
  import opened CodexRun
  import opened FoldProperties

  function LoopConfig(opts: Options): FoldConfig {
    FoldConfig(opts.returnAllMessages, MessageLimit(opts))
  }

  /** A result reported successful had a clean exit, a session id, no error,
      no unparseable stdout line and no failure event. */
  lemma RunSuccessMeans(opts: Options, launch: Launch)
    requires RunInternalSpec(opts, launch).Success? && RunInternalSpec(opts, launch).value.success
    ensures launch.Spawned? && launch.child.exit == Exited(Some(0))
    ensures RunInternalSpec(opts, launch).value.error.None?
    ensures RunInternalSpec(opts, launch).value.sessionId != ""
    ensures !HasMalformed(launch.child.stdout)
    ensures forall i :: 0 <= i < |Interpreted(launch.child.stdout)| ==>
      !IsFailureEvent(Interpreted(launch.child.stdout)[i])
  {
    var cfg := LoopConfig(opts);
    var lines := launch.child.stdout;
    StartIsConsistent(cfg);
    FoldKeepsConsistent(cfg, StartState(), lines);
    SuccessMeansNoFailure(cfg, StartState(), lines);
    var loop := StdoutState(opts, lines).result;
    assert loop.success;
    assert forall i :: 0 <= i < |Interpreted(lines)| ==> !IsFailureEvent(Interpreted(lines)[i]);
  }

  /** Whatever the exit status and stderr, the final result keeps the size
      bounds the loop established: agent text within 10 MiB plus the marker,
      and at most `message_limit` (so at most 50000) events. */
  lemma RunRespectsCaps(opts: Options, launch: Launch)
    requires RunInternalSpec(opts, launch).Success?
    ensures var r := RunInternalSpec(opts, launch).value;
      && Utf8Len(r.agentMessages) <= MaxAgentMessagesSize + Utf8Len(TruncationMarker)
      && |r.allMessages| <= MessageLimit(opts) <= MaxMessageLimit
      && (!opts.returnAllMessages ==> r.allMessages == [] && !r.allMessagesTruncated)
  {
    var cfg := LoopConfig(opts);
    StartIsConsistent(cfg);
    FoldKeepsConsistent(cfg, StartState(), launch.child.stdout);
    var loop := StdoutState(opts, launch.child.stdout).result;
    AgentTextSize(loop);
  }

  /** An error recorded while reading stdout is never masked: it is still
      part of the final error, whatever validation and the exit merge add. */
  lemma RunKeepsLoopError(opts: Options, launch: Launch)
    requires launch.Spawned? && RunInternalSpec(opts, launch).Success?
    requires StdoutState(opts, launch.child.stdout).result.error.Some?
    ensures RunInternalSpec(opts, launch).value.error.Some?
    ensures Contains(RunInternalSpec(opts, launch).value.error.value,
                     StdoutState(opts, launch.child.stdout).result.error.value)
  {
    var loop := StdoutState(opts, launch.child.stdout).result;
    var e := loop.error.value;
    var code := launch.child.exit.code;
    var stderr := StderrOutput(launch.child.stderr);
    var merged := MergeExitStatus(loop, code, stderr);
    var q := if ExitSucceeded(code) || stderr == "" then "" else StderrLabel + stderr;
    assert loop.error.GetOr(ExitFailureMessage(code)) == e;
    if ExitSucceeded(code) || stderr == "" {
      assert e + q == e;
    }
    assert merged.error == Some(e + q);
    var final := EnforceRequiredFields(merged);
    var p := if merged.sessionId == "" then MissingSessionIdPrefix else "";
    assert final.error.value == p + (e + q);
    ContainsInfix(p, e, q);
    assert p + e + q == p + (e + q);
  }
}
