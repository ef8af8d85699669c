# codex-mcp-rs core, modelled in Dafny

codex-mcp-rs is an MCP server exposing one tool, `codex`, which runs the
Codex CLI (`codex exec … --json`) as a child process, reads the JSONL event
stream it prints on stdout, and condenses it into one `CodexResult`: success,
the session id (`thread_id`), the agent's text, optionally the raw event log,
an error and warnings.

This project models:

- `CodexOptions` — the sandbox policy and its kebab-case names, the run
  options, the message-limit rule (default 10000, capped at 50000) and the
  exact argument vector handed to the CLI (`BuildCommandArgs`, a loop proved
  equal to the reference `CommandArgs`, whose layout `CommandArgsLayout`
  spells out).
- `CodexEvents` — the `CodexResult` record and the per-line interpretation of
  the stdout loop: event-log collection with its count cap, latest-wins
  `thread_id`, agent text with the 10 MiB UTF-8 byte cap and the one-time
  truncation marker, failure detection (`type` containing `fail` or
  `error`), and `record_parse_error`. `Step` and `FoldLines` are the pure
  specification of the loop, including the latch that ignores every line
  after the first unparseable one.
- `CodexRun` — the loop's mutable locals as the class `StdoutLoop`, whose
  methods are proved to follow `Step`/`FoldLines`; `run_internal` and
  `run` with the operating system as input: whether the spawn succeeded,
  the child's stdout lines and how the stream ended, its stderr lines, its
  exit status, and whether the timeout fired.
- `CodexFinalize` — the stderr drain, merging the exit status, `push_warning`,
  `enforce_required_fields` and the timeout result.
- `FoldProperties` and `RunProperties` — properties of whole runs: caps are
  kept, flags are sticky, empty lines are ignored, the latch is set exactly
  when a line failed to parse, the session id is the latest one, the event
  log is exactly the first objects, and a successful run saw a clean exit,
  a session id and no failure.
- `Server` — the tool handler's own logic: the response mapping
  `build_codex_output`, the PROMPT check, working-directory resolution and
  the image-path loop, with the file system as an oracle.
- `Text`, `Json`, `Wrappers` — strings (UTF-8 byte length, decimal
  rendering, joining), a JSON value, and Option/Result.

Behaviour of src/codex.rs that the model keeps as written:

- The event log is capped by a count of events (`message_limit`), not by a
  byte budget.
- Agent-message fragments are concatenated with no separator.
- A missing session id always prefixes its message onto any earlier error,
  even an empty one.
- The timeout result carries no warnings.
- Lines are read with an unbounded line reader: there is no line-length
  limit and no line-too-long error.
- stderr is collected without a size cap.
- The `--return-all-messages-limit` argument carries the limit as requested,
  while the event log itself is capped at 50000.

## Model

| member | source | states |
|---|---|---|
| CodexOptions.AsStr | src/codex.rs:24-31 | each policy's name, passed to `--sandbox`, is kebab-case (lower-case words joined by single hyphens) as the serde rename spells it; `ParseSandboxPolicy` inverts it exactly |
| CodexOptions.ParseSandboxPolicy | src/codex.rs:12-31 | the kebab-case name parses to a policy exactly when that policy's name is the input, so names and policies are in one-to-one correspondence |
| CodexOptions.MessageLimit | src/codex.rs:160-169 | the limit is never above 50000; it is 10000 when none was given, else the given one capped at 50000 |
| CodexOptions.CommandArgsLayout | src/codex.rs:97-135 | argv is `exec --sandbox <policy> --cd <dir> --json`, one `--image <path>` pair per image in order, then `--model <m>`, `--profile <p>`, `--yolo`, `--skip-git-repo-check`, `--return-all-messages` with `--return-all-messages-limit <n>` (the limit as requested, not as capped), `resume <id>`, each at its stated index and only when requested, and last `--` and the prompt; the length counts exactly the pieces present |
| CodexOptions.AppendImageArgs | src/codex.rs:105-109 | the image loop appends exactly one `--image <path>` pair per image, in order, after the arguments already built |
| CodexOptions.AppendModelAndProfile | src/codex.rs:110-115 | from the head of the command line, `--model <m>` and then `--profile <p>` are appended exactly when set |
| CodexOptions.AppendSwitches | src/codex.rs:116-127 | `--yolo`, `--skip-git-repo-check` and `--return-all-messages` (followed by the requested limit when one is given) are appended exactly when asked for, in that order |
| CodexOptions.BuildCommandArgs | src/codex.rs:97-135 | the argument-building loop produces exactly the reference argument vector |
| CodexEvents.AppendAgentText | src/codex.rs:242-262 | once truncated nothing changes; text is appended only while it fits the byte cap; the first overflow appends the marker and sets the flag; the byte bound is kept; no other field changes |
| CodexEvents.AgentTextSize | src/codex.rs:164 | bounded agent text is at most 10 MiB plus the marker's bytes |
| CodexEvents.CollectEvent | src/codex.rs:223-233 | without the log nothing changes; an event is appended to the log exactly when the log was requested, is below the limit and the event is an object, and the log is otherwise unchanged; the cap is kept; the flag is set exactly when an event arrives at or over the limit |
| CodexEvents.TakeThreadId | src/codex.rs:235-240 | a non-empty `thread_id` string replaces the session id; otherwise the result is unchanged |
| CodexEvents.DetectFailure | src/codex.rs:264-277 | a failure-typed event clears success; its nested `error.message`, else its top-level `message`, becomes the `codex error: ` error; other events change nothing |
| CodexEvents.RecordParseError | src/codex.rs:318-325 | success is cleared; the parse message is appended after a newline to a non-empty error, or becomes the error |
| CodexRun.StdoutLoop.constructor | src/codex.rs:149-158 | the loop starts from the initial result with the latch clear |
| CodexRun.StdoutLoop.ProcessLine | src/codex.rs:199-278 | one line moves the loop's state exactly as `Step` says: empty and post-latch lines are skipped, an unparseable one is recorded and sets the latch, an event is interpreted |
| CodexRun.StdoutLoop.ReadToEnd | src/codex.rs:196-278 | reading all lines ends in the state `FoldLines` gives |
| CodexRun.RunInternal | src/codex.rs:93-316 | the child gets the reference argv; a failed spawn, a stdout read error or a failed wait is an error; otherwise the folded result is merged with the exit status and stderr and the required fields are enforced |
| CodexRun.Run | src/codex.rs:63-90 | a fired timeout yields the timeout result; otherwise the outcome is that of `run_internal` |
| CodexFinalize.CollectStderr | src/codex.rs:171-194 | the drained stderr is the lines joined by newlines, leading empty lines dropped |
| CodexFinalize.MergeExitStatus | src/codex.rs:296-313 | a clean exit keeps success and error and moves non-empty stderr into warnings; otherwise success is cleared, the error is the earlier one or the exit-code message, followed by `\nStderr: ` and stderr when stderr is non-empty |
| CodexFinalize.PushWarning | src/codex.rs:327-338 | the warning always ends the result; it follows a newline after non-empty earlier warnings, else it is the whole result |
| CodexFinalize.PushAllJoins | src/codex.rs:327-338 | pushing non-empty warnings one by one from none gives them joined by newlines |
| CodexFinalize.EnforceRequiredFields | src/codex.rs:340-357 | a missing session id clears success and prefixes its message to the earlier error; missing agent text adds the warning; a successful result has a session id |
| CodexFinalize.TimeoutResult | src/codex.rs:70-84 | the timeout result is a failure with the timed-out message, empty fields and no warnings |
| FoldProperties.FoldKeepsConsistent | src/codex.rs:223-262 | every state the loop reaches keeps agent text within its cap, the event log within its limit, and an error only with failure |
| FoldProperties.LatchIsFinal | src/codex.rs:204-207 | once the latch is set no line changes the state |
| FoldProperties.LatchIffMalformed | src/codex.rs:210-220 | the latch is set exactly when some line failed to parse |
| FoldProperties.BlankLinesIgnored | src/codex.rs:200-202 | folding only the non-empty lines ends in the same state |
| FoldProperties.FoldIsMonotone | src/codex.rs:223-277 | failure, both truncation flags and a recorded error are never undone; agent text and the log only grow, and stop growing once truncated |
| FoldProperties.SessionIdIsLatest | src/codex.rs:235-240 | the session id is the latest non-empty `thread_id` among the interpreted events |
| FoldProperties.AllMessagesAreFirstObjects | src/codex.rs:223-233 | the log is exactly the first `message_limit` object events (none when not requested) and is marked truncated exactly when an event came after that many objects |
| FoldProperties.SuccessMeansNoFailure | src/codex.rs:210-277 | a successful loop saw no unparseable line and no failure event |
| RunProperties.RunSuccessMeans | src/codex.rs:280-357 | a successful run spawned, exited with code 0, has no error and a session id, saw no unparseable line and no failure event |
| RunProperties.RunRespectsCaps | src/codex.rs:160-169 | the agent text is within its byte cap and the log within the message limit; without the log request the log is empty and not truncated |
| RunProperties.RunKeepsLoopError | src/codex.rs:296-347 | an error recorded by the stdout loop survives into the final error |
| Text.Utf8Len | src/codex.rs:248 | the UTF-8 length lies between the character count and four times it |
| Text.Utf8LenConcat | src/codex.rs:248 | byte lengths add up over concatenation |
| Text.NatToString | src/codex.rs:78-81 | the decimal rendering is non-empty, all digits, without a leading zero, and 0 is rendered as `0` alone |
| Text.NatToStringRoundTrip | src/codex.rs:78-81 | reading the rendered digits back gives the number |
| Server.BuildCodexOutput | src/server.rs:80-96 | fields are copied as they are; the optional flags are present only when true; the log is present exactly when requested |
| Server.ToolResponse | src/server.rs:212-215 | the response never carries the event log and carries the result's own warnings |
| Server.ResolvedImagePathShape | src/server.rs:169-174 | under an absolute working directory an image path resolves to an absolute path: itself when absolute, else the directory followed by the path |
| Server.ResolveImages | src/server.rs:166-195 | success exactly when every image exists and is a regular file, one canonical path per image in order; otherwise the first rejected image's error |
| Server.ValidateRequest | src/server.rs:130-195 | an empty PROMPT is rejected first; an unknown, inaccessible or non-directory working directory is rejected with its own message; with a good directory a failure is the first rejected image's error; a validated request keeps the prompt and session id, a canonical working directory that is a directory, and the images' canonical paths |

## Left out

- Process spawning, pipes, the concurrent stderr task and the real clock: the child's behaviour (spawn success, stdout lines and how the stream ended, stderr lines, exit status) and whether the timeout fired are inputs.
- The `CODEX_BIN` override and the program name: the model covers the argument vector only.
- JSON text parsing and serialisation (serde): a stdout line arrives already classified as empty, unparseable (with the parser's message) or a parsed value; the response is not serialised to text.
- The rmcp framework plumbing, `get_info`, `main` and the transport: not part of the tool's logic.
- The file system in the handler is an oracle (current directory, canonical paths, I/O error texts, directories and regular files); symlink resolution and races are not modelled.
- The `Options` value the handler builds at src/server.rs:197-205 names fields that `Options` does not have, so the call from the handler into `run` and its `Failed to execute codex` mapping are not part of this model.
- A read error on stderr ends the drain like end of file; the `eprintln!` logging and the failure to join the stderr task (which yields empty stderr) are not modelled.
- `start_kill` on the first unparseable line is a signal to the child; its effect is already in the inputs (the rest of stdout and the exit status).
- Paths are Unicode strings: non-UTF-8 working directories and image paths (which the source hands to the child as `OsStr`), and the lossy `display()` text of paths in the handler's error messages, are not modelled.
- Paths follow Unix rules (absolute means a leading `/`, `/` is the separator); Windows drive prefixes, `\` separators and rooted paths without a prefix are not modelled.
- `usize`/`u64` widths: limits, sizes and seconds are unbounded naturals; no input near those bounds is considered.
