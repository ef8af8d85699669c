/** The result record and what one line of the child's stdout does to it
    (src/codex.rs: `CodexResult`, the body of the stdout loop in
    `run_internal`, and `record_parse_error`). */
module CodexEvents {
  import opened Wrappers
  import opened Json
  import opened Text

  /** `CodexResult`. */
  datatype CodexResult = CodexResult(
    success: bool,
    sessionId: string,
    agentMessages: string,
    agentMessagesTruncated: bool,
    allMessages: seq<JsonMap>,
    allMessagesTruncated: bool,
    error: Option<string>,
    warnings: Option<string>)

  /** Byte ceiling on the accumulated agent text (10 MiB). */
  const MaxAgentMessagesSize: nat := 10 * 1024 * 1024

  const TruncationMarker: string := "[... Agent messages truncated due to size limit ...]"

  /** The result a run starts from: successful and empty. */
  function InitialResult(): CodexResult {
    CodexResult(true, "", "", false, [], false, None, None)
  }

  /** One line read from the child's stdout: empty, not valid JSON (with
      serde's description of why), or a parsed JSON value. */
  datatype Line = Blank | Malformed(text: string, reason: string) | Event(value: Json)

  /** What the loop knows from the options: whether events are kept, and how many. */
  datatype FoldConfig = FoldConfig(returnAllMessages: bool, messageLimit: nat)

  /** The loop's mutable state: the result and the drain-only latch. */
  datatype LoopState = LoopState(result: CodexResult, parseErrorSeen: bool)

  function StartState(): LoopState {
    LoopState(InitialResult(), false)
  }

  // ---------------------------------------------------------------- agent text

  /** What the 10 MiB cap guarantees: below the cap while not truncated; once
      truncated, a text within the cap followed by the marker. */
  predicate AgentTextBounded(r: CodexResult) {
    if !r.agentMessagesTruncated then Utf8Len(r.agentMessages) <= MaxAgentMessagesSize
    else
      IsSuffix(TruncationMarker, r.agentMessages)
      && Utf8Len(r.agentMessages[..|r.agentMessages| - |TruncationMarker|]) <= MaxAgentMessagesSize
  }

  /** The bound in bytes that follows from AgentTextBounded. */
  lemma AgentTextSize(r: CodexResult)
    requires AgentTextBounded(r)
    ensures Utf8Len(r.agentMessages) <= MaxAgentMessagesSize + Utf8Len(TruncationMarker)
  {
    if r.agentMessagesTruncated {
      var a := r.agentMessages;
      var pre := a[..|a| - |TruncationMarker|];
      assert a == pre + TruncationMarker;
      Utf8LenConcat(pre, TruncationMarker);
    }
  }

  /** Appends one agent-message fragment under the byte cap: the fragment
      itself when it fits, else the marker once; nothing once truncated. */
  function AppendAgentText(r: CodexResult, text: string): (r': CodexResult)
    ensures r.agentMessagesTruncated ==> r' == r
    ensures r'.agentMessagesTruncated != r.agentMessagesTruncated
        <==> !r.agentMessagesTruncated && Utf8Len(r.agentMessages) + Utf8Len(text) > MaxAgentMessagesSize
    ensures !r'.agentMessagesTruncated ==> r'.agentMessages == r.agentMessages + text
    ensures !r.agentMessagesTruncated && r'.agentMessagesTruncated ==>
      r'.agentMessages == r.agentMessages + TruncationMarker
    ensures AgentTextBounded(r) ==> AgentTextBounded(r')
    ensures r'.(agentMessages := r.agentMessages, agentMessagesTruncated := r.agentMessagesTruncated) == r
  {
    var a := r.agentMessages;
    if Utf8Len(a) + Utf8Len(text) > MaxAgentMessagesSize then
      if !r.agentMessagesTruncated then
        assert (a + TruncationMarker)[..|a|] == a;
        r.(agentMessages := a + TruncationMarker, agentMessagesTruncated := true)
      else r
    else if !r.agentMessagesTruncated then
      Utf8LenConcat(a, text);
      r.(agentMessages := a + text)
    else r
  }

  /** The text of an `agent_message` item: `item` is an object whose `type`
      is the string "agent_message" and whose `text` is a string. */
  function AgentMessageText(v: Json): Option<string> {
    match GetObject(v, "item")
    case Some(item) =>
      if Get(JObject(item), "type") == Some(JString("agent_message")) then GetString(JObject(item), "text")
      else None
    case None => None
  }

  // ---------------------------------------------------------------- event log

  /** Keeps a parsed event in `all_messages` when events are requested: pushed
      (if it is an object) below the limit, else the sticky flag is set. */
  function CollectEvent(cfg: FoldConfig, r: CodexResult, v: Json): (r': CodexResult)
    ensures !cfg.returnAllMessages ==> r' == r
    ensures cfg.returnAllMessages && |r.allMessages| < cfg.messageLimit && v.JObject? ==>
      r'.allMessages == r.allMessages + [v.fields]
    ensures !(cfg.returnAllMessages && |r.allMessages| < cfg.messageLimit && v.JObject?) ==>
      r'.allMessages == r.allMessages
    ensures |r.allMessages| <= cfg.messageLimit ==> |r'.allMessages| <= cfg.messageLimit
    ensures r'.allMessagesTruncated
        <==> r.allMessagesTruncated || (cfg.returnAllMessages && |r.allMessages| >= cfg.messageLimit)
    ensures r'.(allMessages := r.allMessages, allMessagesTruncated := r.allMessagesTruncated) == r
  {
    if !cfg.returnAllMessages then r
    else if |r.allMessages| < cfg.messageLimit then
      match ToMap(v)
      case Some(m) => r.(allMessages := r.allMessages + [m])
      case None => r
    else if !r.allMessagesTruncated then r.(allMessagesTruncated := true)
    else r
  }

  // ---------------------------------------------------------------- session id

  /** A non-empty string `thread_id`, if the event carries one. */
  function ThreadId(v: Json): Option<string> {
    match GetString(v, "thread_id")
    case Some(t) => if t != "" then Some(t) else None
    case None => None
  }

  /** The latest non-empty `thread_id` becomes the session id. */
  function TakeThreadId(r: CodexResult, v: Json): (r': CodexResult)
    ensures ThreadId(v).Some? ==> r'.sessionId == ThreadId(v).value && r'.sessionId != ""
    ensures ThreadId(v).None? ==> r' == r
    ensures r'.(sessionId := r.sessionId) == r
  {
    match ThreadId(v)
    case Some(t) => r.(sessionId := t)
    case None => r
  }

  // ---------------------------------------------------------------- failures

  /** The event's top-level `type` names a failure: it contains "fail" or "error". */
  predicate IsFailureEvent(v: Json) {
    match GetString(v, "type")
    case Some(t) => Contains(t, "fail") || Contains(t, "error")
    case None => false
  }

  /** The message a failure event carries: `error.message` when `error` is an
      object (and nothing if that object has no string `message`), otherwise
      a top-level string `message`. */
  function FailureMessage(v: Json): Option<string> {
    match GetObject(v, "error")
    case Some(errorObj) => GetString(JObject(errorObj), "message")
    case None => GetString(v, "message")
  }

  const CodexErrorPrefix: string := "codex error: "

  /** A failure event marks the run failed and, when it carries a message,
      replaces the error with it; other events change nothing. */
  function DetectFailure(r: CodexResult, v: Json): (r': CodexResult)
    ensures IsFailureEvent(v) ==> !r'.success
    ensures !IsFailureEvent(v) ==> r' == r
    ensures IsFailureEvent(v) && FailureMessage(v).Some? ==>
      r'.error == Some(CodexErrorPrefix + FailureMessage(v).value)
    ensures FailureMessage(v).None? ==> r'.error == r.error
    ensures r'.(success := r.success, error := r.error) == r
  {
    if IsFailureEvent(v) then
      match FailureMessage(v)
      case Some(msg) => r.(success := false, error := Some(CodexErrorPrefix + msg))
      case None => r.(success := false)
    else r
  }

  // ---------------------------------------------------------------- parse errors

  /** The message recorded for a line that is not JSON. */
  function ParseErrorMessage(reason: string, line: string): string {
    "JSON parse error: " + reason + ". Line: " + line
  }

  /** `record_parse_error`: fails the run and appends the message to a
      non-empty existing error on a new line, keeping that error as a prefix. */
  function RecordParseError(r: CodexResult, parseMsg: string): (r': CodexResult)
    ensures !r'.success
    ensures r'.error.Some? && IsSuffix(parseMsg, r'.error.value)
    ensures r.error.Some? && r.error.value != "" ==>
      IsPrefix(r.error.value + "\n", r'.error.value)
      && |r'.error.value| == |r.error.value| + 1 + |parseMsg|
    ensures r.error.None? || r.error == Some("") ==> r'.error == Some(parseMsg)
    ensures r'.(success := r.success, error := r.error) == r
  {
    var error := match r.error
      case Some(existing) => if existing != "" then Some(existing + "\n" + parseMsg) else Some(parseMsg)
      case None => Some(parseMsg);
    r.(success := false, error := error)
  }

  // ---------------------------------------------------------------- one line

  /** Everything a parsed event does, in the loop's order. */
  function Interpret(cfg: FoldConfig, r: CodexResult, v: Json): CodexResult {
    var collected := CollectEvent(cfg, r, v);
    var withSession := TakeThreadId(collected, v);
    var withText := match AgentMessageText(v)
      case Some(text) => AppendAgentText(withSession, text)
      case None => withSession;
    DetectFailure(withText, v)
  }

  /** One iteration of the stdout loop. */
  function Step(cfg: FoldConfig, s: LoopState, line: Line): LoopState {
    if line.Blank? || s.parseErrorSeen then s
    else match line
      case Malformed(text, reason) =>
        LoopState(RecordParseError(s.result, ParseErrorMessage(reason, text)), true)
      case Event(v) => LoopState(Interpret(cfg, s.result, v), false)
  }

  /** The stdout loop over a whole sequence of lines. */
  function FoldLines(cfg: FoldConfig, s: LoopState, lines: seq<Line>): LoopState
    decreases |lines|
  {
    if lines == [] then s
    else Step(cfg, FoldLines(cfg, s, lines[..|lines| - 1]), lines[|lines| - 1])
  }
}
