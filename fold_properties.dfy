/** Properties of the stdout loop over whole sequences of lines. */
module FoldProperties {
  import opened Wrappers
  import opened Json
  import opened Text
  import opened CodexEvents

  /** What every state the loop reaches satisfies. */
  predicate Consistent(cfg: FoldConfig, r: CodexResult) {
    && AgentTextBounded(r)
    && |r.allMessages| <= cfg.messageLimit
    && (r.allMessagesTruncated ==> cfg.returnAllMessages && |r.allMessages| == cfg.messageLimit)
    && (!cfg.returnAllMessages ==> r.allMessages == [])
    && (r.error.Some? ==> !r.success)
  }

  lemma StartIsConsistent(cfg: FoldConfig)
    ensures Consistent(cfg, StartState().result)
  {
    assert Utf8Len("") == 0;
  }

  /** Each stage of interpreting an event keeps the state Consistent. */
  lemma CollectKeepsConsistent(cfg: FoldConfig, r: CodexResult, v: Json)
    requires Consistent(cfg, r)
    ensures Consistent(cfg, CollectEvent(cfg, r, v))
  {
  }

  lemma TakeThreadIdKeepsConsistent(cfg: FoldConfig, r: CodexResult, v: Json)
    requires Consistent(cfg, r)
    ensures Consistent(cfg, TakeThreadId(r, v))
  {
  }

  lemma AppendKeepsConsistent(cfg: FoldConfig, r: CodexResult, text: string)
    requires Consistent(cfg, r)
    ensures Consistent(cfg, AppendAgentText(r, text))
  {
  }

  lemma DetectKeepsConsistent(cfg: FoldConfig, r: CodexResult, v: Json)
    requires Consistent(cfg, r)
    ensures Consistent(cfg, DetectFailure(r, v))
  {
  }

  lemma InterpretKeepsConsistent(cfg: FoldConfig, r: CodexResult, v: Json)
    requires Consistent(cfg, r)
    ensures Consistent(cfg, Interpret(cfg, r, v))
  {
    var collected := CollectEvent(cfg, r, v);
    CollectKeepsConsistent(cfg, r, v);
    var withSession := TakeThreadId(collected, v);
    TakeThreadIdKeepsConsistent(cfg, collected, v);
    var withText := withSession;
    if AgentMessageText(v).Some? {
      withText := AppendAgentText(withSession, AgentMessageText(v).value);
      AppendKeepsConsistent(cfg, withSession, AgentMessageText(v).value);
    }
    DetectKeepsConsistent(cfg, withText, v);
    assert Interpret(cfg, r, v) == DetectFailure(withText, v);
  }

  lemma StepKeepsConsistent(cfg: FoldConfig, s: LoopState, line: Line)
    requires Consistent(cfg, s.result)
    ensures Consistent(cfg, Step(cfg, s, line).result)
  {
    if !line.Blank? && !s.parseErrorSeen && line.Event? {
      InterpretKeepsConsistent(cfg, s.result, line.value);
    }
  }

  /** Every state the loop reaches is Consistent: agent text within its byte
      cap, the event log within its limit, and an error only on failure. */
  lemma {:induction false} FoldKeepsConsistent(cfg: FoldConfig, s: LoopState, lines: seq<Line>)
    requires Consistent(cfg, s.result)
    ensures Consistent(cfg, FoldLines(cfg, s, lines).result)
    decreases |lines|
  {
    if lines != [] {
      var init := lines[..|lines| - 1];
      FoldKeepsConsistent(cfg, s, init);
      StepKeepsConsistent(cfg, FoldLines(cfg, s, init), lines[|lines| - 1]);
    }
  }

  /** Once the latch is set, no further line changes anything. */
  lemma {:induction false} LatchIsFinal(cfg: FoldConfig, s: LoopState, lines: seq<Line>)
    requires s.parseErrorSeen
    ensures FoldLines(cfg, s, lines) == s
    decreases |lines|
  {
    if lines != [] {
      LatchIsFinal(cfg, s, lines[..|lines| - 1]);
    }
  }

  predicate HasMalformed(lines: seq<Line>) {
    exists i :: 0 <= i < |lines| && lines[i].Malformed?
  }

  lemma HasMalformedSnoc(lines: seq<Line>)
    requires lines != []
    ensures HasMalformed(lines) <==> HasMalformed(lines[..|lines| - 1]) || lines[|lines| - 1].Malformed?
  {
    var init := lines[..|lines| - 1];
    if HasMalformed(lines) && !lines[|lines| - 1].Malformed? {
      var i :| 0 <= i < |lines| && lines[i].Malformed?;
      assert init[i].Malformed?;
    }
    if HasMalformed(init) {
      var i :| 0 <= i < |init| && init[i].Malformed?;
      assert lines[i].Malformed?;
    }
  }

  /** The latch is set exactly when some line failed to parse. */
  lemma {:induction false} LatchIffMalformed(cfg: FoldConfig, s: LoopState, lines: seq<Line>)
    ensures FoldLines(cfg, s, lines).parseErrorSeen <==> s.parseErrorSeen || HasMalformed(lines)
    decreases |lines|
  {
    if lines != [] {
      LatchIffMalformed(cfg, s, lines[..|lines| - 1]);
      HasMalformedSnoc(lines);
    }
  }

  /** The lines that are not empty, in order. */
  function NonBlank(lines: seq<Line>): seq<Line> {
    if lines == [] then []
    else NonBlank(lines[..|lines| - 1]) + (if lines[|lines| - 1].Blank? then [] else [lines[|lines| - 1]])
  }

  /** Empty lines never change anything: the loop over the non-empty lines
      alone ends in the same state. */
  lemma {:induction false} BlankLinesIgnored(cfg: FoldConfig, s: LoopState, lines: seq<Line>)
    ensures FoldLines(cfg, s, NonBlank(lines)) == FoldLines(cfg, s, lines)
    decreases |lines|
  {
    if lines != [] {
      var init := lines[..|lines| - 1];
      var last := lines[|lines| - 1];
      BlankLinesIgnored(cfg, s, init);
      var kept := NonBlank(init);
      if last.Blank? {
        assert NonBlank(lines) == kept;
      } else {
        assert NonBlank(lines) == kept + [last];
        assert (kept + [last])[..|kept|] == kept;
      }
    }
  }

  /** What a later state never undoes of an earlier one. */
  predicate NeverUndone(r: CodexResult, r': CodexResult) {
    && (r'.success ==> r.success)
    && r.agentMessages <= r'.agentMessages
    && (r.agentMessagesTruncated ==> r'.agentMessagesTruncated && r'.agentMessages == r.agentMessages)
    && r.allMessages <= r'.allMessages
    && (r.allMessagesTruncated ==> r'.allMessagesTruncated && r'.allMessages == r.allMessages)
    && (r.error.Some? ==> r'.error.Some?)
  }

  lemma CollectIsMonotone(cfg: FoldConfig, r: CodexResult, v: Json)
    requires Consistent(cfg, r)
    ensures NeverUndone(r, CollectEvent(cfg, r, v))
  {
  }

  lemma TakeThreadIdIsMonotone(r: CodexResult, v: Json)
    ensures NeverUndone(r, TakeThreadId(r, v))
  {
  }

  lemma AppendIsMonotone(r: CodexResult, text: string)
    ensures NeverUndone(r, AppendAgentText(r, text))
  {
  }

  lemma DetectIsMonotone(r: CodexResult, v: Json)
    ensures NeverUndone(r, DetectFailure(r, v))
  {
  }

  lemma NeverUndoneTransitive(a: CodexResult, b: CodexResult, c: CodexResult)
    requires NeverUndone(a, b) && NeverUndone(b, c)
    ensures NeverUndone(a, c)
  {
  }

  lemma InterpretIsMonotone(cfg: FoldConfig, r: CodexResult, v: Json)
    requires Consistent(cfg, r)
    ensures NeverUndone(r, Interpret(cfg, r, v))
  {
    var collected := CollectEvent(cfg, r, v);
    CollectIsMonotone(cfg, r, v);
    var withSession := TakeThreadId(collected, v);
    TakeThreadIdIsMonotone(collected, v);
    NeverUndoneTransitive(r, collected, withSession);
    var withText := withSession;
    if AgentMessageText(v).Some? {
      withText := AppendAgentText(withSession, AgentMessageText(v).value);
      AppendIsMonotone(withSession, AgentMessageText(v).value);
      NeverUndoneTransitive(r, withSession, withText);
    }
    DetectIsMonotone(withText, v);
    NeverUndoneTransitive(r, withText, DetectFailure(withText, v));
    assert Interpret(cfg, r, v) == DetectFailure(withText, v);
  }

  lemma StepIsMonotone(cfg: FoldConfig, s: LoopState, line: Line)
    requires Consistent(cfg, s.result)
    ensures NeverUndone(s.result, Step(cfg, s, line).result)
  {
    if !line.Blank? && !s.parseErrorSeen && line.Event? {
      InterpretIsMonotone(cfg, s.result, line.value);
    }
  }

  /** The sticky flags: failure, both truncation flags and a recorded error are
      never undone; agent text and the event log only grow, and neither grows
      any more once its truncation flag is set. */
  lemma {:induction false} FoldIsMonotone(cfg: FoldConfig, s: LoopState, lines: seq<Line>)
    requires Consistent(cfg, s.result)
    ensures var r := s.result; var r' := FoldLines(cfg, s, lines).result;
      && (r'.success ==> r.success)
      && r.agentMessages <= r'.agentMessages
      && (r.agentMessagesTruncated ==> r'.agentMessagesTruncated && r'.agentMessages == r.agentMessages)
      && r.allMessages <= r'.allMessages
      && (r.allMessagesTruncated ==> r'.allMessagesTruncated && r'.allMessages == r.allMessages)
      && (r.error.Some? ==> r'.error.Some?)
    decreases |lines|
  {
    if lines != [] {
      var init := lines[..|lines| - 1];
      FoldIsMonotone(cfg, s, init);
      FoldKeepsConsistent(cfg, s, init);
      var mid := FoldLines(cfg, s, init);
      StepIsMonotone(cfg, mid, lines[|lines| - 1]);
    }
  }

  /** The parsed events the loop interprets: those before the first line
      that failed to parse. */
  function Interpreted(lines: seq<Line>): seq<Json> {
    if lines == [] then []
    else
      var init := lines[..|lines| - 1];
      if HasMalformed(init) then Interpreted(init)
      else match lines[|lines| - 1]
        case Event(v) => Interpreted(init) + [v]
        case _ => Interpreted(init)
  }

  /** The last non-empty `thread_id` among the events, or the default. */
  function LatestThreadId(events: seq<Json>, default: string): string {
    if events == [] then default
    else match ThreadId(events[|events| - 1])
      case Some(t) => t
      case None => LatestThreadId(events[..|events| - 1], default)
  }

  /** The session id is the latest non-empty `thread_id` among the
      interpreted events, and stays what it was when there is none. */
  lemma {:induction false} SessionIdIsLatest(cfg: FoldConfig, s: LoopState, lines: seq<Line>)
    requires !s.parseErrorSeen
    ensures FoldLines(cfg, s, lines).result.sessionId == LatestThreadId(Interpreted(lines), s.result.sessionId)
    decreases |lines|
  {
    if lines != [] {
      var init := lines[..|lines| - 1];
      var last := lines[|lines| - 1];
      SessionIdIsLatest(cfg, s, init);
      LatchIffMalformed(cfg, s, init);
      var events := Interpreted(init);
      if !HasMalformed(init) && last.Event? {
        assert (events + [last.value])[..|events|] == events;
      }
    }
  }

  /** The events that are JSON objects, as maps, in order. */
  function Objects(events: seq<Json>): seq<JsonMap> {
    if events == [] then []
    else
      Objects(events[..|events| - 1])
      + (match ToMap(events[|events| - 1]) case Some(m) => [m] case None => [])
  }

  /** At most the first n elements. */
  function Take<T>(xs: seq<T>, n: nat): seq<T> {
    if |xs| <= n then xs else xs[..n]
  }

  /** Only collection touches the event log when an event is interpreted. */
  lemma InterpretKeepsLogOfCollect(cfg: FoldConfig, r: CodexResult, v: Json)
    ensures Interpret(cfg, r, v).allMessages == CollectEvent(cfg, r, v).allMessages
    ensures Interpret(cfg, r, v).allMessagesTruncated == CollectEvent(cfg, r, v).allMessagesTruncated
  {
  }

  lemma ObjectsSnoc(events: seq<Json>, v: Json)
    ensures Objects(events + [v]) == Objects(events) + (match ToMap(v) case Some(m) => [m] case None => [])
  {
    assert (events + [v])[..|events|] == events;
  }

  lemma ObjectsGrow(events: seq<Json>)
    requires events != []
    ensures |Objects(events[..|events| - 1])| <= |Objects(events)|
  {
  }

  /** The event log is exactly the first `message_limit` objects among
      `events` (none when not requested), and is marked truncated exactly when
      an event arrived after that many objects had been seen. */
  predicate LogMatches(cfg: FoldConfig, r: CodexResult, events: seq<Json>) {
    && r.allMessages == (if cfg.returnAllMessages then Take(Objects(events), cfg.messageLimit) else [])
    && (r.allMessagesTruncated <==>
          cfg.returnAllMessages && |events| > 0
          && |Objects(events[..|events| - 1])| >= cfg.messageLimit)
  }

  /** The event log after one more interpreted event, in terms of the events. */
  lemma LogAfterEvent(cfg: FoldConfig, r: CodexResult, events: seq<Json>, v: Json)
    requires LogMatches(cfg, r, events)
    ensures LogMatches(cfg, Interpret(cfg, r, v), events + [v])
  {
    var events' := events + [v];
    InterpretKeepsLogOfCollect(cfg, r, v);
    ObjectsSnoc(events, v);
    assert events'[..|events'| - 1] == events;
    var objs := Objects(events);
    if events != [] {
      ObjectsGrow(events);
    }
    if cfg.returnAllMessages && |objs| >= cfg.messageLimit {
      assert Objects(events')[..cfg.messageLimit] == objs[..cfg.messageLimit];
    }
  }

  /** The event log after one more line, in terms of the events interpreted. */
  lemma LogAfterLine(cfg: FoldConfig, mid: LoopState, events: seq<Json>, last: Line)
    requires LogMatches(cfg, mid.result, events)
    ensures LogMatches(cfg, Step(cfg, mid, last).result,
      if !mid.parseErrorSeen && last.Event? then events + [last.value] else events)
  {
    if !mid.parseErrorSeen && last.Event? {
      LogAfterEvent(cfg, mid.result, events, last.value);
    }
  }

  /** The event log holds exactly the first `message_limit` object events (none
      when events were not requested), and it is marked truncated exactly when
      some event arrived after that many objects had been seen. */
  lemma {:induction false} AllMessagesAreFirstObjects(cfg: FoldConfig, s: LoopState, lines: seq<Line>)
    requires !s.parseErrorSeen && s.result.allMessages == [] && !s.result.allMessagesTruncated
    ensures LogMatches(cfg, FoldLines(cfg, s, lines).result, Interpreted(lines))
    decreases |lines|
  {
    if lines != [] {
      var init := lines[..|lines| - 1];
      var last := lines[|lines| - 1];
      AllMessagesAreFirstObjects(cfg, s, init);
      LatchIffMalformed(cfg, s, init);
      var mid := FoldLines(cfg, s, init);
      LogAfterLine(cfg, mid, Interpreted(init), last);
    }
  }

  lemma InterpretSuccess(cfg: FoldConfig, r: CodexResult, v: Json)
    requires Interpret(cfg, r, v).success
    ensures r.success && !IsFailureEvent(v)
  {
    var collected := CollectEvent(cfg, r, v);
    var withSession := TakeThreadId(collected, v);
    assert withSession.success == r.success;
  }

  /** A successful loop saw no unparseable line and no failure event, and
      started successful. */
  lemma {:induction false} SuccessMeansNoFailure(cfg: FoldConfig, s: LoopState, lines: seq<Line>)
    requires !s.parseErrorSeen
    ensures var r := FoldLines(cfg, s, lines).result; var events := Interpreted(lines);
      r.success ==>
        && s.result.success
        && !HasMalformed(lines)
        && forall i :: 0 <= i < |events| ==> !IsFailureEvent(events[i])
    decreases |lines|
  {
    if lines != [] {
      var init := lines[..|lines| - 1];
      var last := lines[|lines| - 1];
      SuccessMeansNoFailure(cfg, s, init);
      LatchIffMalformed(cfg, s, init);
      HasMalformedSnoc(lines);
      var events := Interpreted(init);
      if !HasMalformed(init) && last.Event? {
        var events' := events + [last.value];
        assert events'[..|events|] == events;
        assert Interpreted(lines) == events';
        var mid := FoldLines(cfg, s, init);
        assert FoldLines(cfg, s, lines).result == Interpret(cfg, mid.result, last.value);
        if FoldLines(cfg, s, lines).result.success {
          InterpretSuccess(cfg, mid.result, last.value);
          assert forall i :: 0 <= i < |Interpreted(init)| ==> !IsFailureEvent(Interpreted(init)[i]);
          forall i | 0 <= i < |events'|
            ensures !IsFailureEvent(events'[i])
          {
            if i < |events| {
              assert events'[i] == events[i];
            }
          }
          assert forall i :: 0 <= i < |Interpreted(lines)| ==> !IsFailureEvent(Interpreted(lines)[i]);
        }
      } else {
        assert Interpreted(lines) == events;
        var mid := FoldLines(cfg, s, init);
        if FoldLines(cfg, s, lines).result.success {
          assert mid.result.success;
          assert forall i :: 0 <= i < |Interpreted(init)| ==> !IsFailureEvent(Interpreted(init)[i]);
        }
      }
    }
  }
}
