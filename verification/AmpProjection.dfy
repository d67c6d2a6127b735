/**
  packages/adapters/amp/src/projection.ts over the envelope rules of
  packages/adapters/base/src/correlation.ts: Amp stream messages become events.

  Events carry the tool_use id or message id they stem from, so that the run
  properties can speak of them; ids are drawn from counters.
 */
module AmpProjection {
  import opened Wrappers

  // ----- messages and events ------------------------------------------------

  datatype Block =
    | TextBlock(text: string)
    | ThinkingBlock(text: string)
    | ToolUse(id: string, name: string)
    | ToolResult(toolUseId: string, isError: bool, content: string)
    | OtherBlock

  /** A parsed line. Messages of other types and messages without a content array are `Ignored`. */
  datatype Message =
    | System(sessionId: Option<string>)
    | Assistant(messageId: string, content: seq<Block>)
    | User(content: seq<Block>)
    | Result(isError: bool, errorMessage: Option<string>, snakeStop: Option<string>, camelStop: Option<string>,
        durationMs: int)
    | Malformed(line: string)
    | Ignored

  datatype Body =
    | SessionStart
    | Delta(messageId: string, text: string)
    | Reasoning(text: string)
    | ToolCall(useId: string, callId: nat, tool: string)
    | ToolAnswer(useId: string, callId: nat, ok: bool, summary: string)
    | Usage
    | Cost
    | Error(fatal: bool, message: string)
    | TurnEnd(stopReason: string, durationMs: int)

  datatype Event = Event(eventId: nat, seqNo: nat, turnId: nat, parent: Option<nat>, body: Body)

  /** `ProjectionState` and `CorrelationState`, with the events emitted so far. */
  datatype State = State(
    sessionStartEmitted: bool, turnOpen: bool,
    toolCallIds: map<string, nat>, toolCallParents: map<string, nat>,
    toolCallsEmitted: set<string>, toolResultsEmitted: set<string>,
    textCumulative: map<string, string>, boundSessionId: Option<string>,
    currentTurn: Option<nat>, turnClosed: bool,
    nextEvent: nat, nextTurn: nat, nextCall: nat, log: seq<Event>)

  const START := State(false, false, map[], map[], {}, {}, map[], None, None, false, 0, 0, 0, [])

  /** `envelope()` would not throw. */
  predicate CanMint(s: State) {
    s.currentTurn.Some? && !s.turnClosed
  }

  /** The projector's idea of an open turn agrees with the correlation state. */
  predicate Synced(s: State) {
    s.turnOpen ==> CanMint(s)
  }

  // ----- the code on a value ------------------------------------------------

  function OpenTurn(s: State): (r: State)
    requires Synced(s)
    ensures r.turnOpen && CanMint(r)
  {
    if s.turnOpen then s
    else s.(currentTurn := Some(s.nextTurn), nextTurn := s.nextTurn + 1, turnClosed := false, turnOpen := true)
  }

  /** Pushes an event with a new envelope; defined only while a turn is open. */
  function Emit(s: State, parent: Option<nat>, body: Body): (r: State)
    requires CanMint(s)
    ensures CanMint(r) && r.turnOpen == s.turnOpen
  {
    s.(log := s.log + [Event(s.nextEvent, |s.log| + 1, s.currentTurn.value, parent, body)],
       nextEvent := s.nextEvent + 1)
  }

  function Chunk(prev: string, text: string): string {
    if prev <= text && |prev| > 0 then text[|prev|..] else text
  }

  function AssistantBlock(s: State, messageId: string, b: Block): (r: State)
    requires s.turnOpen && CanMint(s)
    ensures r.turnOpen && CanMint(r)
  {
    match b
    case TextBlock(text) =>
      if text == "" then s
      else
        var prev := if messageId in s.textCumulative then s.textCumulative[messageId] else "";
        var chunk := Chunk(prev, text);
        var s1 := s.(textCumulative := s.textCumulative[messageId := text]);
        if chunk == "" then s1 else Emit(s1, None, Delta(messageId, chunk))
    case ThinkingBlock(text) => if text == "" then s else Emit(s, None, Reasoning(text))
    case ToolUse(id, name) =>
      if id == "" || id in s.toolCallsEmitted then s
      else
        var callId := if id in s.toolCallIds then s.toolCallIds[id] else s.nextCall;
        var s1 := s.(nextCall := if id in s.toolCallIds then s.nextCall else s.nextCall + 1,
                     toolCallIds := s.toolCallIds[id := callId],
                     toolCallParents := s.toolCallParents[id := s.nextEvent],
                     toolCallsEmitted := s.toolCallsEmitted + {id});
        Emit(s1, None, ToolCall(id, callId, name))
    case _ => s
  }

  function UserBlock(s: State, b: Block): (r: State)
    requires Synced(s)
    ensures Synced(r)
  {
    if !b.ToolResult? || b.toolUseId == "" || b.toolUseId in s.toolResultsEmitted then s
    else
      var id := b.toolUseId;
      var callId := if id in s.toolCallIds then s.toolCallIds[id] else s.nextCall;
      var parent := if id in s.toolCallParents then Some(s.toolCallParents[id]) else None;
      var s1 := OpenTurn(s.(nextCall := if id in s.toolCallIds then s.nextCall else s.nextCall + 1,
                            toolResultsEmitted := s.toolResultsEmitted + {id}));
      Emit(s1, parent, ToolAnswer(id, callId, !b.isError, b.content))
  }

  /** The state after the first `n` blocks of an assistant message. */
  function AssistantBlocks(s: State, messageId: string, content: seq<Block>, n: nat): (r: State)
    requires s.turnOpen && CanMint(s) && n <= |content|
    ensures r.turnOpen && CanMint(r)
  {
    if n == 0 then s else AssistantBlock(AssistantBlocks(s, messageId, content, n - 1), messageId, content[n - 1])
  }

  function UserBlocks(s: State, content: seq<Block>, n: nat): (r: State)
    requires Synced(s) && n <= |content|
    ensures Synced(r)
  {
    if n == 0 then s else UserBlock(UserBlocks(s, content, n - 1), content[n - 1])
  }

  function StopReason(m: Message): string
    requires m.Result?
  {
    if m.isError then OrElse(m.errorMessage, OrElse(m.snakeStop, "error"))
    else OrElse(m.snakeStop, OrElse(m.camelStop, "end_turn"))
  }

  /** `value ?? fallback`. */
  function OrElse(value: Option<string>, fallback: string): string {
    if value.Some? then value.value else fallback
  }

  function EmitError(s: State, m: Message): (r: State)
    requires CanMint(s) && m.Result?
    ensures CanMint(r) && r.turnOpen == s.turnOpen
  {
    if m.isError then Emit(s, None, Error(true, OrElse(m.errorMessage, "amp turn ended with is_error"))) else s
  }

  function ResultMessage(s: State, m: Message): (r: State)
    requires Synced(s) && m.Result?
    ensures Synced(r)
  {
    var s1 := EmitError(Emit(Emit(OpenTurn(s), None, Usage), None, Cost), m);
    Emit(s1, None, TurnEnd(StopReason(m), m.durationMs)).(turnClosed := true, turnOpen := false)
  }

  function Bind(s: State, sessionId: Option<string>): State {
    if sessionId.Some? && sessionId.value != "" && s.boundSessionId.None? then s.(boundSessionId := sessionId) else s
  }

  function SystemMessage(s: State, sessionId: Option<string>): (r: State)
    requires Synced(s)
    ensures Synced(r)
  {
    var s1 := Bind(s, sessionId);
    if s.sessionStartEmitted then s1 else Emit(OpenTurn(s1.(sessionStartEmitted := true)), None, SessionStart)
  }

  function Project(s: State, m: Message): (r: State)
    requires Synced(s)
    ensures Synced(r)
  {
    match m
    case System(sessionId) => SystemMessage(s, sessionId)
    case Assistant(messageId, content) => AssistantBlocks(OpenTurn(s), messageId, content, |content|)
    case User(content) => UserBlocks(s, content, |content|)
    case Result(_, _, _, _, _) => ResultMessage(s, m)
    case Malformed(line) => Emit(OpenTurn(s), None, Error(false, line))
    case Ignored => s
  }

  /** The state after the first `n` messages of a stream. */
  function Run(ms: seq<Message>, n: nat): (r: State)
    requires n <= |ms|
    ensures Synced(r)
  {
    if n == 0 then START else Project(Run(ms, n - 1), ms[n - 1])
  }

  // ----- what every message keeps -------------------------------------------

  predicate IsCall(e: Event, id: string) {
    e.body.ToolCall? && e.body.useId == id
  }

  predicate IsAnswer(e: Event, id: string) {
    e.body.ToolAnswer? && e.body.useId == id
  }

  ghost predicate HasCall(log: seq<Event>, id: string) {
    exists i :: 0 <= i < |log| && IsCall(log[i], id)
  }

  ghost predicate HasAnswer(log: seq<Event>, id: string) {
    exists i :: 0 <= i < |log| && IsAnswer(log[i], id)
  }

  /**
    At most one event per tool_use id and kind, at most one session start, sequence
    numbers without gaps, growing event ids.
   */
  ghost predicate LogOk(log: seq<Event>, nextEvent: nat) {
    && (forall i :: 0 <= i < |log| ==> log[i].seqNo == i + 1 && log[i].eventId < nextEvent)
    && (forall i, j :: 0 <= i < j < |log| ==> log[i].eventId < log[j].eventId)
    && (forall i, j, id :: 0 <= i < j < |log| && IsCall(log[i], id) ==> !IsCall(log[j], id))
    && (forall i, j, id :: 0 <= i < j < |log| && IsAnswer(log[i], id) ==> !IsAnswer(log[j], id))
    && (forall i, j :: 0 <= i < j < |log| && log[i].body.SessionStart? ==> !log[j].body.SessionStart?)
  }

  /**
    A result after its call has the call's id and event; a result's parent is never
    anything but an earlier call of its id.
   */
  ghost predicate LinksOk(log: seq<Event>) {
    && (forall i, j, id :: 0 <= i < j < |log| && IsCall(log[i], id) && IsAnswer(log[j], id) ==>
          log[j].body.callId == log[i].body.callId && log[j].parent == Some(log[i].eventId))
    && (forall j :: 0 <= j < |log| && log[j].parent.Some? ==> ParentIsCall(log, j))
  }

  ghost predicate ParentIsCall(log: seq<Event>, j: nat)
    requires j < |log| && log[j].parent.Some?
  {
    log[j].body.ToolAnswer? &&
    exists i :: 0 <= i < j && IsCall(log[i], log[j].body.useId) && log[i].eventId == log[j].parent.value
  }

  /** The maps and sets of the state describe the log. */
  ghost predicate TablesOk(s: State) {
    && (forall id :: id in s.toolCallsEmitted <==> HasCall(s.log, id))
    && (forall id :: id in s.toolResultsEmitted <==> HasAnswer(s.log, id))
    && s.toolCallIds.Keys == s.toolCallsEmitted && s.toolCallParents.Keys == s.toolCallsEmitted
    && (forall i, id :: 0 <= i < |s.log| && IsCall(s.log[i], id) && id in s.toolCallIds && id in s.toolCallParents ==>
          s.toolCallIds[id] == s.log[i].body.callId && s.toolCallParents[id] == s.log[i].eventId)
    && (s.sessionStartEmitted <==> exists i :: 0 <= i < |s.log| && s.log[i].body.SessionStart?)
  }

  predicate HasCallId(e: Event) {
    e.body.ToolCall? || e.body.ToolAnswer?
  }

  /** Call ids stem from the counter, and a call never gets the id of a result that overtook it. */
  ghost predicate CallIdsOk(log: seq<Event>, nextCall: nat) {
    && (forall i :: 0 <= i < |log| && HasCallId(log[i]) ==> log[i].body.callId < nextCall)
    && (forall i, j, id :: 0 <= i < j < |log| && IsAnswer(log[i], id) && IsCall(log[j], id) ==>
      log[i].body.callId != log[j].body.callId)
  }

  ghost predicate Inv(s: State) {
    Synced(s) && LogOk(s.log, s.nextEvent) && LinksOk(s.log) && TablesOk(s) && CallIdsOk(s.log, s.nextCall)
  }

  // ----- appending one event ------------------------------------------------

  lemma AppendHas(log: seq<Event>, e: Event, id: string)
    ensures HasCall(log + [e], id) <==> HasCall(log, id) || IsCall(e, id)
    ensures HasAnswer(log + [e], id) <==> HasAnswer(log, id) || IsAnswer(e, id)
  {
    var longer := log + [e];
    assert longer[|log|] == e;
    if HasCall(log, id) { var i :| 0 <= i < |log| && IsCall(log[i], id); assert IsCall(longer[i], id); }
    if HasAnswer(log, id) { var i :| 0 <= i < |log| && IsAnswer(log[i], id); assert IsAnswer(longer[i], id); }
  }

  lemma AppendLog(log: seq<Event>, nextEvent: nat, e: Event)
    requires LogOk(log, nextEvent) && e.eventId == nextEvent && e.seqNo == |log| + 1
    requires e.body.ToolCall? ==> !HasCall(log, e.body.useId)
    requires e.body.ToolAnswer? ==> !HasAnswer(log, e.body.useId)
    requires e.body.SessionStart? ==> forall i :: 0 <= i < |log| ==> !log[i].body.SessionStart?
    ensures LogOk(log + [e], nextEvent + 1)
  {
  }

  lemma AppendLinks(log: seq<Event>, e: Event)
    requires LinksOk(log)
    requires e.parent.Some? ==> e.body.ToolAnswer? && exists i ::
      0 <= i < |log| && IsCall(log[i], e.body.useId) && log[i].eventId == e.parent.value
    requires forall i :: 0 <= i < |log| && e.body.ToolAnswer? && IsCall(log[i], e.body.useId) ==>
      e.body.callId == log[i].body.callId && e.parent == Some(log[i].eventId)
    ensures LinksOk(log + [e])
  {
    var longer := log + [e];
    forall j | 0 <= j < |longer| && longer[j].parent.Some? ensures ParentIsCall(longer, j) {
      if j < |log| {
        assert ParentIsCall(log, j);
        var i :| 0 <= i < j && IsCall(log[i], log[j].body.useId) && log[i].eventId == log[j].parent.value;
        assert IsCall(longer[i], longer[j].body.useId);
      } else {
        var i :| 0 <= i < |log| && IsCall(log[i], e.body.useId) && log[i].eventId == e.parent.value;
        assert IsCall(longer[i], longer[j].body.useId);
      }
    }
  }

  /** A new event has no call id, a known one if it is no call, or the next one. */
  lemma AppendCallIds(log: seq<Event>, nextCall: nat, e: Event, next: nat)
    requires CallIdsOk(log, nextCall) && nextCall <= next
    requires HasCallId(e) ==> e.body.callId < next && (e.body.ToolCall? ==> e.body.callId >= nextCall)
    ensures CallIdsOk(log + [e], next)
  {
  }

  predicate Plain(b: Body) {
    !b.ToolCall? && !b.ToolAnswer? && !b.SessionStart?
  }

  lemma EmitPlain(s: State, body: Body)
    requires Inv(s) && CanMint(s) && Plain(body)
    ensures Inv(Emit(s, None, body))
  {
    AddPlain(s, Event(s.nextEvent, |s.log| + 1, s.currentTurn.value, None, body), Emit(s, None, body));
  }

  lemma AddPlain(s: State, e: Event, r: State)
    requires Inv(s) && Plain(e.body) && e.eventId == s.nextEvent && e.seqNo == |s.log| + 1 && e.parent == None
    requires r == s.(log := s.log + [e], nextEvent := s.nextEvent + 1)
    ensures Inv(r)
  {
    PlainKeepsLog(s, e);
    AppendTables(s, e);
  }

  lemma PlainKeepsLog(s: State, e: Event)
    requires LogOk(s.log, s.nextEvent) && LinksOk(s.log) && CallIdsOk(s.log, s.nextCall)
    requires Plain(e.body) && e.eventId == s.nextEvent && e.seqNo == |s.log| + 1 && e.parent == None
    ensures LogOk(s.log + [e], s.nextEvent + 1) && LinksOk(s.log + [e]) && CallIdsOk(s.log + [e], s.nextCall)
  {
    AppendLog(s.log, s.nextEvent, e);
    AppendLinks(s.log, e);
    AppendCallIds(s.log, s.nextCall, e, s.nextCall);
  }

  /** An event that is no call, answer or start leaves the tables as they are. */
  lemma AppendTables(s: State, e: Event)
    requires TablesOk(s) && Plain(e.body)
    ensures TablesOk(s.(log := s.log + [e], nextEvent := s.nextEvent + 1))
  {
    forall id ensures HasCall(s.log + [e], id) <==> HasCall(s.log, id) { AppendHas(s.log, e, id); }
    forall id ensures HasAnswer(s.log + [e], id) <==> HasAnswer(s.log, id) { AppendHas(s.log, e, id); }
    StartSnoc(s.log, e);
  }

  ghost predicate Started(log: seq<Event>) {
    exists i :: 0 <= i < |log| && log[i].body.SessionStart?
  }

  lemma StartSnoc(log: seq<Event>, e: Event)
    ensures Started(log + [e]) <==> Started(log) || e.body.SessionStart?
  {
    var longer := log + [e];
    assert longer[|log|] == e;
    if Started(log) { var i :| 0 <= i < |log| && log[i].body.SessionStart?; assert longer[i].body.SessionStart?; }
  }

  lemma StartTables(s: State, s1: State, e: Event)
    requires TablesOk(s) && e.body.SessionStart? && s1.log == s.log + [e] && s1.sessionStartEmitted
    requires s1.toolResultsEmitted == s.toolResultsEmitted && s1.toolCallsEmitted == s.toolCallsEmitted
    requires s1.toolCallIds == s.toolCallIds && s1.toolCallParents == s.toolCallParents
    ensures TablesOk(s1)
  {
    forall q ensures (q in s1.toolCallsEmitted <==> HasCall(s1.log, q)) &&
      (q in s1.toolResultsEmitted <==> HasAnswer(s1.log, q)) {
      AppendHas(s.log, e, q);
    }
    StartSnoc(s.log, e);
  }

  lemma EmitStart(s: State)
    requires Inv(s) && CanMint(s) && !s.sessionStartEmitted
    ensures Inv(Emit(s.(sessionStartEmitted := true), None, SessionStart))
  {
    var e := Event(s.nextEvent, |s.log| + 1, s.currentTurn.value, None, SessionStart);
    StartTables(s, Emit(s.(sessionStartEmitted := true), None, SessionStart), e);
    AppendLog(s.log, s.nextEvent, e);
    AppendLinks(s.log, e);
    AppendCallIds(s.log, s.nextCall, e, s.nextCall);
  }

  lemma OpenKeepsInv(s: State)
    requires Inv(s)
    ensures Inv(OpenTurn(s))
  {
  }

  // ----- blocks -------------------------------------------------------------

  lemma CallTables(s: State, id: string, name: string)
    requires TablesOk(s) && id !in s.toolCallsEmitted && s.turnOpen && CanMint(s) && id != ""
    ensures TablesOk(AssistantBlock(s, "", ToolUse(id, name)))
  {
    var r := AssistantBlock(s, "", ToolUse(id, name));
    var e := r.log[|s.log|];
    assert r.log == s.log + [e] && IsCall(e, id) && e.body.callId == s.nextCall && e.eventId == s.nextEvent;
    forall q ensures (q in r.toolCallsEmitted <==> HasCall(r.log, q)) &&
      (q in r.toolResultsEmitted <==> HasAnswer(r.log, q)) {
      AppendHas(s.log, e, q);
    }
    StartSnoc(s.log, e);
    forall i, q | 0 <= i < |r.log| && IsCall(r.log[i], q) && q in r.toolCallIds && q in r.toolCallParents
      ensures r.toolCallIds[q] == r.log[i].body.callId && r.toolCallParents[q] == r.log[i].eventId
    {
      if i < |s.log| { assert HasCall(s.log, q); }
    }
  }

  lemma CallKeepsInv(s: State, messageId: string, id: string, name: string)
    requires Inv(s) && s.turnOpen && CanMint(s)
    ensures Inv(AssistantBlock(s, messageId, ToolUse(id, name)))
  {
    if id != "" && id !in s.toolCallsEmitted {
      CallTables(s, id, name);
      var r := AssistantBlock(s, messageId, ToolUse(id, name));
      var e := r.log[|s.log|];
      assert r.log == s.log + [e];
      AppendLog(s.log, s.nextEvent, e);
      AppendLinks(s.log, e);
      AppendCallIds(s.log, s.nextCall, e, s.nextCall + 1);
    }
  }

  lemma AssistantKeepsInv(s: State, messageId: string, b: Block)
    requires Inv(s) && s.turnOpen && CanMint(s)
    ensures Inv(AssistantBlock(s, messageId, b))
  {
    match b
    case TextBlock(text) =>
      var prev := if messageId in s.textCumulative then s.textCumulative[messageId] else "";
      var s1 := s.(textCumulative := s.textCumulative[messageId := text]);
      if text != "" {
        assert Inv(s1);
        EmitPlain(s1, Delta(messageId, Chunk(prev, text)));
      }
    case ThinkingBlock(text) => if text != "" { EmitPlain(s, Reasoning(text)); }
    case ToolUse(id, name) => CallKeepsInv(s, messageId, id, name);
    case _ =>
  }

  lemma AnswerTables(s: State, s1: State, e: Event)
    requires TablesOk(s) && e.body.ToolAnswer? && s1.log == s.log + [e]
    requires s1.toolResultsEmitted == s.toolResultsEmitted + {e.body.useId} && s1.toolCallsEmitted == s.toolCallsEmitted
    requires s1.toolCallIds == s.toolCallIds && s1.toolCallParents == s.toolCallParents &&
      s1.sessionStartEmitted == s.sessionStartEmitted
    ensures TablesOk(s1)
  {
    forall q ensures (q in s1.toolCallsEmitted <==> HasCall(s1.log, q)) &&
      (q in s1.toolResultsEmitted <==> HasAnswer(s1.log, q)) {
      AppendHas(s.log, e, q);
    }
    StartSnoc(s.log, e);
  }

  lemma AnswerLinks(s: State, e: Event)
    requires LinksOk(s.log) && TablesOk(s) && e.body.ToolAnswer?
    requires var id := e.body.useId;
      && (id in s.toolCallIds ==> e.body.callId == s.toolCallIds[id])
      && e.parent == (if id in s.toolCallParents then Some(s.toolCallParents[id]) else None)
    ensures LinksOk(s.log + [e])
  {
    var id := e.body.useId;
    if id in s.toolCallParents {
      assert HasCall(s.log, id);
      var i :| 0 <= i < |s.log| && IsCall(s.log[i], id);
      assert s.log[i].eventId == e.parent.value;
    }
    forall i | 0 <= i < |s.log| && IsCall(s.log[i], id)
      ensures e.body.callId == s.log[i].body.callId && e.parent == Some(s.log[i].eventId)
    {
      assert HasCall(s.log, id);
    }
    AppendLinks(s.log, e);
  }

  lemma KnownCallId(s: State, id: string)
    requires TablesOk(s) && CallIdsOk(s.log, s.nextCall)
    ensures id in s.toolCallIds ==> s.toolCallIds[id] < s.nextCall
  {
    if id in s.toolCallIds {
      assert HasCall(s.log, id);
      var i :| 0 <= i < |s.log| && IsCall(s.log[i], id);
      assert HasCallId(s.log[i]);
    }
  }

  lemma UserKeepsInv(s: State, b: Block)
    requires Inv(s)
    ensures Inv(UserBlock(s, b))
  {
    if b.ToolResult? && b.toolUseId != "" && b.toolUseId !in s.toolResultsEmitted {
      var r := UserBlock(s, b);
      var e := r.log[|s.log|];
      assert r.log == s.log + [e];
      AnswerTables(s, r, e);
      AppendLog(s.log, s.nextEvent, e);
      AnswerLinks(s, e);
      KnownCallId(s, b.toolUseId);
      AppendCallIds(s.log, s.nextCall, e, r.nextCall);
    }
  }

  lemma {:induction false} AssistantBlocksKeepInv(s: State, messageId: string, content: seq<Block>, n: nat)
    requires Inv(s) && s.turnOpen && CanMint(s) && n <= |content|
    ensures Inv(AssistantBlocks(s, messageId, content, n))
  {
    if n > 0 {
      AssistantBlocksKeepInv(s, messageId, content, n - 1);
      AssistantKeepsInv(AssistantBlocks(s, messageId, content, n - 1), messageId, content[n - 1]);
    }
  }

  lemma {:induction false} UserBlocksKeepInv(s: State, content: seq<Block>, n: nat)
    requires Inv(s) && n <= |content|
    ensures Inv(UserBlocks(s, content, n))
  {
    if n > 0 {
      UserBlocksKeepInv(s, content, n - 1);
      UserKeepsInv(UserBlocks(s, content, n - 1), content[n - 1]);
    }
  }

  lemma ResultKeepsInv(s: State, m: Message)
    requires Inv(s) && m.Result?
    ensures Inv(ResultMessage(s, m))
  {
    OpenKeepsInv(s);
    var s0 := OpenTurn(s);
    EmitPlain(s0, Usage);
    var s1 := Emit(s0, None, Usage);
    EmitPlain(s1, Cost);
    var s2 := Emit(s1, None, Cost);
    var error := Error(true, OrElse(m.errorMessage, "amp turn ended with is_error"));
    if m.isError { EmitPlain(s2, error); }
    var s3 := if m.isError then Emit(s2, None, error) else s2;
    EmitPlain(s3, TurnEnd(StopReason(m), m.durationMs));
    CloseKeepsInv(Emit(s3, None, TurnEnd(StopReason(m), m.durationMs)));
  }

  lemma CloseKeepsInv(s: State)
    requires Inv(s)
    ensures Inv(s.(turnClosed := true, turnOpen := false))
  {
  }

  lemma SystemKeepsInv(s: State, sessionId: Option<string>)
    requires Inv(s)
    ensures Inv(SystemMessage(s, sessionId))
  {
    var s1 := Bind(s, sessionId);
    BindKeepsInv(s, s1.boundSessionId);
    if !s.sessionStartEmitted {
      OpenKeepsInv(s1);
      EmitStart(OpenTurn(s1));
      StartCommutes(s1);
    }
  }

  lemma BindKeepsInv(s: State, bound: Option<string>)
    requires Inv(s)
    ensures Inv(s.(boundSessionId := bound))
  {
  }

  lemma StartCommutes(s: State)
    requires Synced(s)
    ensures OpenTurn(s.(sessionStartEmitted := true)) == OpenTurn(s).(sessionStartEmitted := true)
  {
  }

  lemma ProjectKeepsInv(s: State, m: Message)
    requires Inv(s)
    ensures Inv(Project(s, m))
  {
    hide Inv;
    OpenKeepsInv(s);
    match m
    case System(sessionId) => SystemKeepsInv(s, sessionId);
    case Assistant(messageId, content) => AssistantBlocksKeepInv(OpenTurn(s), messageId, content, |content|);
    case User(content) => UserBlocksKeepInv(s, content, |content|);
    case Result(_, _, _, _, _) => ResultKeepsInv(s, m);
    case Malformed(line) => EmitPlain(OpenTurn(s), Error(false, line));
    case Ignored =>
  }

  lemma {:induction false} RunKeepsInv(ms: seq<Message>, n: nat)
    requires n <= |ms|
    ensures Inv(Run(ms, n))
  {
    if n > 0 {
      RunKeepsInv(ms, n - 1);
      ProjectKeepsInv(Run(ms, n - 1), ms[n - 1]);
    }
  }

  // ----- what holds of every stream -----------------------------------------

  /** Each tool_use id gives at most one call and one result event; there is at most one session start. */
  lemma AtMostOnce(ms: seq<Message>, i: nat, j: nat, id: string)
    requires i < j < |Run(ms, |ms|).log|
    ensures var log := Run(ms, |ms|).log;
      && !(IsCall(log[i], id) && IsCall(log[j], id))
      && !(IsAnswer(log[i], id) && IsAnswer(log[j], id))
      && !(log[i].body.SessionStart? && log[j].body.SessionStart?)
      && log[i].eventId < log[j].eventId && log[i].seqNo < log[j].seqNo
  {
    RunKeepsInv(ms, |ms|);
  }

  /** A result that follows its call carries the call's id and points at the call's event. */
  lemma ResultLinksToCall(ms: seq<Message>, i: nat, j: nat, id: string)
    requires var log := Run(ms, |ms|).log; i < j < |log| && IsCall(log[i], id) && IsAnswer(log[j], id)
    ensures var log := Run(ms, |ms|).log;
      log[j].body.callId == log[i].body.callId && log[j].parent == Some(log[i].eventId)
  {
    RunKeepsInv(ms, |ms|);
  }

  /**
    In every stream, a result that overtakes its call has no parent and an id of its
    own, which the call does not share.
   */
  lemma OvertakingResultIsUnlinked(ms: seq<Message>, i: nat, j: nat, id: string)
    requires var log := Run(ms, |ms|).log; i < j < |log| && IsAnswer(log[i], id) && IsCall(log[j], id)
    ensures var log := Run(ms, |ms|).log;
      log[i].parent == None && log[i].body.callId != log[j].body.callId
  {
    RunKeepsInv(ms, |ms|);
    ParentBefore(Run(ms, |ms|).log, i, id);
  }

  lemma ParentBefore(log: seq<Event>, i: nat, id: string)
    requires LinksOk(log) && i < |log| && IsAnswer(log[i], id)
    ensures log[i].parent.Some? ==> exists k :: 0 <= k < i && IsCall(log[k], id)
  {
  }

  /**
    A result shares its call's id and points at the call's event exactly when the
    call comes first; otherwise it does neither.
   */
  lemma ResultIsLinkedIff(ms: seq<Message>, call: nat, answer: nat, id: string)
    requires var log := Run(ms, |ms|).log;
      call < |log| && answer < |log| && IsCall(log[call], id) && IsAnswer(log[answer], id)
    ensures var log := Run(ms, |ms|).log;
      && (log[answer].body.callId == log[call].body.callId <==> call < answer)
      && (log[answer].parent == Some(log[call].eventId) <==> call < answer)
  {
    if call < answer {
      ResultLinksToCall(ms, call, answer, id);
    } else {
      OvertakingResultIsUnlinked(ms, answer, call, id);
    }
  }

  /** Such a stream: the result of `id` comes before its call. */
  lemma OvertakingStream(id: string, name: string, content: string) returns (ms: seq<Message>)
    requires id != ""
    ensures var log := Run(ms, |ms|).log; |log| == 2 && IsAnswer(log[0], id) && IsCall(log[1], id)
  {
    ms := [User([ToolResult(id, false, content)]), Assistant("m", [ToolUse(id, name)])];
    assert Run(ms, 0) == START;
    var s1 := UserBlock(START, ToolResult(id, false, content));
    assert UserBlocks(START, ms[0].content, 1) == UserBlock(UserBlocks(START, ms[0].content, 0), ms[0].content[0]);
    assert UserBlocks(START, ms[0].content, 1) == s1;
    assert Run(ms, 1) == Project(Run(ms, 0), ms[0]) == s1;
    var s2 := AssistantBlock(OpenTurn(s1), "m", ToolUse(id, name));
    assert AssistantBlocks(OpenTurn(s1), "m", ms[1].content, 1) ==
      AssistantBlock(AssistantBlocks(OpenTurn(s1), "m", ms[1].content, 0), "m", ms[1].content[0]) == s2;
    assert Run(ms, 2) == Project(Run(ms, 1), ms[1]) == s2;
  }

  // ----- what a stream says, text aside -------------------------------------

  /** An event's body without the id drawn for a call; nothing for a piece of text. */
  function ReportOf(b: Body): seq<Body> {
    match b
    case Delta(_, _) => []
    case ToolCall(useId, _, tool) => [ToolCall(useId, 0, tool)]
    case ToolAnswer(useId, _, ok, summary) => [ToolAnswer(useId, 0, ok, summary)]
    case _ => [b]
  }

  function Reports(log: seq<Event>): seq<Body> {
    if log == [] then [] else Reports(log[..|log| - 1]) + ReportOf(log[|log| - 1].body)
  }

  /** The ids of the tool calls, and of the tool results, among the first `n` blocks. */
  function UsedIn(content: seq<Block>, n: nat): set<string>
    requires n <= |content|
  {
    set i | 0 <= i < n && content[i].ToolUse? && content[i].id != "" :: content[i].id
  }

  function AnsweredIn(content: seq<Block>, n: nat): set<string>
    requires n <= |content|
  {
    set i | 0 <= i < n && content[i].ToolResult? && content[i].toolUseId != "" :: content[i].toolUseId
  }

  function Used(ms: seq<Message>, n: nat): set<string>
    requires n <= |ms|
  {
    if n == 0 then {}
    else Used(ms, n - 1) + if ms[n - 1].Assistant? then UsedIn(ms[n - 1].content, |ms[n - 1].content|) else {}
  }

  function Answered(ms: seq<Message>, n: nat): set<string>
    requires n <= |ms|
  {
    if n == 0 then {}
    else Answered(ms, n - 1) + if ms[n - 1].User? then AnsweredIn(ms[n - 1].content, |ms[n - 1].content|) else {}
  }

  /** What an assistant's block says when the calls in `used` have been made: reasoning, or a new call by name. */
  function BlockSays(b: Block, used: set<string>): seq<Body> {
    match b
    case ThinkingBlock(text) => if text != "" then [Reasoning(text)] else []
    case ToolUse(id, name) => if id != "" && id !in used then [ToolCall(id, 0, name)] else []
    case _ => []
  }

  /** What a user's block says: the first result of an id, a failure if the block is an error, with its content. */
  function ResultSays(b: Block, answered: set<string>): seq<Body> {
    match b
    case ToolResult(id, isError, summary) =>
      if id != "" && id !in answered then [ToolAnswer(id, 0, !isError, summary)] else []
    case _ => []
  }

  function BlocksSay(content: seq<Block>, n: nat, used: set<string>): seq<Body>
    requires n <= |content|
  {
    if n == 0 then []
    else BlocksSay(content, n - 1, used) + BlockSays(content[n - 1], used + UsedIn(content, n - 1))
  }

  function ResultsSay(content: seq<Block>, n: nat, answered: set<string>): seq<Body>
    requires n <= |content|
  {
    if n == 0 then []
    else ResultsSay(content, n - 1, answered) + ResultSays(content[n - 1], answered + AnsweredIn(content, n - 1))
  }

  predicate HadSystem(ms: seq<Message>, n: nat)
    requires n <= |ms|
  {
    exists i :: 0 <= i < n && ms[i].System?
  }

  /** What the `n`-th message says, given the stream before it. */
  function MessageSays(ms: seq<Message>, n: nat): seq<Body>
    requires n < |ms|
  {
    match ms[n]
    case System(_) => if HadSystem(ms, n) then [] else [SessionStart]
    case Assistant(_, content) => BlocksSay(content, |content|, Used(ms, n))
    case User(content) => ResultsSay(content, |content|, Answered(ms, n))
    case Result(true, Some(error), _, _, d) => [Usage, Cost, Error(true, error), TurnEnd(error, d)]
    case Result(true, None, Some(stop), _, d) =>
      [Usage, Cost, Error(true, "amp turn ended with is_error"), TurnEnd(stop, d)]
    case Result(true, None, None, _, d) =>
      [Usage, Cost, Error(true, "amp turn ended with is_error"), TurnEnd("error", d)]
    case Result(false, _, Some(stop), _, d) => [Usage, Cost, TurnEnd(stop, d)]
    case Result(false, _, None, Some(stop), d) => [Usage, Cost, TurnEnd(stop, d)]
    case Result(false, _, None, None, d) => [Usage, Cost, TurnEnd("end_turn", d)]
    case Malformed(line) => [Error(false, line)]
    case Ignored => []
  }

  function Says(ms: seq<Message>, n: nat): seq<Body>
    requires n <= |ms|
  {
    if n == 0 then [] else Says(ms, n - 1) + MessageSays(ms, n - 1)
  }

  /** The first session id that is not empty. */
  function FirstSession(ms: seq<Message>, n: nat): Option<string>
    requires n <= |ms|
  {
    if n == 0 then None
    else if FirstSession(ms, n - 1).Some? then FirstSession(ms, n - 1)
    else match ms[n - 1] case System(Some(id)) => if id != "" then Some(id) else None case _ => None
  }

  /** What the projector remembers of a stream, apart from text, ids and turns. */
  ghost predicate Tracks(s: State, ms: seq<Message>, n: nat)
    requires n <= |ms|
  {
    && (s.sessionStartEmitted <==> HadSystem(ms, n))
    && s.boundSessionId == FirstSession(ms, n)
    && s.toolCallsEmitted == Used(ms, n) && s.toolResultsEmitted == Answered(ms, n)
    && Reports(s.log) == Says(ms, n)
  }

  lemma ReportSnoc(log: seq<Event>, e: Event)
    ensures Reports(log + [e]) == Reports(log) + ReportOf(e.body)
  {
    assert (log + [e])[..|log|] == log;
  }

  lemma EmitReports(s: State, parent: Option<nat>, body: Body)
    requires CanMint(s)
    ensures Reports(Emit(s, parent, body).log) == Reports(s.log) + ReportOf(body)
  {
    ReportSnoc(s.log, Event(s.nextEvent, |s.log| + 1, s.currentTurn.value, parent, body));
  }

  /** From `s` to `r` these calls and results were new, and this was said. */
  ghost predicate SaidMore(s: State, r: State, calls: set<string>, results: set<string>, said: seq<Body>) {
    && r.sessionStartEmitted == s.sessionStartEmitted && r.boundSessionId == s.boundSessionId
    && r.toolCallsEmitted == s.toolCallsEmitted + calls && r.toolResultsEmitted == s.toolResultsEmitted + results
    && Reports(r.log) == Reports(s.log) + said
  }

  lemma SaidNothing(s: State)
    ensures SaidMore(s, s, {}, {}, [])
  {
  }

  lemma SaidThen(a: State, b: State, c: State, calls: set<string>, results: set<string>, said: seq<Body>,
      calls': set<string>, results': set<string>, said': seq<Body>)
    requires SaidMore(a, b, calls, results, said) && SaidMore(b, c, calls', results', said')
    ensures SaidMore(a, c, calls + calls', results + results', said + said')
  {
  }

  lemma SaidByEmit(s: State, parent: Option<nat>, body: Body)
    requires CanMint(s)
    ensures SaidMore(s, Emit(s, parent, body), {}, {}, ReportOf(body))
  {
    EmitReports(s, parent, body);
  }

  function CallOf(b: Block): set<string> {
    if b.ToolUse? && b.id != "" then {b.id} else {}
  }

  function AnswerOf(b: Block): set<string> {
    if b.ToolResult? && b.toolUseId != "" then {b.toolUseId} else {}
  }

  lemma UsedNext(content: seq<Block>, n: nat)
    requires n < |content|
    ensures UsedIn(content, n + 1) == UsedIn(content, n) + CallOf(content[n])
    ensures AnsweredIn(content, n + 1) == AnsweredIn(content, n) + AnswerOf(content[n])
  {
  }

  lemma TextSays(s: State, messageId: string, text: string)
    requires s.turnOpen && CanMint(s)
    ensures SaidMore(s, AssistantBlock(s, messageId, TextBlock(text)), {}, {}, [])
  {
    SaidNothing(s);
    if text != "" {
      var prev := if messageId in s.textCumulative then s.textCumulative[messageId] else "";
      EmitReports(s.(textCumulative := s.textCumulative[messageId := text]), None, Delta(messageId, Chunk(prev, text)));
    }
  }

  lemma CallSays(s: State, messageId: string, id: string, name: string)
    requires s.turnOpen && CanMint(s) && id != "" && id !in s.toolCallsEmitted
    ensures SaidMore(s, AssistantBlock(s, messageId, ToolUse(id, name)), {id}, {}, [ToolCall(id, 0, name)])
  {
    var callId := if id in s.toolCallIds then s.toolCallIds[id] else s.nextCall;
    ReportSnoc(s.log, Event(s.nextEvent, |s.log| + 1, s.currentTurn.value, None, ToolCall(id, callId, name)));
  }

  lemma AssistantSays(s: State, messageId: string, b: Block)
    requires s.turnOpen && CanMint(s)
    ensures SaidMore(s, AssistantBlock(s, messageId, b), CallOf(b), {}, BlockSays(b, s.toolCallsEmitted))
  {
    SaidNothing(s);
    match b
    case TextBlock(text) => TextSays(s, messageId, text);
    case ThinkingBlock(text) => if text != "" { SaidByEmit(s, None, Reasoning(text)); }
    case ToolUse(id, name) =>
      if id != "" && id !in s.toolCallsEmitted {
        CallSays(s, messageId, id, name);
      } else {
        assert s.toolCallsEmitted + CallOf(b) == s.toolCallsEmitted;
      }
    case _ =>
  }

  lemma {:induction false} AssistantSaysAll(s: State, messageId: string, content: seq<Block>, n: nat)
    requires s.turnOpen && CanMint(s) && n <= |content|
    ensures SaidMore(s, AssistantBlocks(s, messageId, content, n), UsedIn(content, n), {},
      BlocksSay(content, n, s.toolCallsEmitted))
  {
    if n == 0 {
      SaidNothing(s);
    } else {
      var m, b := AssistantBlocks(s, messageId, content, n - 1), content[n - 1];
      AssistantSaysAll(s, messageId, content, n - 1);
      AssistantSays(m, messageId, b);
      SaidThen(s, m, AssistantBlock(m, messageId, b), UsedIn(content, n - 1), {},
        BlocksSay(content, n - 1, s.toolCallsEmitted), CallOf(b), {}, BlockSays(b, m.toolCallsEmitted));
      UsedNext(content, n - 1);
    }
  }

  lemma AnswerSays(s: State, b: Block)
    requires Synced(s) && b.ToolResult? && b.toolUseId != "" && b.toolUseId !in s.toolResultsEmitted
    ensures SaidMore(s, UserBlock(s, b), {}, {b.toolUseId}, [ToolAnswer(b.toolUseId, 0, !b.isError, b.content)])
  {
    var r, id := UserBlock(s, b), b.toolUseId;
    var callId := if id in s.toolCallIds then s.toolCallIds[id] else s.nextCall;
    var parent := if id in s.toolCallParents then Some(s.toolCallParents[id]) else None;
    var turn := OpenTurn(s).currentTurn.value;
    ReportSnoc(s.log, Event(s.nextEvent, |s.log| + 1, turn, parent, ToolAnswer(id, callId, !b.isError, b.content)));
  }

  lemma UserSays(s: State, b: Block)
    requires Synced(s)
    ensures SaidMore(s, UserBlock(s, b), {}, AnswerOf(b), ResultSays(b, s.toolResultsEmitted))
  {
    if b.ToolResult? && b.toolUseId != "" && b.toolUseId !in s.toolResultsEmitted {
      AnswerSays(s, b);
    } else {
      SaidNothing(s);
      assert s.toolResultsEmitted + AnswerOf(b) == s.toolResultsEmitted;
    }
  }

  lemma {:induction false} UserSaysAll(s: State, content: seq<Block>, n: nat)
    requires Synced(s) && n <= |content|
    ensures SaidMore(s, UserBlocks(s, content, n), {}, AnsweredIn(content, n),
      ResultsSay(content, n, s.toolResultsEmitted))
  {
    if n == 0 {
      SaidNothing(s);
    } else {
      var m, b := UserBlocks(s, content, n - 1), content[n - 1];
      UserSaysAll(s, content, n - 1);
      UserSays(m, b);
      SaidThen(s, m, UserBlock(m, b), {}, AnsweredIn(content, n - 1), ResultsSay(content, n - 1, s.toolResultsEmitted),
        {}, AnswerOf(b), ResultSays(b, m.toolResultsEmitted));
      UsedNext(content, n - 1);
    }
  }

  lemma OpenSays(s: State)
    requires Synced(s)
    ensures SaidMore(s, OpenTurn(s), {}, {}, [])
  {
  }

  /** What a result message says. */
  function EndSays(m: Message): seq<Body>
    requires m.Result?
  {
    [Usage, Cost] +
      ((if m.isError then [Error(true, OrElse(m.errorMessage, "amp turn ended with is_error"))] else []) +
       [TurnEnd(StopReason(m), m.durationMs)])
  }

  lemma UsageAndCost(s: State)
    requires Synced(s)
    ensures SaidMore(s, Emit(Emit(OpenTurn(s), None, Usage), None, Cost), {}, {}, [Usage, Cost])
  {
    var s0 := OpenTurn(s);
    OpenSays(s);
    SaidByEmit(s0, None, Usage);
    SaidByEmit(Emit(s0, None, Usage), None, Cost);
    SaidThen(s, s0, Emit(s0, None, Usage), {}, {}, [], {}, {}, [Usage]);
    SaidThen(s, Emit(s0, None, Usage), Emit(Emit(s0, None, Usage), None, Cost), {}, {}, [Usage], {}, {}, [Cost]);
  }

  lemma ErrorSays(s: State, m: Message)
    requires CanMint(s) && m.Result?
    ensures SaidMore(s, EmitError(s, m), {}, {},
      if m.isError then [Error(true, OrElse(m.errorMessage, "amp turn ended with is_error"))] else [])
  {
    SaidNothing(s);
    if m.isError { SaidByEmit(s, None, Error(true, OrElse(m.errorMessage, "amp turn ended with is_error"))); }
  }

  lemma CloseSays(s: State, r: State, said: seq<Body>)
    requires SaidMore(s, r, {}, {}, said)
    ensures SaidMore(s, r.(turnClosed := true, turnOpen := false), {}, {}, said)
  {
  }

  /** What follows usage and cost. */
  lemma RestSays(s: State, m: Message)
    requires CanMint(s) && m.Result?
    ensures var end := TurnEnd(StopReason(m), m.durationMs);
      SaidMore(s, Emit(EmitError(s, m), None, end), {}, {},
        (if m.isError then [Error(true, OrElse(m.errorMessage, "amp turn ended with is_error"))] else []) + [end])
  {
    var end := TurnEnd(StopReason(m), m.durationMs);
    var error := if m.isError then [Error(true, OrElse(m.errorMessage, "amp turn ended with is_error"))] else [];
    var s1 := EmitError(s, m);
    ErrorSays(s, m);
    SaidByEmit(s1, None, end);
    SaidThen(s, s1, Emit(s1, None, end), {}, {}, error, {}, {}, [end]);
  }

  lemma ResultSaysEnd(s: State, m: Message)
    requires Synced(s) && m.Result?
    ensures SaidMore(s, ResultMessage(s, m), {}, {}, EndSays(m))
  {
    var s1 := Emit(Emit(OpenTurn(s), None, Usage), None, Cost);
    var s2 := Emit(EmitError(s1, m), None, TurnEnd(StopReason(m), m.durationMs));
    var error := if m.isError then [Error(true, OrElse(m.errorMessage, "amp turn ended with is_error"))] else [];
    var rest := error + [TurnEnd(StopReason(m), m.durationMs)];
    UsageAndCost(s);
    RestSays(s1, m);
    SaidThen(s, s1, s2, {}, {}, [Usage, Cost], {}, {}, rest);
    CloseSays(s, s2, [Usage, Cost] + rest);
  }

  lemma EndIs(ms: seq<Message>, n: nat)
    requires n < |ms| && ms[n].Result?
    ensures MessageSays(ms, n) == EndSays(ms[n])
  {
  }

  lemma StartReports(s: State, sessionId: Option<string>)
    requires Synced(s)
    ensures Reports(SystemMessage(s, sessionId).log) ==
      Reports(s.log) + if s.sessionStartEmitted then [] else [SessionStart]
  {
    if !s.sessionStartEmitted { EmitReports(OpenTurn(Bind(s, sessionId).(sessionStartEmitted := true)), None,
      SessionStart); }
  }

  lemma SystemTracks(s: State, ms: seq<Message>, n: nat)
    requires Synced(s) && n < |ms| && ms[n].System? && Tracks(s, ms, n)
    ensures Tracks(Project(s, ms[n]), ms, n + 1)
  {
    StartReports(s, ms[n].sessionId);
    HadSystemNext(ms, n);
    SystemKeepsCalls(s, ms, n);
  }

  lemma HadSystemNext(ms: seq<Message>, n: nat)
    requires n < |ms|
    ensures HadSystem(ms, n + 1) <==> HadSystem(ms, n) || ms[n].System?
  {
    if HadSystem(ms, n) {
      var i :| 0 <= i < n && ms[i].System?;
      assert i < n + 1;
    }
  }

  lemma SystemKeepsCalls(s: State, ms: seq<Message>, n: nat)
    requires Synced(s) && n < |ms| && ms[n].System? && Tracks(s, ms, n)
    ensures var r := Project(s, ms[n]);
      && r.sessionStartEmitted && r.boundSessionId == FirstSession(ms, n + 1)
      && r.toolCallsEmitted == Used(ms, n + 1) && r.toolResultsEmitted == Answered(ms, n + 1)
  {
    ProjectSystem(s, ms[n].sessionId);
    SystemAddsNothing(ms, n);
  }

  lemma ProjectSystem(s: State, sessionId: Option<string>)
    requires Synced(s)
    ensures var r := SystemMessage(s, sessionId);
      && r.sessionStartEmitted
      && r.toolCallsEmitted == s.toolCallsEmitted && r.toolResultsEmitted == s.toolResultsEmitted
      && r.boundSessionId == Bind(s, sessionId).boundSessionId
  {
  }

  lemma SystemAddsNothing(ms: seq<Message>, n: nat)
    requires n < |ms| && ms[n].System?
    ensures Used(ms, n + 1) == Used(ms, n) && Answered(ms, n + 1) == Answered(ms, n)
    ensures var first, id := FirstSession(ms, n), ms[n].sessionId;
      FirstSession(ms, n + 1) == if first.None? && id.Some? && id.value != "" then id else first
  {
  }

  /** A message that is no system message keeps the records, given what it says. */
  lemma SaidTracks(s: State, r: State, ms: seq<Message>, n: nat, calls: set<string>, results: set<string>)
    requires n < |ms| && !ms[n].System? && Tracks(s, ms, n)
    requires SaidMore(s, r, calls, results, MessageSays(ms, n))
    requires calls == (if ms[n].Assistant? then UsedIn(ms[n].content, |ms[n].content|) else {})
    requires results == (if ms[n].User? then AnsweredIn(ms[n].content, |ms[n].content|) else {})
    ensures Tracks(r, ms, n + 1)
  {
  }

  lemma AssistantTracks(s: State, ms: seq<Message>, n: nat)
    requires Synced(s) && n < |ms| && ms[n].Assistant? && Tracks(s, ms, n)
    ensures Tracks(Project(s, ms[n]), ms, n + 1)
  {
    var content, o, r := ms[n].content, OpenTurn(s), Project(s, ms[n]);
    OpenSays(s);
    AssistantSaysAll(o, ms[n].messageId, content, |content|);
    SaidThen(s, o, r, {}, {}, [], UsedIn(content, |content|), {}, BlocksSay(content, |content|, o.toolCallsEmitted));
    SaidTracks(s, r, ms, n, UsedIn(content, |content|), {});
  }

  lemma UserTracks(s: State, ms: seq<Message>, n: nat)
    requires Synced(s) && n < |ms| && ms[n].User? && Tracks(s, ms, n)
    ensures Tracks(Project(s, ms[n]), ms, n + 1)
  {
    var content := ms[n].content;
    UserSaysAll(s, content, |content|);
    SaidTracks(s, Project(s, ms[n]), ms, n, {}, AnsweredIn(content, |content|));
  }

  lemma MalformedTracks(s: State, ms: seq<Message>, n: nat)
    requires Synced(s) && n < |ms| && ms[n].Malformed? && Tracks(s, ms, n)
    ensures Tracks(Project(s, ms[n]), ms, n + 1)
  {
    var o, r, line := OpenTurn(s), Project(s, ms[n]), ms[n].line;
    OpenSays(s);
    SaidByEmit(o, None, Error(false, line));
    SaidThen(s, o, r, {}, {}, [], {}, {}, [Error(false, line)]);
    SaidTracks(s, r, ms, n, {}, {});
  }

  lemma MessageTracks(s: State, ms: seq<Message>, n: nat)
    requires Synced(s) && n < |ms| && Tracks(s, ms, n)
    ensures Tracks(Project(s, ms[n]), ms, n + 1)
  {
    match ms[n]
    case System(_) => SystemTracks(s, ms, n);
    case Assistant(_, _) => AssistantTracks(s, ms, n);
    case User(_) => UserTracks(s, ms, n);
    case Result(_, _, _, _, _) =>
      ResultSaysEnd(s, ms[n]);
      EndIs(ms, n);
      SaidTracks(s, ResultMessage(s, ms[n]), ms, n, {}, {});
    case Malformed(_) => MalformedTracks(s, ms, n);
    case Ignored =>
      SaidNothing(s);
      SaidTracks(s, s, ms, n, {}, {});
  }

  /**
    Over every stream the events, pieces of text aside, are what the messages
    say, in order: one start of the session, the reasoning, the first call and
    the first result of each id with its tool, outcome and content, the errors,
    and the four or three events that end a turn.
   */
  lemma {:induction false} LogIsWhatMessagesSay(ms: seq<Message>, n: nat)
    requires n <= |ms|
    ensures Tracked(ms, n)
  {
    hide *;
    if n == 0 {
      TrackedAtFirst(ms);
    } else {
      LogIsWhatMessagesSay(ms, n - 1);
      TrackedNext(ms, n - 1);
    }
  }

  ghost predicate Tracked(ms: seq<Message>, n: nat)
    requires n <= |ms|
  {
    Tracks(Run(ms, n), ms, n)
  }

  lemma TrackedAtFirst(ms: seq<Message>)
    ensures Tracked(ms, 0)
  {
  }

  lemma TrackedNext(ms: seq<Message>, n: nat)
    requires n < |ms| && Tracked(ms, n)
    ensures Tracked(ms, n + 1)
  {
    MessageTracks(Run(ms, n), ms, n);
    RunNext(ms, n);
  }

  lemma RunNext(ms: seq<Message>, n: nat)
    requires n < |ms|
    ensures Run(ms, n + 1) == Project(Run(ms, n), ms[n])
  {
  }

  // ----- turns --------------------------------------------------------------

  /** How many turns have ended among the first `n` events. */
  function Ends(log: seq<Event>, n: nat): nat
    requires n <= |log|
  {
    if n == 0 then 0 else Ends(log, n - 1) + if log[n - 1].body.TurnEnd? then 1 else 0
  }

  ghost predicate Numbered(log: seq<Event>) {
    forall i :: 0 <= i < |log| ==> log[i].turnId == Ends(log, i)
  }

  ghost predicate TurnsOk(s: State) {
    && Numbered(s.log)
    && s.nextTurn == Ends(s.log, |s.log|) + (if s.turnOpen then 1 else 0)
    && (s.turnOpen ==> s.currentTurn == Some(Ends(s.log, |s.log|)))
  }

  lemma {:induction false} EndsPrefix(log: seq<Event>, longer: seq<Event>, n: nat)
    requires n <= |log| && log <= longer
    ensures Ends(longer, n) == Ends(log, n)
  {
    if n > 0 { EndsPrefix(log, longer, n - 1); }
  }

  lemma OpenTurns(s: State)
    requires Synced(s) && TurnsOk(s)
    ensures TurnsOk(OpenTurn(s)) && OpenTurn(s).turnOpen
  {
  }

  /** A log with one more event of the open turn. */
  lemma AddTurns(log: seq<Event>, e: Event)
    requires Numbered(log) && e.turnId == Ends(log, |log|)
    ensures Numbered(log + [e])
    ensures Ends(log + [e], |log + [e]|) == Ends(log, |log|) + if e.body.TurnEnd? then 1 else 0
  {
    var longer := log + [e];
    forall i | 0 <= i < |longer| ensures longer[i].turnId == Ends(longer, i) { EndsPrefix(log, longer, i); }
    EndsPrefix(log, longer, |log|);
  }

  /** One more event of the open turn, whatever else changes. */
  lemma OneMoreTurns(s: State, r: State, e: Event)
    requires TurnsOk(s) && s.turnOpen && e.turnId == s.currentTurn.value && !e.body.TurnEnd?
    requires r.log == s.log + [e] && r.nextTurn == s.nextTurn && r.turnOpen && r.currentTurn == s.currentTurn
    ensures TurnsOk(r)
  {
    AddTurns(s.log, e);
  }

  lemma LastTurns(s: State, r: State, e: Event)
    requires TurnsOk(s) && s.turnOpen && e.turnId == s.currentTurn.value && e.body.TurnEnd?
    requires r.log == s.log + [e] && r.nextTurn == s.nextTurn && !r.turnOpen
    ensures TurnsOk(r)
  {
    AddTurns(s.log, e);
  }

  lemma EmitTurns(s: State, parent: Option<nat>, body: Body)
    requires CanMint(s) && s.turnOpen && TurnsOk(s) && !body.TurnEnd?
    ensures TurnsOk(Emit(s, parent, body))
  {
    OneMoreTurns(s, Emit(s, parent, body), Event(s.nextEvent, |s.log| + 1, s.currentTurn.value, parent, body));
  }

  lemma BlockTurns(s: State, messageId: string, b: Block)
    requires s.turnOpen && CanMint(s) && TurnsOk(s)
    ensures TurnsOk(AssistantBlock(s, messageId, b))
  {
    var r := AssistantBlock(s, messageId, b);
    if |r.log| > |s.log| { OneMoreTurns(s, r, r.log[|s.log|]); }
  }

  lemma {:induction false} BlocksTurns(s: State, messageId: string, content: seq<Block>, n: nat)
    requires s.turnOpen && CanMint(s) && TurnsOk(s) && n <= |content|
    ensures TurnsOk(AssistantBlocks(s, messageId, content, n))
  {
    if n > 0 {
      BlocksTurns(s, messageId, content, n - 1);
      BlockTurns(AssistantBlocks(s, messageId, content, n - 1), messageId, content[n - 1]);
    }
  }

  lemma AnswerTurns(s: State, b: Block)
    requires Synced(s) && TurnsOk(s)
    ensures TurnsOk(UserBlock(s, b))
  {
    var r := UserBlock(s, b);
    if |r.log| > |s.log| {
      OpenTurns(s);
      OneMoreTurns(OpenTurn(s), r, r.log[|s.log|]);
    }
  }

  lemma {:induction false} AnswersTurns(s: State, content: seq<Block>, n: nat)
    requires Synced(s) && TurnsOk(s) && n <= |content|
    ensures TurnsOk(UserBlocks(s, content, n))
  {
    if n > 0 {
      AnswersTurns(s, content, n - 1);
      AnswerTurns(UserBlocks(s, content, n - 1), content[n - 1]);
    }
  }

  lemma ResultTurns(s: State, m: Message)
    requires Synced(s) && m.Result? && TurnsOk(s)
    ensures TurnsOk(ResultMessage(s, m))
  {
    OpenTurns(s);
    var s0 := OpenTurn(s);
    EmitTurns(s0, None, Usage);
    EmitTurns(Emit(s0, None, Usage), None, Cost);
    var s1 := Emit(Emit(s0, None, Usage), None, Cost);
    ErrorTurns(s1, m);
    EndTurns(EmitError(s1, m), TurnEnd(StopReason(m), m.durationMs));
  }

  lemma ErrorTurns(s: State, m: Message)
    requires CanMint(s) && s.turnOpen && TurnsOk(s) && m.Result?
    ensures TurnsOk(EmitError(s, m))
  {
    if m.isError { EmitTurns(s, None, Error(true, OrElse(m.errorMessage, "amp turn ended with is_error"))); }
  }

  lemma EndTurns(s: State, body: Body)
    requires CanMint(s) && s.turnOpen && TurnsOk(s) && body.TurnEnd?
    ensures TurnsOk(Emit(s, None, body).(turnClosed := true, turnOpen := false))
  {
    var r := Emit(s, None, body).(turnClosed := true, turnOpen := false);
    LastTurns(s, r, Event(s.nextEvent, |s.log| + 1, s.currentTurn.value, None, body));
  }

  lemma SystemTurns(s: State, sessionId: Option<string>)
    requires Synced(s) && TurnsOk(s)
    ensures TurnsOk(SystemMessage(s, sessionId))
  {
    if !s.sessionStartEmitted {
      var s1 := Bind(s, sessionId).(sessionStartEmitted := true);
      OpenTurns(s1);
      EmitTurns(OpenTurn(s1), None, SessionStart);
    }
  }

  lemma ProjectTurns(s: State, m: Message)
    requires Synced(s) && TurnsOk(s)
    ensures TurnsOk(Project(s, m))
  {
    match m
    case System(sessionId) => SystemTurns(s, sessionId);
    case Assistant(messageId, content) =>
      OpenTurns(s);
      BlocksTurns(OpenTurn(s), messageId, content, |content|);
    case User(content) => AnswersTurns(s, content, |content|);
    case Result(_, _, _, _, _) => ResultTurns(s, m);
    case Malformed(line) =>
      OpenTurns(s);
      EmitTurns(OpenTurn(s), None, Error(false, line));
    case Ignored =>
  }

  /** Every event belongs to the turn numbered by the turns that have ended before it. */
  lemma {:induction false} TurnsAreNumbered(ms: seq<Message>, n: nat)
    requires n <= |ms|
    ensures TurnsOk(Run(ms, n))
  {
    if n > 0 {
      TurnsAreNumbered(ms, n - 1);
      ProjectTurns(Run(ms, n - 1), ms[n - 1]);
    }
  }

  // ----- deltas rebuild the text --------------------------------------------

  /** The deltas of one message among the first `n` events, concatenated. */
  function DeltaText(log: seq<Event>, n: nat, m: string): string
    requires n <= |log|
  {
    if n == 0 then ""
    else DeltaText(log, n - 1, m) + (if log[n - 1].body.Delta? && log[n - 1].body.messageId == m
      then log[n - 1].body.text else "")
  }

  function BlockTexts(content: seq<Block>, n: nat): seq<string>
    requires n <= |content|
  {
    if n == 0 then []
    else BlockTexts(content, n - 1) + (if content[n - 1].TextBlock? && content[n - 1].text != ""
      then [content[n - 1].text] else [])
  }

  /** The text snapshots of one message in stream order. */
  function Texts(ms: seq<Message>, n: nat, m: string): seq<string>
    requires n <= |ms|
  {
    if n == 0 then [] else Texts(ms, n - 1, m) + MessageTexts(ms[n - 1], m)
  }

  function MessageTexts(msg: Message, m: string): seq<string> {
    if msg.Assistant? && msg.messageId == m then BlockTexts(msg.content, |msg.content|) else []
  }

  function Latest(ts: seq<string>): string {
    if ts == [] then "" else ts[|ts| - 1]
  }

  /** What the projector emits for the first `n` snapshots of a message. */
  function Replayed(ts: seq<string>, n: nat): string
    requires n <= |ts|
  {
    if n == 0 then "" else Replayed(ts, n - 1) + Chunk(if n == 1 then "" else ts[n - 2], ts[n - 1])
  }

  function Replay(ts: seq<string>): string {
    Replayed(ts, |ts|)
  }

  lemma {:induction false} ReplayedPrefix(ts: seq<string>, longer: seq<string>, n: nat)
    requires n <= |ts| && ts <= longer
    ensures Replayed(longer, n) == Replayed(ts, n)
  {
    if n > 0 { ReplayedPrefix(ts, longer, n - 1); }
  }

  lemma {:induction false} DeltaPrefix(log: seq<Event>, longer: seq<Event>, n: nat, m: string)
    requires n <= |log| <= |longer| && forall i :: 0 <= i < n ==> log[i] == longer[i]
    ensures DeltaText(log, n, m) == DeltaText(longer, n, m)
  {
    if n > 0 { DeltaPrefix(log, longer, n - 1, m); }
  }

  /** The state has seen exactly the snapshots `ts` of message `m`. */
  ghost predicate Spoken(s: State, m: string, ts: seq<string>) {
    && (forall i :: 0 <= i < |ts| ==> ts[i] != "")
    && (m in s.textCumulative <==> ts != []) && (ts != [] ==> s.textCumulative[m] == ts[|ts| - 1])
    && DeltaText(s.log, |s.log|, m) == Replay(ts)
  }

  lemma EmitSpeaks(s: State, parent: Option<nat>, body: Body, m: string)
    requires CanMint(s)
    ensures var r := Emit(s, parent, body);
      DeltaText(r.log, |r.log|, m) == DeltaText(s.log, |s.log|, m) + (if body.Delta? && body.messageId == m
        then body.text else "")
  {
    DeltaPrefix(s.log, Emit(s, parent, body).log, |s.log|, m);
  }

  lemma EmitSilent(s: State, parent: Option<nat>, body: Body, m: string, ts: seq<string>)
    requires CanMint(s) && Spoken(s, m, ts) && !(body.Delta? && body.messageId == m)
    ensures Spoken(Emit(s, parent, body), m, ts)
  {
    EmitSpeaks(s, parent, body, m);
    assert Replay(ts) + "" == Replay(ts);
  }

  lemma ReplaySnoc(ts: seq<string>, text: string)
    ensures Replay(ts + [text]) == Replay(ts) + Chunk(Latest(ts), text)
  {
    ReplayedPrefix(ts, ts + [text], |ts|);
  }

  lemma OwnChunk(s: State, m: string, text: string, d: string)
    requires s.turnOpen && CanMint(s) && text != "" && DeltaText(s.log, |s.log|, m) == d
    ensures var r := AssistantBlock(s, m, TextBlock(text));
      var prev := if m in s.textCumulative then s.textCumulative[m] else "";
      DeltaText(r.log, |r.log|, m) == d + Chunk(prev, text) && r.textCumulative == s.textCumulative[m := text]
  {
    var prev := if m in s.textCumulative then s.textCumulative[m] else "";
    var s1 := s.(textCumulative := s.textCumulative[m := text]);
    EmitSpeaks(s1, None, Delta(m, Chunk(prev, text)), m);
    assert d + "" == d;
  }

  lemma OwnTextSpeaks(s: State, m: string, text: string, ts: seq<string>)
    requires s.turnOpen && CanMint(s) && Spoken(s, m, ts) && text != ""
    ensures Spoken(AssistantBlock(s, m, TextBlock(text)), m, ts + [text])
  {
    ReplaySnoc(ts, text);
    OwnChunk(s, m, text, Replay(ts));
    SpokenSnoc(AssistantBlock(s, m, TextBlock(text)), m, ts, text);
  }

  lemma SpokenSnoc(r: State, m: string, ts: seq<string>, text: string)
    requires text != "" && forall i :: 0 <= i < |ts| ==> ts[i] != ""
    requires m in r.textCumulative && r.textCumulative[m] == text && DeltaText(r.log, |r.log|, m) == Replay(ts + [text])
    ensures Spoken(r, m, ts + [text])
  {
    assert (ts + [text])[|ts|] == text;
  }

  lemma OtherTextSilent(s: State, messageId: string, text: string, m: string, ts: seq<string>)
    requires s.turnOpen && CanMint(s) && Spoken(s, m, ts) && text != "" && messageId != m
    ensures Spoken(AssistantBlock(s, messageId, TextBlock(text)), m, ts)
  {
    var prev := if messageId in s.textCumulative then s.textCumulative[messageId] else "";
    var s1 := s.(textCumulative := s.textCumulative[messageId := text]);
    assert Spoken(s1, m, ts);
    EmitSilent(s1, None, Delta(messageId, Chunk(prev, text)), m, ts);
  }

  /** The snapshots of `m` after one more block of some message. */
  function Heard(ts: seq<string>, messageId: string, b: Block, m: string): seq<string> {
    if messageId == m && b.TextBlock? && b.text != "" then ts + [b.text] else ts
  }

  lemma BlockSpeaks(s: State, messageId: string, b: Block, m: string, ts: seq<string>)
    requires s.turnOpen && CanMint(s) && Spoken(s, m, ts)
    ensures Spoken(AssistantBlock(s, messageId, b), m, Heard(ts, messageId, b, m))
  {
    match b
    case TextBlock(text) =>
      if text != "" {
        if messageId == m { OwnTextSpeaks(s, m, text, ts); } else { OtherTextSilent(s, messageId, text, m, ts); }
      }
    case ThinkingBlock(text) => if text != "" { EmitSilent(s, None, Reasoning(text), m, ts); }
    case ToolUse(id, name) =>
      if id != "" && id !in s.toolCallsEmitted {
        var callId := if id in s.toolCallIds then s.toolCallIds[id] else s.nextCall;
        var s1 := s.(nextCall := if id in s.toolCallIds then s.nextCall else s.nextCall + 1,
                     toolCallIds := s.toolCallIds[id := callId],
                     toolCallParents := s.toolCallParents[id := s.nextEvent],
                     toolCallsEmitted := s.toolCallsEmitted + {id});
        EmitSilent(s1, None, ToolCall(id, callId, name), m, ts);
      }
    case _ =>
  }

  function HeardAll(ts: seq<string>, messageId: string, content: seq<Block>, n: nat, m: string): seq<string>
    requires n <= |content|
  {
    if n == 0 then ts else Heard(HeardAll(ts, messageId, content, n - 1, m), messageId, content[n - 1], m)
  }

  lemma {:induction false} HeardAllIs(ts: seq<string>, messageId: string, content: seq<Block>, n: nat, m: string)
    requires n <= |content|
    ensures HeardAll(ts, messageId, content, n, m) == if messageId == m then ts + BlockTexts(content, n) else ts
  {
    if n == 0 { assert ts + [] == ts; } else { HeardAllIs(ts, messageId, content, n - 1, m); }
  }

  lemma {:induction false} BlocksSpeak(s: State, messageId: string, content: seq<Block>, n: nat, m: string,
      ts: seq<string>)
    requires s.turnOpen && CanMint(s) && Spoken(s, m, ts) && n <= |content|
    ensures Spoken(AssistantBlocks(s, messageId, content, n), m, HeardAll(ts, messageId, content, n, m))
  {
    if n > 0 {
      BlocksSpeak(s, messageId, content, n - 1, m, ts);
      BlockSpeaks(AssistantBlocks(s, messageId, content, n - 1), messageId, content[n - 1], m,
        HeardAll(ts, messageId, content, n - 1, m));
    }
  }

  lemma UserSilent(s: State, b: Block, m: string, ts: seq<string>)
    requires Synced(s) && Spoken(s, m, ts)
    ensures Spoken(UserBlock(s, b), m, ts)
  {
    if b.ToolResult? && b.toolUseId != "" && b.toolUseId !in s.toolResultsEmitted {
      var id := b.toolUseId;
      var callId := if id in s.toolCallIds then s.toolCallIds[id] else s.nextCall;
      var parent := if id in s.toolCallParents then Some(s.toolCallParents[id]) else None;
      var s1 := OpenTurn(s.(nextCall := if id in s.toolCallIds then s.nextCall else s.nextCall + 1,
                            toolResultsEmitted := s.toolResultsEmitted + {id}));
      EmitSilent(s1, parent, ToolAnswer(id, callId, !b.isError, b.content), m, ts);
    }
  }

  lemma {:induction false} UserBlocksSilent(s: State, content: seq<Block>, n: nat, m: string, ts: seq<string>)
    requires Synced(s) && Spoken(s, m, ts) && n <= |content|
    ensures Spoken(UserBlocks(s, content, n), m, ts)
  {
    if n > 0 {
      UserBlocksSilent(s, content, n - 1, m, ts);
      UserSilent(UserBlocks(s, content, n - 1), content[n - 1], m, ts);
    }
  }

  lemma ResultSilent(s: State, r: Message, m: string, ts: seq<string>)
    requires Synced(s) && r.Result? && Spoken(s, m, ts)
    ensures Spoken(ResultMessage(s, r), m, ts)
  {
    var s0 := OpenTurn(s);
    EmitSilent(s0, None, Usage, m, ts);
    var s1 := Emit(s0, None, Usage);
    EmitSilent(s1, None, Cost, m, ts);
    var s2 := Emit(s1, None, Cost);
    var error := Error(true, if r.errorMessage.Some? then r.errorMessage.value else "amp turn ended with is_error");
    if r.isError { EmitSilent(s2, None, error, m, ts); }
    var s3 := if r.isError then Emit(s2, None, error) else s2;
    EmitSilent(s3, None, TurnEnd(StopReason(r), r.durationMs), m, ts);
  }

  lemma OpenSilent(s: State, m: string, ts: seq<string>)
    requires Synced(s) && Spoken(s, m, ts)
    ensures Spoken(OpenTurn(s), m, ts)
  {
  }

  lemma SystemSilent(s: State, sessionId: Option<string>, m: string, ts: seq<string>)
    requires Synced(s) && Spoken(s, m, ts)
    ensures Spoken(SystemMessage(s, sessionId), m, ts)
  {
    if !s.sessionStartEmitted {
      var s2 := Bind(s, sessionId).(sessionStartEmitted := true);
      OpenSilent(s2, m, ts);
      EmitSilent(OpenTurn(s2), None, SessionStart, m, ts);
    }
  }

  lemma AssistantSpeaks(s: State, messageId: string, content: seq<Block>, m: string, ts: seq<string>)
    requires Synced(s) && Spoken(s, m, ts)
    ensures Spoken(Project(s, Assistant(messageId, content)), m, ts + MessageTexts(Assistant(messageId, content), m))
  {
    OpenSilent(s, m, ts);
    BlocksSpeak(OpenTurn(s), messageId, content, |content|, m, ts);
    HeardAllIs(ts, messageId, content, |content|, m);
    assert ts + [] == ts;
  }

  lemma OtherSilent(s: State, msg: Message, m: string, ts: seq<string>)
    requires Synced(s) && Spoken(s, m, ts) && !msg.Assistant?
    ensures Spoken(Project(s, msg), m, ts)
  {
    match msg
    case System(sessionId) => SystemSilent(s, sessionId, m, ts);
    case User(content) => UserBlocksSilent(s, content, |content|, m, ts);
    case Result(_, _, _, _, _) => ResultSilent(s, msg, m, ts);
    case Malformed(line) => OpenSilent(s, m, ts); EmitSilent(OpenTurn(s), None, Error(false, line), m, ts);
    case Ignored =>
  }

  lemma {:induction false} RunSpeaks(ms: seq<Message>, n: nat, m: string)
    requires n <= |ms|
    ensures SpokenUpTo(ms, n, m)
  {
    hide *;
    if n == 0 {
      NothingSpoken(ms, m);
    } else {
      RunSpeaks(ms, n - 1, m);
      SpokenNext(ms, n - 1, m);
    }
  }

  /** The deltas of one message so far are its snapshots, replayed. */
  ghost predicate SpokenUpTo(ms: seq<Message>, n: nat, m: string)
    requires n <= |ms|
  {
    Spoken(Run(ms, n), m, Texts(ms, n, m))
  }

  lemma NothingSpoken(ms: seq<Message>, m: string)
    ensures SpokenUpTo(ms, 0, m)
  {
  }

  lemma SpokenNext(ms: seq<Message>, n: nat, m: string)
    requires n < |ms| && SpokenUpTo(ms, n, m)
    ensures SpokenUpTo(ms, n + 1, m)
  {
    RunNext(ms, n);
    TextsNext(ms, n, m);
    SpeaksNext(ms[n], m, Run(ms, n), Texts(ms, n, m), Run(ms, n + 1), Texts(ms, n + 1, m));
  }

  lemma TextsNext(ms: seq<Message>, n: nat, m: string)
    requires n < |ms|
    ensures Texts(ms, n + 1, m) == Texts(ms, n, m) + MessageTexts(ms[n], m)
  {
  }

  lemma SpeaksNext(msg: Message, m: string, s: State, ts: seq<string>, s': State, ts': seq<string>)
    requires Synced(s) && Spoken(s, m, ts) && s' == Project(s, msg) && ts' == ts + MessageTexts(msg, m)
    ensures Spoken(s', m, ts')
  {
    if msg.Assistant? {
      AssistantSpeaks(s, msg.messageId, msg.content, m, ts);
    } else {
      OtherSilent(s, msg, m, ts);
      assert ts + [] == ts;
    }
  }

  /** Each snapshot extends the one before it. */
  ghost predicate Growing(ts: seq<string>) {
    forall i, j :: 0 <= i < |ts| && j == i + 1 < |ts| ==> ts[i] <= ts[j]
  }

  lemma {:induction false} ReplayNonEmpty(ts: seq<string>, n: nat)
    requires 0 < n <= |ts| && ts[0] != ""
    ensures Replayed(ts, n) != ""
  {
    if n > 1 { ReplayNonEmpty(ts, n - 1); } else { assert Replayed(ts, 0) == ""; }
  }

  lemma ReplayExtend(before: string, prev: string, text: string)
    requires prev != "" && prev <= text
    ensures before + Chunk(prev, text) == text <==> before == prev
  {
    var rest := text[|prev|..];
    assert text == prev + rest;
    SameSuffix(before, prev, rest);
  }

  lemma ReplayRestart(before: string, prev: string, text: string)
    requires before != "" && !(prev <= text)
    ensures before + Chunk(prev, text) != text
  {
    assert |before + text| > |text|;
  }

  lemma GrowingSnoc(ts: seq<string>, text: string)
    requires ts != []
    ensures Growing(ts + [text]) <==> Growing(ts) && Latest(ts) <= text
  {
    var us := ts + [text];
    assert us[|us| - 1] == text && forall i :: 0 <= i < |ts| ==> us[i] == ts[i];
    if Growing(us) { assert us[|us| - 2] <= us[|us| - 1]; }
  }

  lemma {:induction false} ReplayIff(ts: seq<string>)
    requires ts != [] && forall i :: 0 <= i < |ts| ==> ts[i] != ""
    ensures Replay(ts) == Latest(ts) <==> Growing(ts)
  {
    var before, text := ts[..|ts| - 1], Latest(ts);
    assert ts == before + [text];
    ReplaySnoc(before, text);
    if before == [] {
      assert Replay(before) + text == text;
    } else {
      ReplayIff(before);
      ReplayNonEmpty(before, |before|);
      GrowingSnoc(before, text);
      if Latest(before) <= text {
        ReplayExtend(Replay(before), Latest(before), text);
      } else {
        ReplayRestart(Replay(before), Latest(before), text);
      }
    }
  }

  lemma SameSuffix(a: string, b: string, r: string)
    ensures a + r == b + r <==> a == b
  {
    if a + r == b + r {
      assert |a| == |b|;
      assert a == (a + r)[..|a|] && b == (b + r)[..|b|];
    }
  }

  /**
    For every message id, across any interleaving with other messages, the
    emitted deltas spell the latest snapshot exactly when every snapshot
    extended the one before it.
   */
  lemma DeltasRebuildText(ms: seq<Message>, m: string)
    requires Texts(ms, |ms|, m) != []
    ensures var log, ts := Run(ms, |ms|).log, Texts(ms, |ms|, m);
      DeltaText(log, |log|, m) == ts[|ts| - 1] <==> Growing(ts)
  {
    hide Spoken, Growing;
    RunSpeaks(ms, |ms|, m);
    SpokenIff(Run(ms, |ms|), m, Texts(ms, |ms|, m));
  }

  lemma SpokenIff(s: State, m: string, ts: seq<string>)
    requires Spoken(s, m, ts) && ts != []
    ensures DeltaText(s.log, |s.log|, m) == ts[|ts| - 1] <==> Growing(ts)
  {
    ReplayIff(ts);
  }

  // ----- the projector as the source updates it -----------------------------

  class Projector {
    var sessionStartEmitted: bool
    var turnOpen: bool
    var toolCallIds: map<string, nat>
    var toolCallParents: map<string, nat>
    var toolCallsEmitted: set<string>
    var toolResultsEmitted: set<string>
    var textCumulative: map<string, string>
    var boundSessionId: Option<string>
    var currentTurn: Option<nat>
    var turnClosed: bool
    var nextEvent: nat
    var nextTurn: nat
    var nextCall: nat
    var log: seq<Event>

    constructor ()
      ensures Current() == START
    {
      sessionStartEmitted, turnOpen, toolCallIds, toolCallParents := false, false, map[], map[];
      toolCallsEmitted, toolResultsEmitted, textCumulative, boundSessionId := {}, {}, map[], None;
      currentTurn, turnClosed, nextEvent, nextTurn, nextCall, log := None, false, 0, 0, 0, [];
    }

    ghost function Current(): State
      reads this
    {
      State(sessionStartEmitted, turnOpen, toolCallIds, toolCallParents, toolCallsEmitted, toolResultsEmitted,
            textCumulative, boundSessionId, currentTurn, turnClosed, nextEvent, nextTurn, nextCall, log)
    }

    method OpenTurnIfNeeded()
      requires Synced(Current())
      modifies this
      ensures Current() == OpenTurn(old(Current()))
    {
      if turnOpen { return; }
      currentTurn, nextTurn, turnClosed := Some(nextTurn), nextTurn + 1, false;
      turnOpen := true;
    }

    /** `out.push({...corr.envelope(), ...})`; the precondition is that `envelope` does not throw. */
    method Push(parent: Option<nat>, body: Body)
      requires CanMint(Current())
      modifies this
      ensures Current() == Emit(old(Current()), parent, body)
    {
      log := log + [Event(nextEvent, |log| + 1, currentTurn.value, parent, body)];
      nextEvent := nextEvent + 1;
    }

    method OnAssistantBlock(messageId: string, b: Block)
      requires turnOpen && CanMint(Current())
      modifies this
      ensures Current() == AssistantBlock(old(Current()), messageId, b)
    {
      match b
      case TextBlock(text) =>
        if text == "" { return; }
        var prev := if messageId in textCumulative then textCumulative[messageId] else "";
        var chunk := if prev <= text && |prev| > 0 then text[|prev|..] else text;
        textCumulative := textCumulative[messageId := text];
        if chunk != "" { Push(None, Delta(messageId, chunk)); }
      case ThinkingBlock(text) =>
        if text != "" { Push(None, Reasoning(text)); }
      case ToolUse(id, name) =>
        if id == "" || id in toolCallsEmitted { return; }
        var callId := nextCall;
        if id in toolCallIds { callId := toolCallIds[id]; } else { nextCall := nextCall + 1; }
        toolCallIds := toolCallIds[id := callId];
        toolCallParents := toolCallParents[id := nextEvent];
        toolCallsEmitted := toolCallsEmitted + {id};
        Push(None, ToolCall(id, callId, name));
      case _ =>
    }

    method OnUserBlock(b: Block)
      requires Synced(Current())
      modifies this
      ensures Current() == UserBlock(old(Current()), b)
    {
      if !b.ToolResult? || b.toolUseId == "" || b.toolUseId in toolResultsEmitted { return; }
      var id := b.toolUseId;
      var callId := nextCall;
      if id in toolCallIds { callId := toolCallIds[id]; } else { nextCall := nextCall + 1; }
      var parent := if id in toolCallParents then Some(toolCallParents[id]) else None;
      OpenTurnIfNeeded();
      toolResultsEmitted := toolResultsEmitted + {id};
      Push(parent, ToolAnswer(id, callId, !b.isError, b.content));
    }

    method OnResult(m: Message)
      requires Synced(Current()) && m.Result?
      modifies this
      ensures Current() == ResultMessage(old(Current()), m)
    {
      OpenTurnIfNeeded();
      Push(None, Usage);
      Push(None, Cost);
      if m.isError {
        Push(None, Error(true, OrElse(m.errorMessage, "amp turn ended with is_error")));
      }
      Push(None, TurnEnd(StopReason(m), m.durationMs));
      turnClosed := true;
      turnOpen := false;
    }

    method ProjectMessage(m: Message)
      requires Synced(Current())
      modifies this
      ensures Current() == Project(old(Current()), m)
    {
      match m
      case System(sessionId) =>
        if sessionId.Some? && sessionId.value != "" && boundSessionId.None? { boundSessionId := sessionId; }
        if !sessionStartEmitted {
          sessionStartEmitted := true;
          OpenTurnIfNeeded();
          Push(None, SessionStart);
        }
      case Assistant(messageId, content) =>
        OpenTurnIfNeeded();
        ghost var begun := Current();
        for i := 0 to |content|
          invariant turnOpen && CanMint(Current()) && Current() == AssistantBlocks(begun, messageId, content, i)
        {
          OnAssistantBlock(messageId, content[i]);
        }
      case User(content) =>
        ghost var before := Current();
        for i := 0 to |content|
          invariant Synced(Current()) && Current() == UserBlocks(before, content, i)
        {
          OnUserBlock(content[i]);
        }
      case Result(_, _, _, _, _) => OnResult(m);
      case Malformed(line) =>
        OpenTurnIfNeeded();
        Push(None, Error(false, line));
      case Ignored =>
    }
  }
}
