/**
 * One chat turn as a value (frontend/store/chatRuntime.ts): the closure variables of
 * `executeChatRuntime`, the history of its conversation by message id, and its session, with the
 * effect of each closure as a function. The class in ChatRuntime.dfy is proved against these.
 */
module ChatTurn {
  import opened Prelude
  import opened Text
  import opened Messages
  import opened Sessions
  import opened MessageMerge

  /** Ids reach the runtime trimmed and not blank. */
  type MessageId = id: string | Canonical(id) witness "m"

  datatype BlockType = TextBlock | Reasoning | ToolCall | InterruptEvent

  /** A stream block update. `weak` is an event id made up for the chunk; `upstream` a message id chosen by the agent. */
  datatype Chunk = Chunk(
    eventId: string,
    weak: bool,
    messageId: MessageId,
    upstream: bool,
    sequence: Option<int>,
    blockType: BlockType,
    delta: string)

  /** The block reducers, left arbitrary: every result holds for all of them. */
  datatype Reducers = Reducers(
    apply: (Option<seq<Block>>, Chunk) -> seq<Block>,
    project: Option<seq<Block>> -> string,
    finalize: Option<seq<Block>> -> Option<seq<Block>>,
    describe: RuntimeInterrupt -> string)

  datatype StatusEvent = StatusEvent(
    state: string,
    isFinal: bool,
    interrupt: Option<RuntimeInterrupt>,
    sequence: Option<int>,
    persisted: bool)

  /** The extracted parts of one stream datum; `hasMeta` says that it carries other session data. */
  datatype StreamData = StreamData(
    chunk: Option<Chunk>,
    status: Option<StatusEvent>,
    hasMeta: bool,
    transport: Option<string>)

  datatype MissingParams = MissingParams(names: seq<string>, json: string)

  datatype UpstreamError = UpstreamError(message: Option<string>, json: string)

  /** An error report; JSON values stand as their texts. */
  datatype Failure = Failure(
    text: string,
    errorCode: Option<string>,
    source: Option<string>,
    jsonrpcCode: Option<string>,
    missingParams: Option<MissingParams>,
    upstreamError: Option<UpstreamError>)
  {
    /** `normalizeErrorCode`. */
    function Code(): Option<string> {
      NonBlank(errorCode)
    }

    /** `buildStreamErrorMessage`: missing parameters, or the upstream message behind a generic text, or the text. */
    function Shown(): string {
      var missing := if missingParams.Some? then CommaSeparated(missingParams.value.names) else "";
      var upstream := if upstreamError.Some? then NonBlank(upstreamError.value.message) else None;
      if missing != "" then "Missing required upstream parameters: " + missing
      else if upstream.Some? && Trim(text) in {"Upstream streaming failed", "Stream error."} then upstream.value
      else text
    }
  }

  /** `join(", ")`. */
  function CommaSeparated(names: seq<string>): string {
    if names == [] then "" else if |names| == 1 then names[0] else names[0] + ", " + CommaSeparated(names[1..])
  }

  function PlainFailure(text: string, errorCode: Option<string>): Failure {
    Failure(text, errorCode, None, None, None, None)
  }

  datatype Ending = Interruption | Breakdown | Completion

  datatype Turn = Turn(
    history: map<string, Message>,
    session: Option<Session>,
    active: MessageId,
    activeIds: set<MessageId>,
    alias: map<MessageId, MessageId>,
    seen: set<string>,
    terminalHandled: bool,
    finalStatusSeen: bool,
    observed: bool,
    highest: Option<int>,
    buffer: map<MessageId, seq<Chunk>>,
    timer: bool,
    backfilling: Option<set<MessageId>>,
    endings: seq<Ending>)

  /** The closure variables when a run starts; the cursor continues from the session's. */
  function Begin(history: map<string, Message>, session: Option<Session>, agentMessageId: MessageId): Turn {
    Turn(history, session, agentMessageId, {agentMessageId}, map[], {}, false, false, false,
         if session.Some? then session.value.lastReceivedSequence else None,
         map[], false, None, [])
  }

  function Patched(history: map<string, Message>, id: string, p: Patch): map<string, Message> {
    if id in history then history[id := ApplyPatch(history[id], p)] else history
  }

  function PatchMessage(t: Turn, id: MessageId, p: Patch): Turn {
    t.(history := Patched(t.history, id, p))
  }

  // A patch of the session does nothing when the conversation has no session.

  function IdleSession(session: Option<Session>): Option<Session> {
    if session.None? then None
    else Some(WithQueue(session.value.(streamState := Idle, lastStreamError := None), []))
  }

  function FailedSession(session: Option<Session>, shown: string): Option<Session> {
    if session.None? then None
    else Some(WithQueue(session.value.(streamState := StreamState.Failed, lastStreamError := Some(shown)), []))
  }

  function RecoverableSession(session: Option<Session>, shown: string): Option<Session> {
    if session.None? then None
    else Some(session.value.(streamState := Recoverable, lastStreamError := Some(shown)))
  }

  function WithTransport(session: Option<Session>, transport: string): Option<Session> {
    if session.None? then None else Some(session.value.(transport := transport))
  }

  function WithLastAgentMessage(session: Option<Session>, id: string): Option<Session> {
    if session.None? then None else Some(session.value.(lastAgentMessageId := Some(id)))
  }

  function WithSequence(session: Option<Session>, n: int): Option<Session> {
    if session.None? then None else Some(session.value.(lastReceivedSequence := Some(n)))
  }

  function WithMeta(session: Option<Session>, status: Option<StatusEvent>, transport: Option<string>): Option<Session> {
    if session.None? then None
    else
      var s := session.value;
      var a := if status.Some? then s.(runtimeStatus := Some(status.value.state)) else s;
      var b := if status.Some? && status.value.interrupt.Some? then Observed(a, status.value.interrupt.value) else a;
      Some(if transport.Some? then b.(transport := transport.value) else b)
  }

  // ---------------------------------------------------------------- the chunk buffer

  function FoldBlocks(r: Reducers, blocks: Option<seq<Block>>, chunks: seq<Chunk>): Option<seq<Block>> {
    if chunks == [] then blocks
    else Some(r.apply(FoldBlocks(r, blocks, chunks[..|chunks| - 1]), chunks[|chunks| - 1]))
  }

  /** The patch a flush writes to one message. */
  function FlushPatch(r: Reducers, m: Message, chunks: seq<Chunk>): Patch {
    var blocks := FoldBlocks(r, m.blocks, chunks);
    Patch(None, Some(r.project(blocks)), Some(Streaming), blocks, map[])
  }

  function ApplyChunks(r: Reducers, m: Message, chunks: seq<Chunk>): Message {
    if chunks == [] then m else ApplyPatch(m, FlushPatch(r, m, chunks))
  }

  /** The history with the buffered chunks of every message applied. */
  function Drained(r: Reducers, history: map<string, Message>, buffer: map<MessageId, seq<Chunk>>): map<string, Message> {
    map id | id in history :: if id in buffer then ApplyChunks(r, history[id], buffer[id]) else history[id]
  }

  function Flush(r: Reducers, t: Turn): Turn {
    t.(history := Drained(r, t.history, t.buffer), buffer := map[], timer := false)
  }

  function MarkActive(t: Turn, id: MessageId): Turn {
    t.(active := id, activeIds := t.activeIds + {id}, session := WithLastAgentMessage(t.session, id))
  }

  function NewAgentMessage(id: string, now: int): Message {
    Message(id, Agent, now, "", Some(Streaming), Some([]), map[])
  }

  /** The message a chunk goes to. */
  function TargetOf(t: Turn, c: Chunk): MessageId {
    if c.messageId in t.alias then t.alias[c.messageId]
    else if c.messageId in t.history || c.upstream || t.active !in t.history then c.messageId
    else t.active
  }

  function MapTo(t: Turn, id: MessageId, target: MessageId): Turn {
    MarkActive(t.(alias := t.alias[id := target]), target)
  }

  /** The history after the message of `from` took the id `to`. */
  function Renamed(history: map<string, Message>, from: string, to: string): map<string, Message> {
    if from in history then (history - {from})[to := history[from].(id := to)] else history
  }

  /** An upstream id takes over the placeholder, after a flush. */
  function TakeOver(r: Reducers, t: Turn, id: MessageId): Turn {
    var f := Flush(r, t);
    MapTo(f.(history := Renamed(f.history, t.active, id), activeIds := t.activeIds - {t.active}), id, id)
  }

  function StartMessage(t: Turn, id: MessageId, now: int): Turn {
    MapTo(t.(history := t.history[id := NewAgentMessage(id, now)]), id, id)
  }

  /** Finds or makes the message a chunk goes to. */
  function Resolve(r: Reducers, t: Turn, c: Chunk, now: int): Turn {
    if c.messageId in t.alias then MarkActive(t, t.alias[c.messageId])
    else if c.messageId in t.history then MapTo(t, c.messageId, c.messageId)
    else if t.active !in t.history then StartMessage(t, c.messageId, now)
    else if c.upstream then TakeOver(r, t, c.messageId)
    else MapTo(t, c.messageId, t.active)
  }

  function BlockCount(m: Message): nat {
    if m.blocks.Some? then |m.blocks.value| else 0
  }

  /** A non-text chunk shows at once when the message it goes to has no block yet. */
  predicate FlushesAtOnce(t: Turn, target: MessageId, c: Chunk) {
    && !c.blockType.TextBlock?
    && (target in t.buffer ==> |t.buffer[target]| <= 1)
    && target in t.history
    && t.history[target].role == Agent
    && BlockCount(t.history[target]) == 0
  }

  function Buffered(t: Turn, target: MessageId, c: Chunk): Turn {
    t.(buffer := t.buffer[target := (if target in t.buffer then t.buffer[target] else []) + [c]])
  }

  function Append(r: Reducers, t: Turn, c: Chunk, now: int): Turn {
    var target := TargetOf(t, c);
    var u := Buffered(Resolve(r, t, c, now), target, c);
    if FlushesAtOnce(u, target, c) then Flush(r, u) else u.(timer := true)
  }

  // ---------------------------------------------------------------- accepting data

  predicate Duplicate(t: Turn, c: Chunk) {
    !c.weak && c.eventId in t.seen
  }

  function MarkSeen(t: Turn, c: Chunk): Turn {
    if c.weak then t else t.(seen := t.seen + {c.eventId})
  }

  predicate Advances(highest: Option<int>, sequence: Option<int>) {
    sequence.Some? && sequence.value > 0 && (highest.None? || sequence.value > highest.value)
  }

  function AdvanceCursor(t: Turn, sequence: Option<int>): Turn {
    if Advances(t.highest, sequence) then
      t.(highest := sequence, session := WithSequence(t.session, sequence.value))
    else t
  }

  function Enqueue(r: Reducers, t: Turn, c: Chunk, now: int): Turn {
    if Duplicate(t, c) then t
    else Append(r, AdvanceCursor(MarkSeen(t, c), c.sequence), c, now)
  }

  function Phase(interrupt: RuntimeInterrupt): string {
    if interrupt.Asked? then "asked" else "resolved"
  }

  function RequestId(interrupt: RuntimeInterrupt): string {
    if interrupt.Asked? then interrupt.interrupt.requestId else interrupt.resolution.requestId
  }

  function InterruptChunk(r: Reducers, interrupt: RuntimeInterrupt, messageId: MessageId): Chunk {
    Chunk("interrupt:" + RequestId(interrupt) + ":" + Phase(interrupt), false, messageId, true, None,
          InterruptEvent, r.describe(interrupt))
  }

  predicate HasMeta(d: StreamData) {
    d.hasMeta || d.transport.Some?
  }

  /** An empty transport name is an event, but alone it writes nothing. */
  predicate WritesMeta(d: StreamData) {
    d.hasMeta || (d.transport.Some? && d.transport.value != "") || d.status.Some?
  }

  function Notice(t: Turn, d: StreamData): Turn {
    var u := if d.chunk.Some? || d.status.Some? || HasMeta(d) then t.(observed := true) else t;
    if d.status.Some? then AdvanceCursor(u, d.status.value.sequence) else u
  }

  function TakeChunk(r: Reducers, t: Turn, d: StreamData, now: int): Turn {
    if d.chunk.Some? then Enqueue(r, t, d.chunk.value, now) else t
  }

  /** An interrupt shows as a block of the active message, after what was buffered. */
  function TakeInterrupt(r: Reducers, t: Turn, d: StreamData, now: int): Turn {
    if d.status.Some? && d.status.value.interrupt.Some? then
      Enqueue(r, Flush(r, t), InterruptChunk(r, d.status.value.interrupt.value, t.active), now)
    else t
  }

  function TakeMeta(t: Turn, d: StreamData): Turn {
    if WritesMeta(d) then t.(session := WithMeta(t.session, d.status, d.transport)) else t
  }

  /** The part of `applyIncomingStreamData` before the persisted check. */
  function Take(r: Reducers, t: Turn, d: StreamData, now: int): Turn {
    TakeMeta(TakeInterrupt(r, TakeChunk(r, Notice(t, d), d, now), d, now), d)
  }

  predicate Persisted(d: StreamData) {
    d.status.Some? && d.status.value.persisted
  }

  /** `applyIncomingStreamData`; its answer, `Persisted(d)`, tells the transport to stop. */
  function Incoming(r: Reducers, t: Turn, d: StreamData, now: int): Turn {
    var u := Take(r, t, d, now);
    if Persisted(d) then CompleteStreaming(r, u)
    else if d.status.Some? && d.status.value.isFinal then u.(finalStatusSeen := true)
    else u
  }

  // ---------------------------------------------------------------- terminal handlers

  function Ended(t: Turn, ending: Ending): Turn {
    t.(terminalHandled := true, endings := t.endings + [ending])
  }

  function ContentOf(t: Turn, id: string): string {
    if id in t.history then t.history[id].content else ""
  }

  function InterruptedPatch(content: string): Patch {
    Patch(None, Some(content), Some(Interrupted), None, map["errorCode" := None, "errorMessage" := None])
  }

  function MarkRecoverable(r: Reducers, t: Turn, shown: string): Turn {
    if t.terminalHandled then t
    else
      var u := Flush(r, Ended(t, Interruption));
      PatchMessage(u, u.active, InterruptedPatch(ContentOf(u, u.active))).(session := RecoverableSession(u.session, shown))
  }

  function ErrorPatch(content: string, f: Failure): Patch {
    Patch(None, Some(content), Some(Error), None,
          map["errorCode" := f.Code(),
              "errorMessage" := Some(f.Shown()),
              "errorSource" := f.source,
              "jsonrpcCode" := f.jsonrpcCode,
              "missingParams" := if f.missingParams.Some? then Some(f.missingParams.value.json) else None,
              "upstreamError" := if f.upstreamError.Some? then Some(f.upstreamError.value.json) else None])
  }

  function FinalizeFailure(r: Reducers, t: Turn, f: Failure): Turn {
    if t.terminalHandled then t
    else
      var u := Flush(r, Ended(t, Breakdown));
      PatchMessage(u, u.active, ErrorPatch(ContentOf(u, u.active), f)).(session := FailedSession(u.session, f.Shown()))
  }

  predicate IsRecoverable(code: Option<string>) {
    code.Some? && code.value in {"timeout", "stream_closed", "stream_error", "session_not_found"}
  }

  function AppendStreamError(r: Reducers, t: Turn, f: Failure): Turn {
    if IsRecoverable(f.Code()) then MarkRecoverable(r, t, f.Shown()) else FinalizeFailure(r, t, f)
  }

  /** The messages of this run that still exist. */
  function ExistingTargets(t: Turn): set<MessageId> {
    var targets := set id | id in t.activeIds && id in t.history;
    if targets == {} && t.active in t.history then {t.active} else targets
  }

  function DonePatch(r: Reducers, m: Message): Patch {
    Patch(None, None, Some(Done), Some(r.finalize(m.blocks).GetOr([])), map[])
  }

  function Closed(r: Reducers, history: map<string, Message>, targets: set<MessageId>): map<string, Message> {
    map id | id in history ::
      if id in targets then ApplyPatch(history[id], DonePatch(r, history[id])) else history[id]
  }

  /** How a message is closed with an error text: a block that shows it follows the finalised ones. */
  function ErrorClosing(r: Reducers, m: Message, errorText: string, stamp: string): Patch {
    var block := Block(m.id + ":error:" + stamp, "system_error", "[Stream Error: " + errorText + "]", true);
    Patch(None, None, Some(Done), Some(r.finalize(m.blocks).GetOr([]) + [block]), map[])
  }

  function ClosedWithError(r: Reducers, history: map<string, Message>, targets: set<MessageId>, errorText: string, stamp: string): map<string, Message> {
    map id | id in history ::
      if id in targets then ApplyPatch(history[id], ErrorClosing(r, history[id], errorText, stamp)) else history[id]
  }

  function CloseMessages(r: Reducers, t: Turn): Turn {
    t.(history := Closed(r, t.history, ExistingTargets(t)), activeIds := {})
  }

  function FinishCompletion(r: Reducers, t: Turn): Turn {
    CloseMessages(r, t).(session := IdleSession(t.session))
  }

  predicate Renderable(t: Turn, id: string) {
    && id in t.history
    && t.history[id].role == Agent
    && (Trim(t.history[id].content) != "" || BlockCount(t.history[id]) > 0)
  }

  predicate NeedsBackfill(t: Turn, targets: set<MessageId>) {
    t.observed && targets != {} && forall id :: id in targets ==> !Renderable(t, id)
  }

  function CompleteStreaming(r: Reducers, t: Turn): Turn {
    if t.terminalHandled then t
    else
      var targets := ExistingTargets(t);
      var u := Flush(r, Ended(t, Completion));
      if NeedsBackfill(u, targets) then u.(backfilling := Some(targets)) else FinishCompletion(r, u)
  }

  function Lookup(history: map<string, Message>, id: string): Option<Message> {
    if id in history then Some(history[id]) else None
  }

  function IncomingIds(recovered: seq<Message>): set<string> {
    set m | m in recovered && Trim(m.id) != "" :: Trim(m.id)
  }

  /** The merge of the recovered page into the history, id by id. */
  function MergedHistory(history: map<string, Message>, recovered: seq<Message>): map<string, Message> {
    map id | id in history.Keys + IncomingIds(recovered) && Settle(Lookup(history, id), recovered, id, false).Some? ::
      Settle(Lookup(history, id), recovered, id, false).value
  }

  /** The deferred end of a completion: the history page arrived (empty when the request failed). */
  function Backfilled(r: Reducers, t: Turn, recovered: seq<Message>): Turn {
    var u := if recovered == [] then t else t.(history := MergedHistory(t.history, recovered));
    FinishCompletion(r, u.(backfilling := None))
  }

  // ---------------------------------------------------------------- the transports' callbacks

  datatype Incident =
    | ErrorEvent(failure: Failure)
    | StreamEnd
    | Payload(data: StreamData)

  /** `onData` of the WebSocket transport. */
  function OnWsData(r: Reducers, t: Turn, i: Incident, now: int): Turn {
    match i
    case ErrorEvent(failure) =>
      if failure.errorCode == Some("session_not_found") then MarkRecoverable(r, t, failure.Shown()) else AppendStreamError(r, t, failure)
    case StreamEnd => t
    case Payload(data) => Incoming(r, t, data, now)
  }

  predicate WsStops(t: Turn, i: Incident) {
    match i
    case ErrorEvent(_) => true
    case StreamEnd => t.terminalHandled
    case Payload(data) => Persisted(data)
  }

  const ACK_MISSING_AFTER_FINAL := "Streaming finished without a persisted completion acknowledgement."
  const ACK_MISSING := "Streaming transport ended before a persisted completion acknowledgement was received."
  const INTERRUPTED_EARLY := "Streaming transport interrupted before completion."

  /** A transport returned true. */
  function AfterStream(r: Reducers, t: Turn): Turn {
    if t.terminalHandled then t
    else MarkRecoverable(r, t, if t.finalStatusSeen then ACK_MISSING_AFTER_FINAL else ACK_MISSING)
  }

  /** A transport raised an authentication or authorisation failure. */
  function AfterAuthFailure(r: Reducers, t: Turn, message: string): Turn {
    var u := Flush(r, t);
    PatchMessage(u, u.active, Patch(None, Some(message), Some(Done), None, map[])).(session := FailedSession(u.session, message))
  }

  function AfterJsonSuccess(t: Turn, content: string): Turn {
    PatchMessage(t, t.active, Patch(None, Some(content), Some(Done), None, map["errorCode" := None, "errorMessage" := None])).(
      session := IdleSession(t.session))
  }
}
