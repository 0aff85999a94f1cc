/**
 * A conversation over whole chains of turns (frontend/store/chat.ts, frontend/store/chatRuntime.ts):
 * sends, retries and resumes, the transport attempts of each run with their fallbacks, the flush
 * timer and the deferred history backfill, in every interleaving the transport contract allows.
 */
module ChatRuns {
  import opened Prelude
  import opened Text
  import opened Messages
  import HistoryCache
  import opened Sessions
  import opened ChatTurn
  import opened Buffering
  import opened TurnFacts
  import opened Transport

  /** Where the current run is; `Ready` when no run is in flight. */
  datatype Stage = Ready | InWs | InSse | InJson

  /** The ids and the cursor that a run sends upstream. */
  datatype Request = Request(userMessageId: string, agentMessageId: string, resumeFrom: Option<int>)

  /**
   * The conversation, with a record of what happened: the sequence numbers counted since the last
   * send or retry, and of the current run whether a chunk was queued, how many data callbacks the
   * WebSocket made and whether one threw, whether the SSE and JSON fallbacks were used, and its
   * messages: the one that it started with and those given chunks.
   */
  datatype Config = Config(
    turn: Turn,
    stage: Stage,
    attempt: Attempt,
    counted: seq<Option<int>>,
    chunkQueued: bool,
    wsData: nat,
    threw: bool,
    sseUsed: bool,
    jsonSent: bool,
    touched: set<MessageId>,
    requests: seq<Request>)

  datatype Event =
    | Send(agentId: string, userMessageId: MessageId, agentMessageId: MessageId, text: string, now: int, later: int, preferred: string, wsHealthy: bool, sseHealthy: bool)
    | Retry(agentId: string, now: int, wsHealthy: bool, sseHealthy: bool)
    | Resume(wsHealthy: bool, sseHealthy: bool)
    | Datum(incident: Incident, now: int)
    | WsDatumThrew
    | StreamFault(failure: Failure)
    | TimerFires
    | StreamDone
    | StreamDeclined(sseHealthy: bool)
    | AuthFailed(message: string)
    | JsonAnswered(content: string)
    | JsonFailed(failure: Failure)
    | BackfillArrived(recovered: seq<Message>)

  // ---------------------------------------------------------------- starting a run

  predicate InProgress(session: Option<Session>) {
    session.Some? && (session.value.streamState == InStream || session.value.streamState == Continuing)
  }

  function SessionOrNew(session: Option<Session>, agentId: string): Session {
    session.GetOr(CreateAgentSession(agentId))
  }

  function SentSession(session: Option<Session>, agentId: string, userMessageId: string, agentMessageId: string, preferred: string): Session {
    WithQueue(
      SessionOrNew(session, agentId).(
        streamState := InStream, lastStreamError := None,
        lastUserMessageId := Some(userMessageId), lastAgentMessageId := Some(agentMessageId),
        lastReceivedSequence := None, transport := preferred),
      [])
  }

  function RetriedSession(session: Session): Session {
    WithQueue(session.(streamState := InStream, lastStreamError := None, lastReceivedSequence := None), [])
  }

  function ResumedSession(session: Session): Session {
    session.(streamState := InStream, lastStreamError := None)
  }

  function UserMessage(id: string, text: string, now: int): Message {
    Message(id, User, now, text, Some(Done), None, map[])
  }

  const EMPTIED_PATCH := Patch(None, Some(""), Some(Streaming), Some([]), map[])

  /** The agent message of a retry: emptied, or added again when there is no agent message of this id. */
  function RetriedHistory(history: map<string, Message>, agentMessageId: string, now: int): map<string, Message> {
    if agentMessageId in history && history[agentMessageId].role == Agent then
      Patched(history, agentMessageId, EMPTIED_PATCH)
    else HistoryCache.ViewWith(history, NewAgentMessage(agentMessageId, now))
  }

  function EnterSse(c: Config): Config {
    c.(turn := c.turn.(session := WithTransport(c.turn.session, "http_sse")), stage := InSse, attempt := Quiet, sseUsed := true)
  }

  /** The end of `executeChatRuntime`: no transport took the turn. */
  function Fallback(r: Reducers, c: Config): Config {
    if c.turn.observed then c.(turn := MarkRecoverable(r, c.turn, INTERRUPTED_EARLY), stage := Ready)
    else c.(turn := c.turn.(session := WithTransport(c.turn.session, "http_json")), stage := InJson, jsonSent := true)
  }

  function Launch(r: Reducers, c: Config, wsHealthy: bool, sseHealthy: bool): Config {
    if wsHealthy then c.(stage := InWs, attempt := Quiet)
    else if sseHealthy then EnterSse(c)
    else Fallback(r, c)
  }

  function NewRun(c: Config, turn: Turn, counted: seq<Option<int>>, request: Request): Config {
    Config(turn, Ready, Quiet, counted, false, 0, false, false, false, {turn.active}, c.requests + [request])
  }

  /** The ids that a retry or a resume needs. */
  predicate HasMessages(t: Turn) {
    && t.session.Some?
    && t.session.value.lastUserMessageId.Some? && t.session.value.lastAgentMessageId.Some?
    && Canonical(t.session.value.lastAgentMessageId.value)
    && t.session.value.lastUserMessageId.value in t.history
  }

  function SendRun(c: Config, e: Event): Config
    requires e.Send?
  {
    var t := c.turn;
    var history := t.history[e.userMessageId := UserMessage(e.userMessageId, Trim(e.text), e.now)]
                            [e.agentMessageId := NewAgentMessage(e.agentMessageId, e.later)];
    var session := SentSession(t.session, e.agentId, e.userMessageId, e.agentMessageId, e.preferred);
    NewRun(c, Begin(history, Some(session), e.agentMessageId), [], Request(e.userMessageId, e.agentMessageId, None))
  }

  function RetryRun(c: Config, e: Event): Config
    requires e.Retry? && HasMessages(c.turn)
  {
    var t, s := c.turn, c.turn.session.value;
    var id := s.lastAgentMessageId.value;
    NewRun(c, Begin(RetriedHistory(t.history, id, e.now), Some(RetriedSession(s)), id), [],
           Request(s.lastUserMessageId.value, id, None))
  }

  function ResumeRun(c: Config): Config
    requires HasMessages(c.turn)
  {
    var t, s := c.turn, c.turn.session.value;
    var id := s.lastAgentMessageId.value;
    NewRun(c, Begin(t.history, Some(ResumedSession(s)), id), c.counted,
           Request(s.lastUserMessageId.value, id, s.lastReceivedSequence))
  }

  // ---------------------------------------------------------------- one event

  predicate Attempting(c: Config) {
    c.stage.InWs? || c.stage.InSse?
  }

  /** The answer of `onData`; the SSE callback sees only payloads. */
  predicate StopsAfter(c: Config, i: Incident) {
    WsStops(c.turn, i)
  }

  predicate Enabled(c: Config, e: Event) {
    match e
    case Send(_, user, agent, text, _, _, _, _, _) =>
      && c.stage.Ready? && !InProgress(c.turn.session) && Trim(text) != ""
      && user != agent && user !in c.turn.history && agent !in c.turn.history
    case Retry(_, _, _, _) =>
      && c.stage.Ready? && HasMessages(c.turn) && !InProgress(c.turn.session)
      && c.turn.history[c.turn.session.value.lastUserMessageId.value].role == User
    case Resume(_, _) => c.stage.Ready? && HasMessages(c.turn) && c.turn.session.value.streamState == Recoverable
    case Datum(i, _) => Attempting(c) && Allowed(c.attempt, Data(StopsAfter(c, i))) && (c.stage.InSse? ==> i.Payload?)
    case WsDatumThrew => c.stage.InWs? && Allowed(c.attempt, DataThrew)
    case StreamFault(f) => Attempting(c) && Allowed(c.attempt, StreamError(f.errorCode.GetOr("")))
    case TimerFires => c.turn.timer
    case StreamDone => Attempting(c) && Allowed(c.attempt, Settle(Resolve))
    case StreamDeclined(_) => Attempting(c) && Allowed(c.attempt, Settle(Reject))
    case AuthFailed(_) => Attempting(c) && c.attempt.Quiet?
    case JsonAnswered(_) => c.stage.InJson?
    case JsonFailed(_) => c.stage.InJson?
    case BackfillArrived(_) => c.turn.backfilling.Some?
  }

  function Sequences(t: Turn, i: Incident): seq<Option<int>> {
    if i.Payload? then DatumSequences(t, i.data) else []
  }

  function Touching(r: Reducers, ids: set<MessageId>, t: Turn, i: Incident, now: int): set<MessageId> {
    if i.Payload? then DatumIds(r, ids, t, i.data, now) else ids
  }

  predicate QueuesChunk(i: Incident) {
    i.Payload? && (i.data.chunk.Some? || (i.data.status.Some? && i.data.status.value.interrupt.Some?))
  }

  function Step(r: Reducers, c: Config, e: Event): Config
    requires Enabled(c, e)
  {
    var t := c.turn;
    match e
    case Send(_, _, _, _, _, _, _, wsHealthy, sseHealthy) => Launch(r, SendRun(c, e), wsHealthy, sseHealthy)
    case Retry(_, _, wsHealthy, sseHealthy) => Launch(r, RetryRun(c, e), wsHealthy, sseHealthy)
    case Resume(wsHealthy, sseHealthy) => Launch(r, ResumeRun(c), wsHealthy, sseHealthy)
    case Datum(i, now) =>
      c.(turn := OnWsData(r, t, i, now),
         attempt := After(c.attempt, Data(StopsAfter(c, i))),
         counted := c.counted + Sequences(t, i),
         chunkQueued := c.chunkQueued || QueuesChunk(i),
         wsData := if c.stage.InWs? then c.wsData + 1 else c.wsData,
         touched := Touching(r, c.touched, t, i, now))
    case WsDatumThrew => c.(attempt := After(c.attempt, DataThrew), wsData := c.wsData + 1, threw := true)
    case StreamFault(f) => c.(turn := AppendStreamError(r, t, f), attempt := Stopped)
    case TimerFires => c.(turn := Flush(r, t))
    case StreamDone => c.(turn := AfterStream(r, t), attempt := Returned, stage := Ready)
    case StreamDeclined(sseHealthy) =>
      if c.stage.InWs? && sseHealthy then EnterSse(c) else Fallback(r, c)
    case AuthFailed(message) => c.(turn := AfterAuthFailure(r, t, message), stage := Ready)
    case JsonAnswered(content) => c.(turn := AfterJsonSuccess(t, content), stage := Ready)
    case JsonFailed(f) => c.(turn := FinalizeFailure(r, t, f), stage := Ready)
    case BackfillArrived(recovered) => c.(turn := Backfilled(r, t, recovered))
  }

  predicate Runs(r: Reducers, c: Config, events: seq<Event>)
    decreases events
  {
    events != [] ==> Enabled(c, events[0]) && Runs(r, Step(r, c, events[0]), events[1..])
  }

  function Run(r: Reducers, c: Config, events: seq<Event>): Config
    requires Runs(r, c, events)
    decreases events
  {
    if events == [] then c else Run(r, Step(r, c, events[0]), events[1..])
  }

  /** A conversation before its first run: any history, and no session or one as persistence restores it. */
  function Initial(history: map<string, Message>, session: Option<Session>): Config {
    Config(Begin(history, session, "m"), Ready, Quiet, [], false, 0, false, false, false, {}, [])
  }

  predicate Restored(session: Option<Session>) {
    session.Some? ==> session.value.streamState == StreamState.Idle && session.value.lastReceivedSequence == None
  }

  // ---------------------------------------------------------------- the invariant of every run

  function LastEnding(t: Turn): Option<Ending> {
    if t.endings == [] then None else Some(t.endings[|t.endings| - 1])
  }

  predicate EndsOnce(t: Turn) {
    |t.endings| == if t.terminalHandled then 1 else 0
  }

  /** The cursor of the run, the stored cursor and the greatest counted number agree. */
  predicate CursorCounts(c: Config) {
    CursorOk(c.turn) && (c.turn.session.Some? ==> c.turn.highest == MaxCursorAll(None, c.counted))
  }

  predicate AtRest(session: Option<Session>) {
    session.Some? ==> session.value.streamState in {StreamState.Idle, Recoverable, StreamState.Failed}
  }

  predicate Started(session: Option<Session>) {
    session.Some? && session.value.streamState == InStream
  }

  /** The stage and how far the run is. */
  predicate StageOk(c: Config) {
    var t := c.turn;
    && (t.backfilling.Some? ==> Started(t.session) && LastEnding(t) == Some(Completion) && NothingBuffered(t))
    && (c.stage.Ready? ==> NothingBuffered(t) && (t.backfilling.None? ==> AtRest(t.session)))
    && (!c.stage.Ready? ==> t.session.Some? && (!t.terminalHandled ==> Started(t.session) && t.backfilling.None?))
    && (Attempting(c) ==> !c.attempt.Returned? && (c.attempt.Stopped? <==> t.terminalHandled))
    && (Attempting(c) && t.terminalHandled ==> NothingBuffered(t) && (t.backfilling.None? ==> AtRest(t.session)))
    && (c.stage.InWs? && c.attempt.Quiet? ==> !t.observed)
    && (Attempting(c) && !t.observed ==> NothingBuffered(t))
    && (c.stage.InJson? ==> !t.terminalHandled && !t.observed && NothingBuffered(t))
  }

  /** Which fallbacks were used, and on what condition. */
  predicate FallbacksOk(c: Config) {
    && (c.chunkQueued ==> c.turn.observed)
    && (c.stage.InWs? && c.attempt.Quiet? ==> c.wsData == 0)
    && (c.stage.InWs? ==> (c.threw <==> c.attempt.Thrown?))
    && (c.stage.InSse? ==> !c.attempt.Thrown?)
    && (c.threw ==> c.wsData > 0)
    && (c.sseUsed ==> (c.wsData > 0 <==> c.threw))
    && (c.stage.InSse? ==> c.sseUsed) && (c.stage.InWs? ==> !c.sseUsed)
    && (c.jsonSent ==> !c.chunkQueued && (c.wsData > 0 <==> c.threw) && !Attempting(c))
  }

  /** The messages of the run are its to close, and a finished completion has closed them. */
  predicate TouchedOk(c: Config) {
    var t := c.turn;
    && (!t.terminalHandled || t.backfilling.Some? ==> c.touched <= t.activeIds)
    && (LastEnding(t) == Some(Completion) && t.backfilling.None? ==> AllDone(t, c.touched))
  }

  predicate Inv(c: Config) {
    EndsOnce(c.turn) && CursorCounts(c) && StageOk(c) && FallbacksOk(c) && TouchedOk(c)
  }

  lemma InitialInv(history: map<string, Message>, session: Option<Session>)
    requires Restored(session)
    ensures Inv(Initial(history, session))
  {
  }

  lemma {:induction false} MaxCursorConcat(highest: Option<int>, a: seq<Option<int>>, b: seq<Option<int>>)
    ensures MaxCursorAll(highest, a + b) == MaxCursorAll(MaxCursorAll(highest, a), b)
    decreases a
  {
    if a == [] {
      assert a + b == b;
    } else {
      assert (a + b)[1..] == a[1..] + b;
      MaxCursorConcat(MaxCursor(highest, a[0]), a[1..], b);
    }
  }

  /** A configuration just before its first transport attempt. */
  predicate Fresh(c: Config) {
    && c.stage.Ready? && !c.chunkQueued && c.wsData == 0 && !c.threw && !c.sseUsed && !c.jsonSent && c.touched <= c.turn.activeIds
    && Started(c.turn.session) && CursorCounts(c)
    && c.turn.endings == [] && !c.turn.terminalHandled && !c.turn.observed && c.turn.backfilling.None? && NothingBuffered(c.turn)
  }

  lemma LaunchKeepsInv(r: Reducers, c: Config, wsHealthy: bool, sseHealthy: bool)
    requires Fresh(c)
    ensures Inv(Launch(r, c, wsHealthy, sseHealthy))
  {
    if wsHealthy {
    } else if sseHealthy {
      assert Launch(r, c, wsHealthy, sseHealthy) == EnterSse(c);
    } else {
      assert Launch(r, c, wsHealthy, sseHealthy) == Fallback(r, c);
    }
  }

  lemma NewRunsAreFresh(c: Config, e: Event)
    requires Inv(c) && Enabled(c, e)
    ensures e.Send? ==> Fresh(SendRun(c, e))
    ensures e.Retry? ==> Fresh(RetryRun(c, e))
    ensures e.Resume? ==> Fresh(ResumeRun(c))
  {
    match e
    case Send(_, _, _, _, _, _, _, _, _) =>
    case Retry(_, _, _, _) =>
    case Resume(_, _) =>
    case _ =>
  }

  /** A run that an error ended stays in its stage until the transport returns. */
  lemma BrokenKeepsInv(c: Config, n: Config, ending: Ending)
    requires Inv(c) && Attempting(c) && !c.turn.terminalHandled && !ending.Completion?
    requires n.stage == c.stage && n.attempt.Stopped? && n.counted == c.counted && n.chunkQueued == c.chunkQueued
    requires n.sseUsed == c.sseUsed && n.jsonSent == c.jsonSent && n.threw == c.threw && !c.attempt.Thrown?
    requires c.stage.InSse? ==> n.wsData == c.wsData
    requires EndedAs(c.turn, n.turn, ending) && AtRest(n.turn.session) && n.turn.backfilling.None?
    ensures Inv(n)
  {
  }

  lemma ErrorEventKeepsInv(r: Reducers, c: Config, f: Failure, now: int)
    requires Inv(c) && Enabled(c, Datum(ErrorEvent(f), now))
    ensures Inv(Step(r, c, Datum(ErrorEvent(f), now)))
  {
    var n := Step(r, c, Datum(ErrorEvent(f), now));
    ErrorEventIsReport(r, c.turn, f, now);
    ErrorEnds(r, c.turn, f);
    assert c.counted + [] == c.counted;
    BrokenKeepsInv(c, n, if IsRecoverable(f.Code()) then Interruption else Breakdown);
  }

  lemma StreamFaultKeepsInv(r: Reducers, c: Config, f: Failure)
    requires Inv(c) && Enabled(c, StreamFault(f))
    ensures Inv(Step(r, c, StreamFault(f)))
  {
    ErrorEnds(r, c.turn, f);
    BrokenKeepsInv(c, Step(r, c, StreamFault(f)), if IsRecoverable(f.Code()) then Interruption else Breakdown);
  }

  /** A datum before the run ended: the part before the persisted check. */
  lemma TakeKeepsRun(r: Reducers, c: Config, d: StreamData, now: int)
    requires Inv(c) && Attempting(c) && !c.turn.terminalHandled
    ensures
      var u := Take(r, c.turn, d, now);
      && EndsOnce(u) && !u.terminalHandled && u.endings == [] && u.backfilling.None? && Started(u.session)
      && CursorOk(u) && u.highest == MaxCursorAll(None, c.counted + DatumSequences(c.turn, d))
      && (c.chunkQueued || QueuesChunk(Payload(d)) ==> u.observed)
      && (!u.observed ==> NothingBuffered(u))
      && Touching(r, c.touched, c.turn, Payload(d), now) <= u.activeIds
  {
    TakeKeeps(r, c.turn, d, now);
    MaxCursorConcat(None, c.counted, DatumSequences(c.turn, d));
    DatumIdsMonotone(r, c.touched, c.turn.activeIds, c.turn, d, now);
    if d.chunk.None? && d.status.None? && !HasMeta(d) {
      assert Take(r, c.turn, d, now) == c.turn;
    }
  }

  /** The record fields after a datum. */
  predicate RecordsDatum(c: Config, n: Config) {
    && n.stage == c.stage && n.sseUsed == c.sseUsed && n.jsonSent == c.jsonSent
    && n.threw == c.threw && !c.attempt.Thrown?
    && n.wsData == (if c.stage.InWs? then c.wsData + 1 else c.wsData)
    && (n.chunkQueued ==> n.turn.observed)
  }

  lemma ContinuingKeepsInv(c: Config, n: Config)
    requires Inv(c) && Attempting(c) && !c.turn.terminalHandled && RecordsDatum(c, n)
    requires n.attempt.Delivering? && CursorCounts(n) && Started(n.turn.session)
    requires n.turn.endings == [] && !n.turn.terminalHandled && n.turn.backfilling.None?
    requires n.touched <= n.turn.activeIds && (!n.turn.observed ==> NothingBuffered(n.turn))
    ensures Inv(n)
  {
  }

  lemma CompletedKeepsInv(c: Config, n: Config, u: Turn)
    requires Inv(c) && Attempting(c) && !c.turn.terminalHandled && RecordsDatum(c, n)
    requires n.attempt.Stopped? && CursorCounts(n) && Started(u.session)
    requires u.endings == [] && EndedAs(u, n.turn, Completion)
    requires n.turn.backfilling.None? ==> StreamStateIs(n.turn.session, StreamState.Idle) && AllDone(n.turn, n.touched)
    requires n.turn.backfilling.Some? ==> SameStream(u.session, n.turn.session) && n.touched <= n.turn.activeIds
    ensures Inv(n)
  {
  }

  lemma PayloadKeepsInv(r: Reducers, c: Config, d: StreamData, now: int)
    requires Inv(c) && Enabled(c, Datum(Payload(d), now))
    ensures Inv(Step(r, c, Datum(Payload(d), now)))
  {
    TakeKeepsRun(r, c, d, now);
    var u := Take(r, c.turn, d, now);
    var n := Step(r, c, Datum(Payload(d), now));
    assert n.turn == Incoming(r, c.turn, d, now);
    if Persisted(d) {
      CompleteEnds(r, u);
      assert n.turn == CompleteStreaming(r, u);
      CompletedKeepsInv(c, n, u);
    } else {
      assert n.turn == u || n.turn == u.(finalStatusSeen := true);
      ContinuingKeepsInv(c, n);
    }
  }

  lemma DatumKeepsInv(r: Reducers, c: Config, i: Incident, now: int)
    requires Inv(c) && Enabled(c, Datum(i, now))
    ensures Inv(Step(r, c, Datum(i, now)))
  {
    match i
    case ErrorEvent(f) => ErrorEventKeepsInv(r, c, f, now);
    case StreamEnd => assert c.counted + [] == c.counted;
    case Payload(d) => PayloadKeepsInv(r, c, d, now);
  }

  /** A transport that returns leaves a run that has ended. */
  lemma ReturnedKeepsInv(c: Config, n: Config)
    requires Inv(c) && Attempting(c) && n == c.(turn := n.turn, attempt := Returned, stage := Ready)
    requires c.turn.terminalHandled ==> n.turn == c.turn
    requires !c.turn.terminalHandled ==>
      EndedAs(c.turn, n.turn, Interruption) && StreamStateIs(n.turn.session, Recoverable) && n.turn.backfilling.None?
    ensures Inv(n)
  {
  }

  lemma StreamDoneKeepsInv(r: Reducers, c: Config)
    requires Inv(c) && Enabled(c, StreamDone)
    ensures Inv(Step(r, c, StreamDone))
  {
    if !c.turn.terminalHandled {
      InterruptEnds(r, c.turn, if c.turn.finalStatusSeen then ACK_MISSING_AFTER_FINAL else ACK_MISSING);
    }
    ReturnedKeepsInv(c, Step(r, c, StreamDone));
  }

  lemma EnterSseKeepsInv(c: Config)
    requires Inv(c) && c.stage.InWs? && Allowed(c.attempt, Settle(Reject))
    ensures Inv(EnterSse(c))
  {
  }

  lemma FallbackKeepsInv(r: Reducers, c: Config)
    requires Inv(c) && Attempting(c) && Allowed(c.attempt, Settle(Reject))
    ensures Inv(Fallback(r, c))
  {
    if c.turn.observed {
      InterruptEnds(r, c.turn, INTERRUPTED_EARLY);
      ReturnedKeepsInv(c, Fallback(r, c).(attempt := Returned));
    }
  }

  lemma DeclinedKeepsInv(r: Reducers, c: Config, sseHealthy: bool)
    requires Inv(c) && Enabled(c, StreamDeclined(sseHealthy))
    ensures Inv(Step(r, c, StreamDeclined(sseHealthy)))
  {
    if c.stage.InWs? && sseHealthy {
      EnterSseKeepsInv(c);
    } else {
      FallbackKeepsInv(r, c);
    }
  }

  lemma ThrewKeepsInv(r: Reducers, c: Config)
    requires Inv(c) && Enabled(c, WsDatumThrew)
    ensures Inv(Step(r, c, WsDatumThrew))
  {
  }

  lemma AuthKeepsInv(r: Reducers, c: Config, message: string)
    requires Inv(c) && Enabled(c, AuthFailed(message))
    ensures Inv(Step(r, c, AuthFailed(message)))
  {
  }

  lemma JsonAnsweredKeepsInv(r: Reducers, c: Config, content: string)
    requires Inv(c) && Enabled(c, JsonAnswered(content))
    ensures Inv(Step(r, c, JsonAnswered(content)))
  {
  }

  lemma JsonFailedKeepsInv(r: Reducers, c: Config, f: Failure)
    requires Inv(c) && Enabled(c, JsonFailed(f))
    ensures Inv(Step(r, c, JsonFailed(f)))
  {
    FinalizeEnds(r, c.turn, f);
    FailedAnswerKeepsInv(c, Step(r, c, JsonFailed(f)));
  }

  lemma FailedAnswerKeepsInv(c: Config, n: Config)
    requires Inv(c) && c.stage.InJson? && n == c.(turn := n.turn, stage := Ready)
    requires EndedAs(c.turn, n.turn, Breakdown) && StreamStateIs(n.turn.session, StreamState.Failed) && n.turn.backfilling.None?
    ensures Inv(n)
  {
  }

  lemma TimerKeepsInv(r: Reducers, c: Config)
    requires Inv(c) && Enabled(c, TimerFires)
    ensures Inv(Step(r, c, TimerFires))
  {
    FlushKeeps(r, c.turn);
  }

  lemma BackfillKeepsInv(r: Reducers, c: Config, recovered: seq<Message>)
    requires Inv(c) && Enabled(c, BackfillArrived(recovered))
    ensures Inv(Step(r, c, BackfillArrived(recovered)))
  {
    BackfilledCloses(r, c.turn, recovered);
  }

  lemma StepKeepsInv(r: Reducers, c: Config, e: Event)
    requires Inv(c) && Enabled(c, e)
    ensures Inv(Step(r, c, e))
  {
    match e
    case Send(_, _, _, _, _, _, _, wsHealthy, sseHealthy) =>
      NewRunsAreFresh(c, e);
      LaunchKeepsInv(r, SendRun(c, e), wsHealthy, sseHealthy);
    case Retry(_, _, wsHealthy, sseHealthy) =>
      NewRunsAreFresh(c, e);
      LaunchKeepsInv(r, RetryRun(c, e), wsHealthy, sseHealthy);
    case Resume(wsHealthy, sseHealthy) =>
      NewRunsAreFresh(c, e);
      LaunchKeepsInv(r, ResumeRun(c), wsHealthy, sseHealthy);
    case Datum(i, now) => DatumKeepsInv(r, c, i, now);
    case WsDatumThrew => ThrewKeepsInv(r, c);
    case StreamFault(f) => StreamFaultKeepsInv(r, c, f);
    case TimerFires => TimerKeepsInv(r, c);
    case StreamDone => StreamDoneKeepsInv(r, c);
    case StreamDeclined(sseHealthy) => DeclinedKeepsInv(r, c, sseHealthy);
    case AuthFailed(message) => AuthKeepsInv(r, c, message);
    case JsonAnswered(content) => JsonAnsweredKeepsInv(r, c, content);
    case JsonFailed(f) => JsonFailedKeepsInv(r, c, f);
    case BackfillArrived(recovered) => BackfillKeepsInv(r, c, recovered);
  }

  lemma {:induction false} RunKeepsInv(r: Reducers, c: Config, events: seq<Event>)
    requires Inv(c) && Runs(r, c, events)
    ensures Inv(Run(r, c, events))
    decreases events
  {
    if events != [] {
      StepKeepsInv(r, c, events[0]);
      RunKeepsInv(r, Step(r, c, events[0]), events[1..]);
    }
  }
}
