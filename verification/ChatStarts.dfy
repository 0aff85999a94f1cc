/**
 * How runs begin, which transport they try, and what one datum does at once
 * (frontend/store/chat.ts, frontend/store/chatRuntime.ts).
 */
module ChatStarts {
  import opened Prelude
  import opened Text
  import opened Messages
  import opened MessageMerge
  import opened Sessions
  import HistoryCache
  import opened ChatTurn
  import opened Buffering
  import opened TurnFacts
  import Transport
  import opened ChatRuns
  import opened ChatOutcomes

  // ---------------------------------------------------------------- sending, retrying, resuming

  /** A session at the start of a run: streaming, no error. */
  predicate StartsFrom(before: Session, s: Session) {
    && s.streamState == InStream && s.lastStreamError == None
    && s.agentId == before.agentId && s.runtimeStatus == before.runtimeStatus && s.lastResolved == before.lastResolved
  }

  /** A send adds the trimmed text and an empty streaming answer, and starts with nothing pending and no cursor. */
  lemma SendOutcome(c: Config, e: Event)
    requires Enabled(c, e) && e.Send?
    ensures
      var t, h, s := SendRun(c, e).turn, c.turn.history, SendRun(c, e).turn.session;
      && t.history == h[e.userMessageId := Message(e.userMessageId, User, e.now, Trim(e.text), Some(Done), None, map[])]
                       [e.agentMessageId := Message(e.agentMessageId, Agent, e.later, "", Some(Streaming), Some([]), map[])]
      && t.active == e.agentMessageId
      && s.Some? && StartsFrom(c.turn.session.GetOr(CreateAgentSession(e.agentId)), s.value)
      && Queue(s.value) == [] && s.value.pendingInterrupt == None && s.value.lastReceivedSequence == None
      && s.value.lastUserMessageId == Some(e.userMessageId) && s.value.lastAgentMessageId == Some(e.agentMessageId)
      && s.value.transport == e.preferred
  {
  }

  /** A retry empties the answer, or adds an empty one, leaves every other message, and starts with nothing pending and no cursor. */
  lemma RetryOutcome(c: Config, e: Event)
    requires Enabled(c, e) && e.Retry?
    ensures
      var t, before := RetryRun(c, e).turn, c.turn.session.value;
      var id, h := before.lastAgentMessageId.value, c.turn.history;
      && t.active == id && id in t.history
      && (id in h && h[id].role == Agent ==> t.history[id] == h[id].(content := "", status := Some(Streaming), blocks := Some([])))
      && (id !in h ==> t.history[id] == Message(id, Agent, e.now, "", Some(Streaming), Some([]), map[]))
      && (forall k :: k != id ==> (k in t.history <==> k in h) && (k in h ==> t.history[k] == h[k]))
      && t.session.Some? && StartsFrom(before, t.session.value)
      && Queue(t.session.value) == [] && t.session.value.lastReceivedSequence == None
      && t.session.value.lastUserMessageId == before.lastUserMessageId
      && t.session.value.lastAgentMessageId == before.lastAgentMessageId
  {
    var id, h := c.turn.session.value.lastAgentMessageId.value, c.turn.history;
    if id in h && h[id].role == Agent {
      assert h[id].extras + map[] == h[id].extras;
    }
  }

  /**
   * A resume is possible exactly from a recoverable session that names its messages, and changes nothing
   * but the stream state and the error.
   */
  lemma ResumeOutcome(c: Config, e: Event)
    requires e.Resume?
    ensures
      Enabled(c, e) <==>
        && c.stage.Ready? && c.turn.session.Some? && c.turn.session.value.streamState == Recoverable
        && c.turn.session.value.lastUserMessageId.Some? && c.turn.session.value.lastAgentMessageId.Some?
        && Canonical(c.turn.session.value.lastAgentMessageId.value)
        && c.turn.session.value.lastUserMessageId.value in c.turn.history
    ensures Enabled(c, e) ==>
      var t := ResumeRun(c).turn;
      && t.history == c.turn.history && Some(t.active) == c.turn.session.value.lastAgentMessageId
      && t.session == Some(c.turn.session.value.(streamState := InStream, lastStreamError := None))
  {
  }

  /** The session names the messages of the last request, the answer by the id that it has now. */
  predicate NamesRun(c: Config) {
    c.requests != [] && c.turn.session.Some? ==>
      && c.turn.session.value.lastAgentMessageId == Some(c.turn.active)
      && c.turn.session.value.lastUserMessageId == Some(c.requests[|c.requests| - 1].userMessageId)
  }

  /** Two sessions name the same user message, and the agent messages that the turns hold active. */
  predicate SameNames(t: Turn, u: Turn) {
    && u.session.Some? == t.session.Some?
    && (t.session.Some? ==>
          && u.session.value.lastUserMessageId == t.session.value.lastUserMessageId
          && (t.session.value.lastAgentMessageId == Some(t.active) ==> u.session.value.lastAgentMessageId == Some(u.active)))
  }

  lemma MapToNames(t: Turn, id: MessageId, target: MessageId)
    ensures SameNames(t, MapTo(t, id, target)) && SameNames(t, MarkActive(t, target))
  {
  }

  lemma ResolveNames(r: Reducers, t: Turn, c: Chunk, now: int)
    ensures SameNames(t, Resolve(r, t, c, now))
  {
    if c.messageId in t.alias {
      MapToNames(t, c.messageId, t.alias[c.messageId]);
    } else if c.messageId in t.history {
      MapToNames(t, c.messageId, c.messageId);
    } else if t.active !in t.history {
      MapToNames(t.(history := t.history[c.messageId := NewAgentMessage(c.messageId, now)]), c.messageId, c.messageId);
    } else if c.upstream {
      var f := Flush(r, t);
      MapToNames(f.(history := Renamed(f.history, t.active, c.messageId), activeIds := t.activeIds - {t.active}),
                 c.messageId, c.messageId);
    } else {
      MapToNames(t, c.messageId, t.active);
    }
  }

  lemma AppendNames(r: Reducers, t: Turn, c: Chunk, now: int)
    ensures SameNames(t, Append(r, t, c, now))
  {
    var u := Resolve(r, t, c, now);
    ResolveNames(r, t, c, now);
    var b := Buffered(u, TargetOf(t, c), c);
    assert b.session == u.session && b.active == u.active;
    if FlushesAtOnce(b, TargetOf(t, c), c) {
      assert Append(r, t, c, now) == Flush(r, b);
    } else {
      assert Append(r, t, c, now) == b.(timer := true);
    }
  }

  lemma AdvanceNames(t: Turn, sequence: Option<int>)
    ensures SameNames(t, AdvanceCursor(t, sequence))
  {
  }

  lemma EnqueueNames(r: Reducers, t: Turn, c: Chunk, now: int)
    ensures SameNames(t, Enqueue(r, t, c, now))
  {
    if !Duplicate(t, c) {
      var m := MarkSeen(t, c);
      assert m.session == t.session && m.active == t.active;
      AdvanceNames(m, c.sequence);
      AppendNames(r, AdvanceCursor(m, c.sequence), c, now);
    }
  }

  lemma NamesChain(t: Turn, u: Turn, v: Turn)
    requires SameNames(t, u) && SameNames(u, v)
    ensures SameNames(t, v)
  {
  }

  lemma NoticeNames(t: Turn, d: StreamData)
    ensures SameNames(t, Notice(t, d))
  {
    NoticeKeeps(t, d);
  }

  lemma ObservedNames(s: Session, event: RuntimeInterrupt)
    ensures
      var u := Observed(s, event);
      u.lastUserMessageId == s.lastUserMessageId && u.lastAgentMessageId == s.lastAgentMessageId
  {
  }

  lemma MetaNames(t: Turn, d: StreamData)
    ensures SameNames(t, TakeMeta(t, d))
  {
    if WritesMeta(d) {
      assert TakeMeta(t, d) == t.(session := WithMeta(t.session, d.status, d.transport));
      if t.session.Some? && d.status.Some? && d.status.value.interrupt.Some? {
        ObservedNames(t.session.value.(runtimeStatus := Some(d.status.value.state)), d.status.value.interrupt.value);
      }
    } else {
      assert TakeMeta(t, d) == t;
    }
  }

  lemma TakeNames(r: Reducers, t: Turn, d: StreamData, now: int)
    ensures SameNames(t, Take(r, t, d, now))
  {
    var t1 := Notice(t, d);
    NoticeNames(t, d);
    var t2 := TakeChunk(r, t1, d, now);
    if d.chunk.Some? {
      EnqueueNames(r, t1, d.chunk.value, now);
    }
    NamesChain(t, t1, t2);
    var t3 := TakeInterrupt(r, t2, d, now);
    if d.status.Some? && d.status.value.interrupt.Some? {
      EnqueueNames(r, Flush(r, t2), InterruptChunk(r, d.status.value.interrupt.value, t2.active), now);
    }
    NamesChain(t, t2, t3);
    MetaNames(t3, d);
    NamesChain(t, t3, TakeMeta(t3, d));
  }

  lemma InterruptNames(r: Reducers, t: Turn, shown: string)
    ensures SameNames(t, MarkRecoverable(r, t, shown))
  {
    if !t.terminalHandled {
      FlushKeeps(r, Ended(t, Interruption));
    }
  }

  lemma FailureNames(r: Reducers, t: Turn, f: Failure)
    ensures SameNames(t, FinalizeFailure(r, t, f))
  {
    if !t.terminalHandled {
      FlushKeeps(r, Ended(t, Breakdown));
    }
  }

  lemma ReportNames(r: Reducers, t: Turn, f: Failure)
    ensures SameNames(t, AppendStreamError(r, t, f))
  {
    InterruptNames(r, t, f.Shown());
    FailureNames(r, t, f);
  }

  lemma FinishNames(r: Reducers, t: Turn)
    ensures SameNames(t, FinishCompletion(r, t))
  {
    var u := FinishCompletion(r, t);
    assert u.active == t.active && u.session == IdleSession(t.session);
  }

  lemma CompletionNames(r: Reducers, t: Turn)
    ensures SameNames(t, CompleteStreaming(r, t))
  {
    if !t.terminalHandled {
      var u := Flush(r, Ended(t, Completion));
      FlushKeeps(r, Ended(t, Completion));
      FinishNames(r, u);
      assert CompleteStreaming(r, t) == FinishCompletion(r, u) || CompleteStreaming(r, t) == u.(backfilling := Some(ExistingTargets(t)));
    }
  }

  lemma DatumNames(r: Reducers, t: Turn, i: Incident, now: int)
    ensures SameNames(t, OnWsData(r, t, i, now))
  {
    match i
    case ErrorEvent(f) => ReportNames(r, t, f); InterruptNames(r, t, f.Shown());
    case StreamEnd =>
    case Payload(d) =>
      var u := Take(r, t, d, now);
      TakeNames(r, t, d, now);
      CompletionNames(r, u);
      NamesChain(t, u, CompleteStreaming(r, u));
  }

  lemma StartNames(r: Reducers, c: Config, e: Event)
    requires Enabled(c, e) && (e.Send? || e.Retry? || e.Resume?)
    ensures NamesRun(Step(r, c, e))
  {
    if e.Send? {
      LaunchNames(r, SendRun(c, e), e.wsHealthy, e.sseHealthy);
    } else if e.Retry? {
      LaunchNames(r, RetryRun(c, e), e.wsHealthy, e.sseHealthy);
    } else {
      LaunchNames(r, ResumeRun(c), e.wsHealthy, e.sseHealthy);
    }
  }

  lemma FallbackNames(r: Reducers, c: Config)
    ensures SameNames(c.turn, Fallback(r, c).turn) && Fallback(r, c).requests == c.requests
  {
    if c.turn.observed {
      InterruptNames(r, c.turn, INTERRUPTED_EARLY);
    }
  }

  lemma KeptNames(c: Config, n: Config)
    requires NamesRun(c) && SameNames(c.turn, n.turn) && n.requests == c.requests
    ensures NamesRun(n)
  {
  }

  lemma LaunchNames(r: Reducers, c: Config, wsHealthy: bool, sseHealthy: bool)
    requires NamesRun(c)
    ensures NamesRun(Launch(r, c, wsHealthy, sseHealthy))
  {
    var n := Launch(r, c, wsHealthy, sseHealthy);
    if !wsHealthy && !sseHealthy {
      FallbackNames(r, c);
      KeptNames(c, n);
    } else {
      assert SameNames(c.turn, n.turn) && n.requests == c.requests;
    }
  }

  lemma {:induction false} StepNamesRun(r: Reducers, c: Config, e: Event)
    requires Enabled(c, e) && NamesRun(c)
    ensures NamesRun(Step(r, c, e))
  {
    if e.Send? || e.Retry? || e.Resume? {
      StartNames(r, c, e);
    } else {
      if e.Datum? {
        DatumNames(r, c.turn, e.incident, e.now);
      } else if e.StreamFault? || e.StreamDone? || e.StreamDeclined? || e.WsDatumThrew? {
        StreamNames(r, c, e);
      } else {
        OtherNames(r, c, e);
      }
      KeptNames(c, Step(r, c, e));
    }
  }

  lemma StreamNames(r: Reducers, c: Config, e: Event)
    requires Enabled(c, e) && (e.StreamFault? || e.StreamDone? || e.StreamDeclined? || e.WsDatumThrew?)
    ensures SameNames(c.turn, Step(r, c, e).turn) && Step(r, c, e).requests == c.requests
  {
    match e
    case StreamFault(f) => ReportNames(r, c.turn, f);
    case StreamDone => InterruptNames(r, c.turn, if c.turn.finalStatusSeen then ACK_MISSING_AFTER_FINAL else ACK_MISSING);
    case StreamDeclined(_) => FallbackNames(r, c);
    case WsDatumThrew =>
  }

  lemma AuthNames(r: Reducers, t: Turn, message: string)
    ensures SameNames(t, AfterAuthFailure(r, t, message))
  {
    FlushKeeps(r, t);
  }

  lemma AnswerNames(t: Turn, content: string)
    ensures SameNames(t, AfterJsonSuccess(t, content))
  {
  }

  lemma OtherNames(r: Reducers, c: Config, e: Event)
    requires Enabled(c, e) && (e.TimerFires? || e.AuthFailed? || e.JsonAnswered? || e.JsonFailed? || e.BackfillArrived?)
    ensures SameNames(c.turn, Step(r, c, e).turn) && Step(r, c, e).requests == c.requests
  {
    match e
    case TimerFires => FlushKeeps(r, c.turn);
    case AuthFailed(message) => AuthNames(r, c.turn, message);
    case JsonAnswered(content) => AnswerNames(c.turn, content);
    case JsonFailed(f) => FailureNames(r, c.turn, f);
    case BackfillArrived(recovered) =>
      FinishNames(r, Backfilling(c.turn, recovered));
      assert Step(r, c, e).turn == FinishCompletion(r, Backfilling(c.turn, recovered));
  }

  function Backfilling(t: Turn, recovered: seq<Message>): Turn {
    (if recovered == [] then t else t.(history := MergedHistory(t.history, recovered))).(backfilling := None)
  }

  lemma {:induction false} RunNamesRun(r: Reducers, c: Config, events: seq<Event>)
    requires Runs(r, c, events) && NamesRun(c)
    ensures NamesRun(Run(r, c, events))
    decreases events
  {
    if events != [] {
      StepNamesRun(r, c, events[0]);
      RunNamesRun(r, Step(r, c, events[0]), events[1..]);
    }
  }

  /**
   * In every conversation a retry or a resume repeats the user message of the last request, and goes on
   * with the answer under the id that it has by then, however often it was rekeyed.
   */
  lemma NextRunContinues(
      r: Reducers, history: map<string, Message>, session: Option<Session>, events: seq<Event>, e: Event)
    requires Runs(r, Initial(history, session), events) && (e.Retry? || e.Resume?)
    requires
      var c := Run(r, Initial(history, session), events);
      Enabled(c, e) && c.requests != []
    ensures
      var c := Run(r, Initial(history, session), events);
      var n := Step(r, c, e);
      && |n.requests| == |c.requests| + 1
      && n.requests[|c.requests|].userMessageId == c.requests[|c.requests| - 1].userMessageId
      && n.requests[|c.requests|].agentMessageId == c.turn.active == n.turn.active
  {
    RunNamesRun(r, Initial(history, session), events);
  }

  // ---------------------------------------------------------------- which transport is tried

  /** The turn, on another transport. */
  predicate Switched(t: Turn, u: Turn, transport: string) {
    u == t.(session := u.session)
    && (t.session.None? ==> u.session.None?)
    && (t.session.Some? ==> u.session == Some(t.session.value.(transport := transport)))
  }

  /** A run tries the WebSocket if it is healthy, else SSE if that is, else it sends the JSON request. */
  lemma FirstTransport(r: Reducers, c: Config, wsHealthy: bool, sseHealthy: bool)
    requires !c.turn.observed
    ensures
      var n := Launch(r, c, wsHealthy, sseHealthy);
      if wsHealthy then n.stage.InWs? && n.turn == c.turn
      else if sseHealthy then n.stage.InSse? && Switched(c.turn, n.turn, "http_sse")
      else n.stage.InJson? && Switched(c.turn, n.turn, "http_json")
  {
  }

  /**
   * A refused attempt: SSE follows the WebSocket if it is healthy; else the run is interrupted if it has
   * seen an event, and else sends the JSON request.
   */
  lemma NextTransport(r: Reducers, c: Config, sseHealthy: bool)
    requires Inv(c) && Enabled(c, StreamDeclined(sseHealthy))
    ensures
      var n := Step(r, c, StreamDeclined(sseHealthy));
      if c.stage.InWs? && sseHealthy then n.stage.InSse? && Switched(c.turn, n.turn, "http_sse")
      else if c.turn.observed then
        n.stage.Ready? && Interrupts(r, c.turn, n.turn, "Streaming transport interrupted before completion.")
      else n.stage.InJson? && Switched(c.turn, n.turn, "http_json")
  {
    if !c.turn.terminalHandled {
      InterruptionOutcome(r, c.turn, INTERRUPTED_EARLY);
    }
  }
}
