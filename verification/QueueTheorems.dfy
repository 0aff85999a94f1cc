/** The interrupt queue over whole conversations: every event of every run keeps it in order. */
module QueueTheorems {
  import opened Prelude
  import opened Messages
  import opened Sessions
  import opened ChatTurn
  import opened TurnFacts
  import opened ChatRuns

  datatype Pending = Pending(queue: seq<Interrupt>, head: Option<Interrupt>)

  /** The part of the session that the queue is. */
  function PendingOf(session: Option<Session>): Option<Pending> {
    if session.None? then None
    else Some(Pending(session.value.pendingInterrupts, session.value.pendingInterrupt))
  }

  /** Distinct requests, and the first one pending, if there is a session. */
  predicate PendingOk(p: Option<Pending>) {
    p.Some? ==> NoRepeat(RequestIds(p.value.queue)) && p.value.head == Head(p.value.queue)
  }

  lemma MapToQueue(t: Turn, id: MessageId, target: MessageId)
    ensures PendingOf(MapTo(t, id, target).session) == PendingOf(t.session)
    ensures PendingOf(MarkActive(t, target).session) == PendingOf(t.session)
  {
  }

  lemma ResolveQueue(r: Reducers, t: Turn, c: Chunk, now: int)
    ensures PendingOf(Resolve(r, t, c, now).session) == PendingOf(t.session)
  {
    if c.messageId in t.alias {
      MapToQueue(t, c.messageId, t.alias[c.messageId]);
    } else if c.messageId in t.history {
      MapToQueue(t, c.messageId, c.messageId);
    } else if t.active !in t.history {
      MapToQueue(t.(history := t.history[c.messageId := NewAgentMessage(c.messageId, now)]), c.messageId, c.messageId);
    } else if c.upstream {
      var f := Flush(r, t);
      MapToQueue(f.(history := Renamed(f.history, t.active, c.messageId), activeIds := t.activeIds - {t.active}),
                 c.messageId, c.messageId);
    } else {
      MapToQueue(t, c.messageId, t.active);
    }
  }

  lemma AppendQueue(r: Reducers, t: Turn, c: Chunk, now: int)
    ensures PendingOf(Append(r, t, c, now).session) == PendingOf(t.session)
  {
    ResolveQueue(r, t, c, now);
    var b := Buffered(Resolve(r, t, c, now), TargetOf(t, c), c);
    if FlushesAtOnce(b, TargetOf(t, c), c) {
      assert Append(r, t, c, now) == Flush(r, b);
    } else {
      assert Append(r, t, c, now) == b.(timer := true);
    }
  }

  lemma AdvanceQueue(t: Turn, sequence: Option<int>)
    ensures PendingOf(AdvanceCursor(t, sequence).session) == PendingOf(t.session)
  {
  }

  lemma EnqueueQueue(r: Reducers, t: Turn, c: Chunk, now: int)
    ensures PendingOf(Enqueue(r, t, c, now).session) == PendingOf(t.session)
  {
    if !Duplicate(t, c) {
      var m := MarkSeen(t, c);
      assert m.session == t.session;
      AdvanceQueue(m, c.sequence);
      AppendQueue(r, AdvanceCursor(m, c.sequence), c, now);
    }
  }

  lemma NoticeQueue(t: Turn, d: StreamData)
    ensures PendingOf(Notice(t, d).session) == PendingOf(t.session)
  {
    var u := if d.chunk.Some? || d.status.Some? || HasMeta(d) then t.(observed := true) else t;
    if d.status.Some? {
      AdvanceQueue(u, d.status.value.sequence);
    }
  }

  lemma TakeInterruptQueue(r: Reducers, t: Turn, d: StreamData, now: int)
    ensures PendingOf(TakeInterrupt(r, t, d, now).session) == PendingOf(t.session)
  {
    if d.status.Some? && d.status.value.interrupt.Some? {
      FlushKeeps(r, t);
      EnqueueQueue(r, Flush(r, t), InterruptChunk(r, d.status.value.interrupt.value, t.active), now);
    }
  }

  lemma MetaQueue(session: Option<Session>, status: Option<StatusEvent>, transport: Option<string>)
    requires PendingOk(PendingOf(session))
    ensures PendingOk(PendingOf(WithMeta(session, status, transport)))
  {
    if session.Some? && status.Some? && status.value.interrupt.Some? {
      var a := session.value.(runtimeStatus := Some(status.value.state));
      WriterKeepsQueueOk(a, Observe(status.value.interrupt.value));
      var b := Observed(a, status.value.interrupt.value);
      assert PendingOf(WithMeta(session, status, transport)) == PendingOf(Some(b));
    } else {
      assert PendingOf(WithMeta(session, status, transport)) == PendingOf(session);
    }
  }

  lemma TakeQueue(r: Reducers, t: Turn, d: StreamData, now: int)
    requires PendingOk(PendingOf(t.session))
    ensures PendingOk(PendingOf(Take(r, t, d, now).session))
  {
    var t1 := Notice(t, d);
    NoticeQueue(t, d);
    var t2 := TakeChunk(r, t1, d, now);
    if d.chunk.Some? {
      EnqueueQueue(r, t1, d.chunk.value, now);
    }
    var t3 := TakeInterrupt(r, t2, d, now);
    TakeInterruptQueue(r, t2, d, now);
    MetaQueue(t3.session, d.status, d.transport);
    assert Take(r, t, d, now).session == t3.session
        || Take(r, t, d, now).session == WithMeta(t3.session, d.status, d.transport);
  }

  // ---------------------------------------------------------------- endings

  /** The queue is left as it was, or emptied. */
  predicate KeptOrEmptied(p: Option<Pending>, p': Option<Pending>) {
    p' == p || (p.Some? && p' == Some(Pending([], None)))
  }

  lemma KeptOrEmptiedIsOk(p: Option<Pending>, p': Option<Pending>)
    requires PendingOk(p) && KeptOrEmptied(p, p')
    ensures PendingOk(p')
  {
  }

  lemma InterruptQueue(r: Reducers, t: Turn, shown: string)
    ensures PendingOf(MarkRecoverable(r, t, shown).session) == PendingOf(t.session)
  {
    if !t.terminalHandled {
      FlushKeeps(r, Ended(t, Interruption));
    }
  }

  lemma FailureQueue(r: Reducers, t: Turn, f: Failure)
    ensures KeptOrEmptied(PendingOf(t.session), PendingOf(FinalizeFailure(r, t, f).session))
  {
    if !t.terminalHandled {
      FlushKeeps(r, Ended(t, Breakdown));
    }
  }

  lemma CompletionQueue(r: Reducers, t: Turn)
    ensures KeptOrEmptied(PendingOf(t.session), PendingOf(CompleteStreaming(r, t).session))
  {
    if !t.terminalHandled {
      var u := Flush(r, Ended(t, Completion));
      FlushKeeps(r, Ended(t, Completion));
      if !NeedsBackfill(u, ExistingTargets(t)) {
        assert CompleteStreaming(r, t) == FinishCompletion(r, u);
      }
    }
  }

  lemma ErrorQueue(r: Reducers, t: Turn, f: Failure)
    ensures KeptOrEmptied(PendingOf(t.session), PendingOf(AppendStreamError(r, t, f).session))
  {
    InterruptQueue(r, t, f.Shown());
    FailureQueue(r, t, f);
  }

  lemma PayloadQueue(r: Reducers, t: Turn, d: StreamData, now: int)
    requires PendingOk(PendingOf(t.session))
    ensures PendingOk(PendingOf(Incoming(r, t, d, now).session))
  {
    var u := Take(r, t, d, now);
    TakeQueue(r, t, d, now);
    if Persisted(d) {
      CompletionQueue(r, u);
      KeptOrEmptiedIsOk(PendingOf(u.session), PendingOf(CompleteStreaming(r, u).session));
    } else {
      assert Incoming(r, t, d, now).session == u.session;
    }
  }

  lemma DatumQueue(r: Reducers, t: Turn, i: Incident, now: int)
    requires PendingOk(PendingOf(t.session))
    ensures PendingOk(PendingOf(OnWsData(r, t, i, now).session))
  {
    match i
    case ErrorEvent(f) =>
      InterruptQueue(r, t, f.Shown());
      ErrorQueue(r, t, f);
      KeptOrEmptiedIsOk(PendingOf(t.session), PendingOf(OnWsData(r, t, i, now).session));
    case StreamEnd =>
    case Payload(d) => PayloadQueue(r, t, d, now);
  }

  // ---------------------------------------------------------------- whole conversations

  lemma StartQueues(c: Config, e: Event)
    requires Enabled(c, e) && PendingOk(PendingOf(c.turn.session))
    ensures e.Send? ==> PendingOk(PendingOf(SendRun(c, e).turn.session))
    ensures e.Retry? ==> PendingOk(PendingOf(RetryRun(c, e).turn.session))
    ensures e.Resume? ==> PendingOk(PendingOf(ResumeRun(c).turn.session))
  {
  }

  lemma FallbackQueue(r: Reducers, c: Config)
    ensures PendingOf(Fallback(r, c).turn.session) == PendingOf(c.turn.session)
  {
    InterruptQueue(r, c.turn, INTERRUPTED_EARLY);
  }

  lemma LaunchQueue(r: Reducers, c: Config, wsHealthy: bool, sseHealthy: bool)
    ensures PendingOf(Launch(r, c, wsHealthy, sseHealthy).turn.session) == PendingOf(c.turn.session)
  {
    FallbackQueue(r, c);
  }

  lemma NewRunQueue(r: Reducers, c: Config, e: Event)
    requires Enabled(c, e) && PendingOk(PendingOf(c.turn.session)) && (e.Send? || e.Retry? || e.Resume?)
    ensures PendingOk(PendingOf(Step(r, c, e).turn.session))
  {
    StartQueues(c, e);
    if e.Send? {
      LaunchQueue(r, SendRun(c, e), e.wsHealthy, e.sseHealthy);
    } else if e.Retry? {
      LaunchQueue(r, RetryRun(c, e), e.wsHealthy, e.sseHealthy);
    } else {
      LaunchQueue(r, ResumeRun(c), e.wsHealthy, e.sseHealthy);
    }
  }

  lemma AuthQueue(r: Reducers, t: Turn, message: string)
    ensures KeptOrEmptied(PendingOf(t.session), PendingOf(AfterAuthFailure(r, t, message).session))
  {
    FlushKeeps(r, t);
  }

  /** The answers that end a run without a stream. */
  lemma AnswerQueue(r: Reducers, c: Config, e: Event)
    requires Enabled(c, e) && (e.AuthFailed? || e.JsonAnswered? || e.JsonFailed? || e.BackfillArrived?)
    ensures KeptOrEmptied(PendingOf(c.turn.session), PendingOf(Step(r, c, e).turn.session))
  {
    if e.AuthFailed? {
      AuthQueue(r, c.turn, e.message);
    } else if e.JsonFailed? {
      FailureQueue(r, c.turn, e.failure);
    }
  }

  /** The events of a stream that bring no datum. */
  lemma StreamEventQueue(r: Reducers, c: Config, e: Event)
    requires Enabled(c, e) && (e.WsDatumThrew? || e.StreamFault? || e.TimerFires? || e.StreamDone? || e.StreamDeclined?)
    ensures KeptOrEmptied(PendingOf(c.turn.session), PendingOf(Step(r, c, e).turn.session))
  {
    match e
    case WsDatumThrew =>
    case StreamFault(f) => ErrorQueue(r, c.turn, f);
    case TimerFires => FlushKeeps(r, c.turn);
    case StreamDone => InterruptQueue(r, c.turn, if c.turn.finalStatusSeen then ACK_MISSING_AFTER_FINAL else ACK_MISSING);
    case StreamDeclined(_) => FallbackQueue(r, c);
  }

  lemma StepKeepsQueue(r: Reducers, c: Config, e: Event)
    requires Enabled(c, e) && PendingOk(PendingOf(c.turn.session))
    ensures PendingOk(PendingOf(Step(r, c, e).turn.session))
  {
    if e.Send? || e.Retry? || e.Resume? {
      NewRunQueue(r, c, e);
    } else if e.Datum? {
      DatumQueue(r, c.turn, e.incident, e.now);
    } else {
      if e.WsDatumThrew? || e.StreamFault? || e.TimerFires? || e.StreamDone? || e.StreamDeclined? {
        StreamEventQueue(r, c, e);
      } else {
        AnswerQueue(r, c, e);
      }
      KeptOrEmptiedIsOk(PendingOf(c.turn.session), PendingOf(Step(r, c, e).turn.session));
    }
  }

  /** In every interleaving of every conversation the pending requests are distinct and the pending one is the first. */
  lemma {:induction false} QueueOkInEveryRun(r: Reducers, c: Config, events: seq<Event>)
    requires Runs(r, c, events) && PendingOk(PendingOf(c.turn.session))
    ensures PendingOk(PendingOf(Run(r, c, events).turn.session))
    decreases events
  {
    if events != [] {
      StepKeepsQueue(r, c, events[0]);
      QueueOkInEveryRun(r, Step(r, c, events[0]), events[1..]);
    }
  }
}
