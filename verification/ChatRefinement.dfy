/**
 * The conversation with the chunk buffer refines the conversation without it: applying every
 * accepted chunk on arrival, and ignoring the flush timer, gives the same messages, sessions and
 * requests in every interleaving.
 */
module ChatRefinement {
  import opened Prelude
  import opened Messages
  import opened Sessions
  import opened ChatTurn
  import opened Buffering
  import opened TurnFacts
  import opened Transport
  import opened ChatRuns

  // ---------------------------------------------------------------- the reference

  function TakeChunkAtOnce(r: Reducers, t: Turn, d: StreamData, now: int): Turn {
    if d.chunk.Some? then EnqueueAtOnce(r, t, d.chunk.value, now) else t
  }

  function TakeInterruptAtOnce(r: Reducers, t: Turn, d: StreamData, now: int): Turn {
    if d.status.Some? && d.status.value.interrupt.Some? then
      EnqueueAtOnce(r, t, InterruptChunk(r, d.status.value.interrupt.value, t.active), now)
    else t
  }

  function TakeAtOnce(r: Reducers, t: Turn, d: StreamData, now: int): Turn {
    TakeMeta(TakeInterruptAtOnce(r, TakeChunkAtOnce(r, Notice(t, d), d, now), d, now), d)
  }

  function IncomingAtOnce(r: Reducers, t: Turn, d: StreamData, now: int): Turn {
    var u := TakeAtOnce(r, t, d, now);
    if Persisted(d) then CompleteStreaming(r, u)
    else if d.status.Some? && d.status.value.isFinal then u.(finalStatusSeen := true)
    else u
  }

  function StepAtOnce(r: Reducers, c: Config, e: Event): Config
    requires e.TimerFires? || Enabled(c, e)
  {
    if e.TimerFires? then c
    else if e.Datum? && e.incident.Payload? then
      Step(r, c, e).(turn := IncomingAtOnce(r, c.turn, e.incident.data, e.now))
    else Step(r, c, e)
  }

  predicate RunsAtOnce(r: Reducers, c: Config, events: seq<Event>)
    decreases events
  {
    events != [] ==> (events[0].TimerFires? || Enabled(c, events[0])) && RunsAtOnce(r, StepAtOnce(r, c, events[0]), events[1..])
  }

  function RunAtOnce(r: Reducers, c: Config, events: seq<Event>): Config
    requires RunsAtOnce(r, c, events)
    decreases events
  {
    if events == [] then c else RunAtOnce(r, StepAtOnce(r, c, events[0]), events[1..])
  }

  // ---------------------------------------------------------------- the condition

  /** The chunk of a datum, unless dropped, does not give a new message the chunks of an old one. */
  predicate NoRevivalDatum(t: Turn, d: StreamData) {
    d.chunk.Some? ==> Duplicate(Notice(t, d), d.chunk.value) || !Revives(Notice(t, d), d.chunk.value)
  }

  predicate NoRevivalStep(c: Config, e: Event) {
    e.Datum? && e.incident.Payload? ==> NoRevivalDatum(c.turn, e.incident.data)
  }

  predicate NoRevivalRun(r: Reducers, c: Config, events: seq<Event>)
    requires Runs(r, c, events)
    decreases events
  {
    events != [] ==> NoRevivalStep(c, events[0]) && NoRevivalRun(r, Step(r, c, events[0]), events[1..])
  }

  // ---------------------------------------------------------------- one datum

  lemma SettledTwice(r: Reducers, t: Turn)
    ensures Settled(r, Settled(r, t)) == Settled(r, t)
  {
    FlushTwice(r, t);
  }

  lemma AdvanceCommutes(r: Reducers, t: Turn, sequence: Option<int>)
    ensures Settled(r, AdvanceCursor(t, sequence)) == AdvanceCursor(Settled(r, t), sequence)
  {
    if !Advances(t.highest, sequence) {
      assert AdvanceCursor(t, sequence) == t;
    }
  }

  lemma NoticeCommutes(r: Reducers, t: Turn, d: StreamData)
    ensures Settled(r, Notice(t, d)) == Notice(Settled(r, t), d)
  {
    NoticeKeeps(t, d);
    var u := if d.chunk.Some? || d.status.Some? || HasMeta(d) then t.(observed := true) else t;
    if d.status.Some? {
      AdvanceCommutes(r, u, d.status.value.sequence);
    } else {
      assert Notice(t, d) == u;
    }
  }

  lemma TakeMetaCommutes(r: Reducers, t: Turn, d: StreamData)
    ensures Settled(r, TakeMeta(t, d)) == TakeMeta(Settled(r, t), d)
  {
    if WritesMeta(d) {
      assert TakeMeta(t, d) == t.(session := WithMeta(t.session, d.status, d.transport));
    } else {
      assert TakeMeta(t, d) == t;
    }
  }

  lemma TakeChunkCommutes(r: Reducers, t: Turn, d: StreamData, now: int)
    requires d.chunk.Some? ==> Duplicate(t, d.chunk.value) || !Revives(t, d.chunk.value)
    ensures Settled(r, TakeChunk(r, t, d, now)) == TakeChunkAtOnce(r, Settled(r, t), d, now)
  {
    if d.chunk.Some? {
      EnqueueCommutes(r, t, d.chunk.value, now);
    }
  }

  lemma TakeInterruptCommutes(r: Reducers, t: Turn, d: StreamData, now: int)
    ensures Settled(r, TakeInterrupt(r, t, d, now)) == TakeInterruptAtOnce(r, Settled(r, t), d, now)
  {
    if d.status.Some? && d.status.value.interrupt.Some? {
      FlushTwice(r, t);
      EnqueueCommutes(r, Flush(r, t), InterruptChunk(r, d.status.value.interrupt.value, t.active), now);
    }
  }

  lemma TakeCommutes(r: Reducers, t: Turn, d: StreamData, now: int)
    requires NoRevivalDatum(t, d)
    ensures Settled(r, Take(r, t, d, now)) == TakeAtOnce(r, Settled(r, t), d, now)
  {
    var t1 := Notice(t, d);
    var t2 := TakeChunk(r, t1, d, now);
    NoticeCommutes(r, t, d);
    TakeChunkCommutes(r, t1, d, now);
    TakeInterruptCommutes(r, t2, d, now);
    TakeMetaCommutes(r, TakeInterrupt(r, t2, d, now), d);
  }

  lemma CompleteCommutes(r: Reducers, t: Turn)
    requires !t.terminalHandled
    ensures Settled(r, CompleteStreaming(r, t)) == CompleteStreaming(r, Settled(r, t))
  {
    var e := Ended(t, Completion);
    FlushTwice(r, e);
    assert Flush(r, e) == Flush(r, Ended(Settled(r, t), Completion));
    assert ExistingTargets(t) == ExistingTargets(Settled(r, t));
    DrainedNothing(r, CompleteStreaming(r, t).history);
  }

  lemma IncomingCommutes(r: Reducers, t: Turn, d: StreamData, now: int)
    requires NoRevivalDatum(t, d) && !t.terminalHandled
    ensures Settled(r, Incoming(r, t, d, now)) == IncomingAtOnce(r, Settled(r, t), d, now)
  {
    TakeCommutes(r, t, d, now);
    TakeKeeps(r, t, d, now);
    var u := Take(r, t, d, now);
    if Persisted(d) {
      CompleteCommutes(r, u);
    } else if d.status.Some? && d.status.value.isFinal {
      assert Settled(r, u.(finalStatusSeen := true)) == Settled(r, u).(finalStatusSeen := true);
    }
  }

  lemma FlushedChunkCommutes(r: Reducers, t: Turn, d: StreamData, now: int)
    requires d.chunk.Some? ==> Duplicate(t, d.chunk.value) || !Revives(t, d.chunk.value)
    ensures Flush(r, TakeChunk(r, Settled(r, t), d, now)) == Flush(r, TakeChunk(r, t, d, now))
  {
    TakeChunkCommutes(r, t, d, now);
    SettledTwice(r, t);
    TakeChunkCommutes(r, Settled(r, t), d, now);
  }

  lemma TouchingCommutes(r: Reducers, ids: set<MessageId>, t: Turn, d: StreamData, now: int)
    requires NoRevivalDatum(t, d)
    ensures DatumIds(r, ids, Settled(r, t), d, now) == DatumIds(r, ids, t, d, now)
  {
    var t1 := Notice(t, d);
    NoticeCommutes(r, t, d);
    FlushedChunkCommutes(r, t1, d, now);
    if d.chunk.Some? {
      SameRouting(r, t1, d.chunk.value);
    }
  }

  lemma SameRouting(r: Reducers, t: Turn, c: Chunk)
    ensures forall ids :: ChunkIds(ids, Settled(r, t), c) == ChunkIds(ids, t, c)
  {
    SameTarget(r, t, c);
    assert Settled(r, t).history.Keys == t.history.Keys;
    assert TakesOver(Settled(r, t), c) == TakesOver(t, c);
  }

  // ---------------------------------------------------------------- one event

  function SettledConfig(r: Reducers, c: Config): Config {
    c.(turn := Settled(r, c.turn))
  }

  lemma DrainedIsSettled(r: Reducers, c: Config)
    requires NothingBuffered(c.turn)
    ensures SettledConfig(r, c) == c
  {
    DrainedNothing(r, c.turn.history);
  }

  lemma EndingsCommute(r: Reducers, t: Turn, shown: string, f: Failure)
    ensures !t.terminalHandled ==> MarkRecoverable(r, Settled(r, t), shown) == MarkRecoverable(r, t, shown)
    ensures !t.terminalHandled ==> FinalizeFailure(r, Settled(r, t), f) == FinalizeFailure(r, t, f)
  {
    FlushTwice(r, Ended(t, Interruption));
    FlushTwice(r, Ended(t, Breakdown));
    assert Ended(Settled(r, t), Interruption) == Settled(r, Ended(t, Interruption));
    assert Ended(Settled(r, t), Breakdown) == Settled(r, Ended(t, Breakdown));
    FlushTwice(r, Settled(r, Ended(t, Interruption)));
    FlushTwice(r, Settled(r, Ended(t, Breakdown)));
  }

  lemma StepOfDatum(r: Reducers, c: Config, i: Incident, now: int)
    requires Enabled(c, Datum(i, now))
    ensures
      Step(r, c, Datum(i, now)) ==
        c.(turn := OnWsData(r, c.turn, i, now),
           attempt := After(c.attempt, Data(StopsAfter(c, i))),
           counted := c.counted + Sequences(c.turn, i),
           chunkQueued := c.chunkQueued || QueuesChunk(i),
           wsData := if c.stage.InWs? then c.wsData + 1 else c.wsData,
           touched := Touching(r, c.touched, c.turn, i, now))
  {
  }

  lemma PayloadRecordCommutes(r: Reducers, c: Config, d: StreamData, now: int)
    requires NoRevivalDatum(c.turn, d)
    ensures
      var t, s, i := c.turn, Settled(r, c.turn), Payload(d);
      && StopsAfter(SettledConfig(r, c), i) == StopsAfter(c, i) && Sequences(s, i) == Sequences(t, i)
      && Touching(r, c.touched, s, i, now) == Touching(r, c.touched, t, i, now)
  {
    TouchingCommutes(r, c.touched, c.turn, d, now);
    assert DatumSequences(Settled(r, c.turn), d) == DatumSequences(c.turn, d);
  }

  /** The record fields of a datum do not depend on the buffer. */
  lemma RecordCommutes(r: Reducers, c: Config, d: StreamData, now: int)
    requires Enabled(c, Datum(Payload(d), now)) && NoRevivalDatum(c.turn, d)
    ensures Enabled(SettledConfig(r, c), Datum(Payload(d), now))
    ensures
      var e := Datum(Payload(d), now);
      var m, n := Step(r, SettledConfig(r, c), e), Step(r, c, e);
      m.(turn := n.turn) == n
  {
    PayloadRecordCommutes(r, c, d, now);
    StepOfDatum(r, c, Payload(d), now);
    StepOfDatum(r, SettledConfig(r, c), Payload(d), now);
  }

  lemma PayloadCommutes(r: Reducers, c: Config, d: StreamData, now: int)
    requires Inv(c) && Enabled(c, Datum(Payload(d), now)) && NoRevivalDatum(c.turn, d)
    ensures Enabled(SettledConfig(r, c), Datum(Payload(d), now))
    ensures
      var e := Datum(Payload(d), now);
      SettledConfig(r, Step(r, c, e)) == StepAtOnce(r, SettledConfig(r, c), e)
  {
    RecordCommutes(r, c, d, now);
    IncomingCommutes(r, c.turn, d, now);
    var e := Datum(Payload(d), now);
    assert Step(r, c, e).turn == Incoming(r, c.turn, d, now);
    assert StepAtOnce(r, SettledConfig(r, c), e) ==
      Step(r, SettledConfig(r, c), e).(turn := IncomingAtOnce(r, Settled(r, c.turn), d, now));
  }

  lemma ErrorReportCommutes(r: Reducers, t: Turn, f: Failure, now: int)
    requires !t.terminalHandled
    ensures AppendStreamError(r, Settled(r, t), f) == AppendStreamError(r, t, f)
    ensures OnWsData(r, Settled(r, t), ErrorEvent(f), now) == OnWsData(r, t, ErrorEvent(f), now)
  {
    EndingsCommute(r, t, f.Shown(), f);
    ErrorEventIsReport(r, t, f, now);
    ErrorEventIsReport(r, Settled(r, t), f, now);
  }

  lemma ErrorRecordCommutes(r: Reducers, c: Config, f: Failure, now: int)
    ensures
      var t, s, i := c.turn, Settled(r, c.turn), ErrorEvent(f);
      && StopsAfter(SettledConfig(r, c), i) == StopsAfter(c, i) && Sequences(s, i) == Sequences(t, i)
      && Touching(r, c.touched, s, i, now) == Touching(r, c.touched, t, i, now)
  {
  }

  /** Every effect of this datum is the same with and without the buffer. */
  predicate SameEffects(r: Reducers, c: Config, i: Incident, now: int) {
    var t, s := c.turn, Settled(r, c.turn);
    && OnWsData(r, s, i, now) == OnWsData(r, t, i, now)
    && StopsAfter(SettledConfig(r, c), i) == StopsAfter(c, i) && Sequences(s, i) == Sequences(t, i)
    && Touching(r, c.touched, s, i, now) == Touching(r, c.touched, t, i, now)
  }

  lemma SameDatumStep(r: Reducers, c: Config, i: Incident, now: int)
    requires Enabled(c, Datum(i, now))
    ensures SameEffects(r, c, i, now) ==> Enabled(SettledConfig(r, c), Datum(i, now))
    ensures SameEffects(r, c, i, now) ==> Step(r, SettledConfig(r, c), Datum(i, now)) == Step(r, c, Datum(i, now))
  {
    if SameEffects(r, c, i, now) {
      StepOfDatum(r, c, i, now);
      StepOfDatum(r, SettledConfig(r, c), i, now);
    }
  }

  lemma ErrorCommutes(r: Reducers, c: Config, f: Failure, now: int)
    requires Enabled(c, Datum(ErrorEvent(f), now)) && !c.turn.terminalHandled
    ensures
      var e := Datum(ErrorEvent(f), now);
      Enabled(SettledConfig(r, c), e) && Step(r, SettledConfig(r, c), e) == Step(r, c, e)
  {
    ErrorReportCommutes(r, c.turn, f, now);
    ErrorRecordCommutes(r, c, f, now);
    SameDatumStep(r, c, ErrorEvent(f), now);
  }

  lemma FaultCommutes(r: Reducers, c: Config, f: Failure)
    requires Enabled(c, StreamFault(f)) && !c.turn.terminalHandled
    ensures Enabled(SettledConfig(r, c), StreamFault(f)) && Step(r, SettledConfig(r, c), StreamFault(f)) == Step(r, c, StreamFault(f))
  {
    ErrorReportCommutes(r, c.turn, f, 0);
  }

  lemma QuietEventCommutes(r: Reducers, c: Config, e: Event)
    requires Inv(c) && Enabled(c, e)
    requires !e.TimerFires? && !e.Datum? && !e.StreamFault? && !e.StreamDone?
    requires !e.WsDatumThrew? && !e.StreamDeclined? && !e.AuthFailed?
    ensures NothingBuffered(c.turn) && NothingBuffered(Step(r, c, e).turn)
  {
    StepKeepsInv(r, c, e);
  }

  lemma DatumCommutes(r: Reducers, c: Config, i: Incident, now: int)
    requires Inv(c) && Enabled(c, Datum(i, now)) && NoRevivalStep(c, Datum(i, now))
    ensures Enabled(SettledConfig(r, c), Datum(i, now))
    ensures SettledConfig(r, Step(r, c, Datum(i, now))) == StepAtOnce(r, SettledConfig(r, c), Datum(i, now))
  {
    match i
    case Payload(d) => PayloadCommutes(r, c, d, now);
    case StreamEnd => StreamEndCommutes(r, c, now);
    case ErrorEvent(f) =>
      ErrorCommutes(r, c, f, now);
      ErrorEventKeepsInv(r, c, f, now);
      DrainedIsSettled(r, Step(r, c, Datum(i, now)));
  }

  lemma StreamEndCommutes(r: Reducers, c: Config, now: int)
    requires Enabled(c, Datum(StreamEnd, now))
    ensures Enabled(SettledConfig(r, c), Datum(StreamEnd, now))
    ensures
      var e := Datum(StreamEnd, now);
      SettledConfig(r, Step(r, c, e)) == StepAtOnce(r, SettledConfig(r, c), e)
  {
    StepOfDatum(r, c, StreamEnd, now);
    StepOfDatum(r, SettledConfig(r, c), StreamEnd, now);
  }

  /** The end of a stream: nothing waits when the run has ended, and otherwise the interruption flushes. */
  lemma StreamDoneCommutes(r: Reducers, c: Config)
    requires Inv(c) && Enabled(c, StreamDone)
    ensures Enabled(SettledConfig(r, c), StreamDone)
    ensures SettledConfig(r, Step(r, c, StreamDone)) == Step(r, SettledConfig(r, c), StreamDone)
  {
    StreamDoneKeepsInv(r, c);
    DrainedIsSettled(r, Step(r, c, StreamDone));
    AfterStreamCommutes(r, c.turn);
  }

  lemma AfterStreamCommutes(r: Reducers, t: Turn)
    requires t.terminalHandled ==> NothingBuffered(t)
    ensures AfterStream(r, Settled(r, t)) == AfterStream(r, t)
  {
    if t.terminalHandled {
      DrainedNothing(r, t.history);
    } else {
      var shown := if t.finalStatusSeen then ACK_MISSING_AFTER_FINAL else ACK_MISSING;
      EndingsCommute(r, t, shown, PlainFailure(shown, None));
    }
  }

  lemma ThrewCommutes(r: Reducers, c: Config)
    requires Enabled(c, WsDatumThrew)
    ensures Enabled(SettledConfig(r, c), WsDatumThrew)
    ensures SettledConfig(r, Step(r, c, WsDatumThrew)) == Step(r, SettledConfig(r, c), WsDatumThrew)
  {
  }

  lemma FallbackCommutes(r: Reducers, c: Config)
    requires !c.turn.terminalHandled && (!c.turn.observed ==> NothingBuffered(c.turn))
    ensures SettledConfig(r, Fallback(r, c)) == Fallback(r, SettledConfig(r, c))
  {
    if c.turn.observed {
      EndingsCommute(r, c.turn, INTERRUPTED_EARLY, PlainFailure(INTERRUPTED_EARLY, None));
      DrainedNothing(r, Fallback(r, c).turn.history);
    } else {
      DrainedNothing(r, c.turn.history);
    }
  }

  lemma DeclinedCommutes(r: Reducers, c: Config, sseHealthy: bool)
    requires Inv(c) && Enabled(c, StreamDeclined(sseHealthy))
    ensures Enabled(SettledConfig(r, c), StreamDeclined(sseHealthy))
    ensures
      SettledConfig(r, Step(r, c, StreamDeclined(sseHealthy))) == Step(r, SettledConfig(r, c), StreamDeclined(sseHealthy))
  {
    if c.stage.InWs? && sseHealthy {
      assert SettledConfig(r, EnterSse(c)) == EnterSse(SettledConfig(r, c));
    } else {
      FallbackCommutes(r, c);
    }
  }

  lemma AuthCommutes(r: Reducers, c: Config, message: string)
    requires Enabled(c, AuthFailed(message))
    ensures Enabled(SettledConfig(r, c), AuthFailed(message))
    ensures SettledConfig(r, Step(r, c, AuthFailed(message))) == Step(r, SettledConfig(r, c), AuthFailed(message))
  {
    FlushTwice(r, c.turn);
    DrainedNothing(r, AfterAuthFailure(r, c.turn, message).history);
  }

  lemma QuietStepCommutes(r: Reducers, c: Config, e: Event)
    requires Inv(c) && Enabled(c, e)
    requires !e.TimerFires? && !e.Datum? && !e.StreamFault? && !e.StreamDone?
    requires !e.WsDatumThrew? && !e.StreamDeclined? && !e.AuthFailed?
    ensures SettledConfig(r, c) == c && SettledConfig(r, Step(r, c, e)) == Step(r, c, e)
  {
    QuietEventCommutes(r, c, e);
    DrainedIsSettled(r, c);
    DrainedIsSettled(r, Step(r, c, e));
  }

  lemma FaultStepCommutes(r: Reducers, c: Config, f: Failure)
    requires Inv(c) && Enabled(c, StreamFault(f))
    ensures Enabled(SettledConfig(r, c), StreamFault(f))
    ensures SettledConfig(r, Step(r, c, StreamFault(f))) == Step(r, SettledConfig(r, c), StreamFault(f))
  {
    FaultCommutes(r, c, f);
    StreamFaultKeepsInv(r, c, f);
    DrainedIsSettled(r, Step(r, c, StreamFault(f)));
  }

  /** Every event with the buffer matches the same event without it; a timer matches nothing at all. */
  lemma StepCommutes(r: Reducers, c: Config, e: Event)
    requires Inv(c) && Enabled(c, e) && NoRevivalStep(c, e)
    ensures e.TimerFires? || Enabled(SettledConfig(r, c), e)
    ensures SettledConfig(r, Step(r, c, e)) == StepAtOnce(r, SettledConfig(r, c), e)
  {
    if e.TimerFires? {
      FlushTwice(r, c.turn);
    } else if e.Datum? {
      DatumCommutes(r, c, e.incident, e.now);
    } else if e.StreamFault? {
      FaultStepCommutes(r, c, e.failure);
    } else if e.StreamDone? {
      StreamDoneCommutes(r, c);
    } else if e.WsDatumThrew? {
      ThrewCommutes(r, c);
    } else if e.StreamDeclined? {
      DeclinedCommutes(r, c, e.sseHealthy);
    } else if e.AuthFailed? {
      AuthCommutes(r, c, e.message);
    } else {
      QuietStepCommutes(r, c, e);
    }
  }

  /**
   * In every interleaving of sends, retries, resumes, data, errors, returns, backfills and timers in
   * which no chunk gives a new message the chunks of an old one, the conversation with its buffer applied is the
   * conversation that applied every chunk on arrival.
   */
  lemma {:induction false} BufferedConversationRefinesImmediate(r: Reducers, c: Config, events: seq<Event>)
    requires Inv(c) && Runs(r, c, events) && NoRevivalRun(r, c, events)
    ensures RunsAtOnce(r, SettledConfig(r, c), events)
    ensures SettledConfig(r, Run(r, c, events)) == RunAtOnce(r, SettledConfig(r, c), events)
    decreases events
  {
    if events != [] {
      StepCommutes(r, c, events[0]);
      StepKeepsInv(r, c, events[0]);
      BufferedConversationRefinesImmediate(r, Step(r, c, events[0]), events[1..]);
    }
  }

  /** So once a run has returned, the stored messages and session are those of immediate application. */
  lemma ReturnedConversationIsImmediate(r: Reducers, history: map<string, Message>, session: Option<Session>, events: seq<Event>)
    requires Restored(session)
    requires Runs(r, Initial(history, session), events) && NoRevivalRun(r, Initial(history, session), events)
    ensures
      var c := Run(r, Initial(history, session), events);
      c.stage.Ready? ==> RunsAtOnce(r, Initial(history, session), events) && c == RunAtOnce(r, Initial(history, session), events)
  {
    var start := Initial(history, session);
    InitialInv(history, session);
    DrainedIsSettled(r, start);
    BufferedConversationRefinesImmediate(r, start, events);
    RunKeepsInv(r, start, events);
    var c := Run(r, start, events);
    if c.stage.Ready? {
      DrainedIsSettled(r, c);
    }
  }
}
