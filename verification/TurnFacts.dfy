/** What the closures of a turn leave unchanged, and how they move the cursor and the active messages. */
module TurnFacts {
  import opened Prelude
  import opened Text
  import opened Messages
  import opened Sessions
  import opened ChatTurn
  import opened Buffering

  /** Nothing that decides how the run ends has changed. */
  predicate SameOutcome(t: Turn, u: Turn) {
    && u.endings == t.endings
    && u.terminalHandled == t.terminalHandled
    && u.observed == t.observed
    && u.finalStatusSeen == t.finalStatusSeen
    && u.backfilling == t.backfilling
  }

  /** The session, if any, is there before and after, in the same stream state. */
  predicate SameStream(s: Option<Session>, s': Option<Session>) {
    && s.Some? == s'.Some?
    && (s.Some? ==> s'.value.streamState == s.value.streamState)
  }

  /** The stored cursor is the one the run holds. */
  predicate CursorOk(t: Turn) {
    t.session.Some? ==> t.session.value.lastReceivedSequence == t.highest
  }

  function MaxCursor(highest: Option<int>, sequence: Option<int>): Option<int> {
    if Advances(highest, sequence) then sequence else highest
  }

  predicate TakesOver(t: Turn, c: Chunk) {
    c.messageId !in t.alias && c.messageId !in t.history && t.active in t.history && c.upstream
  }

  /** The set of active messages, after one more chunk was placed. */
  function ActiveAfter(ids: set<MessageId>, t: Turn, c: Chunk): set<MessageId> {
    (if TakesOver(t, c) then ids - {t.active} else ids) + {TargetOf(t, c)}
  }

  lemma MapToKeeps(t: Turn, id: MessageId, target: MessageId)
    ensures
      var u := MapTo(t, id, target);
      SameOutcome(t, u) && SameStream(t.session, u.session) && u.highest == t.highest && (CursorOk(t) ==> CursorOk(u))
  {
  }

  lemma ResolveKeeps(r: Reducers, t: Turn, c: Chunk, now: int)
    ensures
      var u := Resolve(r, t, c, now);
      && SameOutcome(t, u) && SameStream(t.session, u.session) && u.highest == t.highest && (CursorOk(t) ==> CursorOk(u))
      && u.activeIds == ActiveAfter(t.activeIds, t, c)
  {
    if c.messageId in t.alias {
    } else if c.messageId in t.history {
      MapToKeeps(t, c.messageId, c.messageId);
      MapToParts(t, c.messageId, c.messageId);
    } else if t.active !in t.history {
      var n := t.(history := t.history[c.messageId := NewAgentMessage(c.messageId, now)]);
      MapToKeeps(n, c.messageId, c.messageId);
      MapToParts(n, c.messageId, c.messageId);
    } else if c.upstream {
      var f := Flush(r, t);
      var n := f.(history := Renamed(f.history, t.active, c.messageId), activeIds := t.activeIds - {t.active});
      MapToKeeps(n, c.messageId, c.messageId);
      MapToParts(n, c.messageId, c.messageId);
    } else {
      MapToKeeps(t, c.messageId, t.active);
      MapToParts(t, c.messageId, t.active);
    }
  }

  lemma AppendKeeps(r: Reducers, t: Turn, c: Chunk, now: int)
    ensures
      var u := Append(r, t, c, now);
      && SameOutcome(t, u) && SameStream(t.session, u.session) && u.highest == t.highest && (CursorOk(t) ==> CursorOk(u))
      && u.activeIds == ActiveAfter(t.activeIds, t, c)
  {
    ResolveKeeps(r, t, c, now);
    var u := Resolve(r, t, c, now);
    var b := Buffered(u, TargetOf(t, c), c);
    if FlushesAtOnce(b, TargetOf(t, c), c) {
      assert Append(r, t, c, now) == Flush(r, b);
    } else {
      assert Append(r, t, c, now) == b.(timer := true);
    }
  }

  lemma AdvanceKeeps(t: Turn, sequence: Option<int>)
    ensures
      var u := AdvanceCursor(t, sequence);
      && SameOutcome(t, u) && SameStream(t.session, u.session) && (CursorOk(t) ==> CursorOk(u))
      && u.highest == MaxCursor(t.highest, sequence)
      && u.activeIds == t.activeIds && u.active == t.active && u.seen == t.seen && u.alias == t.alias
      && u.history == t.history && u.buffer == t.buffer && u.timer == t.timer
  {
    if !Advances(t.highest, sequence) {
      assert AdvanceCursor(t, sequence) == t;
    }
  }

  lemma EnqueueKeeps(r: Reducers, t: Turn, c: Chunk, now: int)
    ensures
      var u := Enqueue(r, t, c, now);
      && SameOutcome(t, u) && SameStream(t.session, u.session) && (CursorOk(t) ==> CursorOk(u))
      && u.highest == MaxCursor(t.highest, if Duplicate(t, c) then None else c.sequence)
      && u.activeIds == (if Duplicate(t, c) then t.activeIds else ActiveAfter(t.activeIds, t, c))
  {
    if !Duplicate(t, c) {
      var m := MarkSeen(t, c);
      assert SameOutcome(t, m) && m.highest == t.highest && m.session == t.session;
      assert m.activeIds == t.activeIds && m.active == t.active && m.alias == t.alias && m.history == t.history;
      AdvanceKeeps(m, c.sequence);
      var u := AdvanceCursor(m, c.sequence);
      AppendKeeps(r, u, c, now);
      assert TakesOver(u, c) == TakesOver(t, c) && TargetOf(u, c) == TargetOf(t, c);
    }
  }

  lemma FlushKeeps(r: Reducers, t: Turn)
    ensures
      var u := Flush(r, t);
      && SameOutcome(t, u) && u.session == t.session && u.highest == t.highest
      && u.activeIds == t.activeIds && u.active == t.active && u.seen == t.seen && u.alias == t.alias
      && u.history.Keys == t.history.Keys && u.buffer == map[] && !u.timer
  {
  }

  // ---------------------------------------------------------------- one datum

  function ChunkIds(ids: set<MessageId>, t: Turn, c: Chunk): set<MessageId> {
    if Duplicate(t, c) then ids else ActiveAfter(ids, t, c)
  }

  /** The messages given a chunk by one datum, added to `ids`; a message that is taken over changes its id. */
  function DatumIds(r: Reducers, ids: set<MessageId>, t: Turn, d: StreamData, now: int): set<MessageId> {
    var t1 := Notice(t, d);
    var ids1 := if d.chunk.Some? then ChunkIds(ids, t1, d.chunk.value) else ids;
    var t2 := Flush(r, TakeChunk(r, t1, d, now));
    if d.status.Some? && d.status.value.interrupt.Some? then
      ChunkIds(ids1, t2, InterruptChunk(r, d.status.value.interrupt.value, t2.active))
    else ids1
  }

  lemma DatumIdsMonotone(r: Reducers, ids: set<MessageId>, ids': set<MessageId>, t: Turn, d: StreamData, now: int)
    requires ids <= ids'
    ensures DatumIds(r, ids, t, d, now) <= DatumIds(r, ids', t, d, now)
  {
  }

  /** The sequence numbers that one datum counts: its status event's, and its chunk's unless dropped. */
  function DatumSequences(t: Turn, d: StreamData): seq<Option<int>> {
    (if d.status.Some? then [d.status.value.sequence] else []) +
    (if d.chunk.Some? && !Duplicate(t, d.chunk.value) then [d.chunk.value.sequence] else [])
  }

  function MaxCursorAll(highest: Option<int>, sequences: seq<Option<int>>): Option<int>
    decreases sequences
  {
    if sequences == [] then highest else MaxCursorAll(MaxCursor(highest, sequences[0]), sequences[1..])
  }

  lemma NoticeKeeps(t: Turn, d: StreamData)
    ensures
      var u := Notice(t, d);
      && u.endings == t.endings && u.terminalHandled == t.terminalHandled && u.finalStatusSeen == t.finalStatusSeen
      && u.backfilling == t.backfilling && SameStream(t.session, u.session) && (CursorOk(t) ==> CursorOk(u))
      && u.observed == (t.observed || d.chunk.Some? || d.status.Some? || HasMeta(d))
      && u.highest == (if d.status.Some? then MaxCursor(t.highest, d.status.value.sequence) else t.highest)
      && u.activeIds == t.activeIds && u.active == t.active && u.seen == t.seen && u.alias == t.alias
      && u.history == t.history && u.buffer == t.buffer && u.timer == t.timer
  {
    var n := if d.chunk.Some? || d.status.Some? || HasMeta(d) then t.(observed := true) else t;
    assert n.session == t.session && n.highest == t.highest;
    if d.status.Some? {
      AdvanceKeeps(n, d.status.value.sequence);
    }
  }

  lemma ObservedKeeps(s: Session, event: RuntimeInterrupt)
    ensures
      var u := Observed(s, event);
      u.streamState == s.streamState && u.lastReceivedSequence == s.lastReceivedSequence
  {
  }

  lemma MetaKeeps(session: Option<Session>, status: Option<StatusEvent>, transport: Option<string>)
    ensures
      var u := WithMeta(session, status, transport);
      && SameStream(session, u)
      && (session.Some? ==> u.value.lastReceivedSequence == session.value.lastReceivedSequence)
  {
    if session.Some? && status.Some? && status.value.interrupt.Some? {
      ObservedKeeps(session.value.(runtimeStatus := Some(status.value.state)), status.value.interrupt.value);
    }
  }

  lemma TakeMetaKeeps(t: Turn, d: StreamData)
    ensures
      var u := TakeMeta(t, d);
      && SameOutcome(t, u) && SameStream(t.session, u.session) && u.highest == t.highest
      && (CursorOk(t) ==> CursorOk(u)) && u == t.(session := u.session)
  {
    MetaKeeps(t.session, d.status, d.transport);
    if WritesMeta(d) {
      assert TakeMeta(t, d) == t.(session := WithMeta(t.session, d.status, d.transport));
    } else {
      assert TakeMeta(t, d) == t;
    }
  }

  lemma TakeChunkKeeps(r: Reducers, t: Turn, d: StreamData, now: int)
    ensures
      var u := TakeChunk(r, t, d, now);
      && SameOutcome(t, u) && SameStream(t.session, u.session) && (CursorOk(t) ==> CursorOk(u))
      && u.highest == (if d.chunk.Some? && !Duplicate(t, d.chunk.value) then MaxCursor(t.highest, d.chunk.value.sequence) else t.highest)
      && u.activeIds == (if d.chunk.Some? then ChunkIds(t.activeIds, t, d.chunk.value) else t.activeIds)
  {
    if d.chunk.Some? {
      EnqueueKeeps(r, t, d.chunk.value, now);
    }
  }

  lemma TakeInterruptKeeps(r: Reducers, t: Turn, d: StreamData, now: int)
    ensures
      var u := TakeInterrupt(r, t, d, now);
      && SameOutcome(t, u) && SameStream(t.session, u.session) && (CursorOk(t) ==> CursorOk(u))
      && u.highest == t.highest
      && u.activeIds == (
        if d.status.Some? && d.status.value.interrupt.Some? then
          ChunkIds(t.activeIds, Flush(r, t), InterruptChunk(r, d.status.value.interrupt.value, Flush(r, t).active))
        else t.activeIds)
  {
    if d.status.Some? && d.status.value.interrupt.Some? {
      FlushKeeps(r, t);
      EnqueueKeeps(r, Flush(r, t), InterruptChunk(r, d.status.value.interrupt.value, t.active), now);
    }
  }

  /** One datum moves the cursor to the greatest number it counts, and touches nothing that ends the run. */
  lemma TakeKeeps(r: Reducers, t: Turn, d: StreamData, now: int)
    ensures
      var u := Take(r, t, d, now);
      && u.endings == t.endings && u.terminalHandled == t.terminalHandled && u.finalStatusSeen == t.finalStatusSeen
      && u.backfilling == t.backfilling && SameStream(t.session, u.session) && (CursorOk(t) ==> CursorOk(u))
      && u.observed == (t.observed || d.chunk.Some? || d.status.Some? || HasMeta(d))
      && u.highest == MaxCursorAll(t.highest, DatumSequences(t, d))
      && u.activeIds == DatumIds(r, t.activeIds, t, d, now)
  {
    var t1 := Notice(t, d);
    var t2 := TakeChunk(r, t1, d, now);
    var t3 := TakeInterrupt(r, t2, d, now);
    NoticeKeeps(t, d);
    TakeChunkKeeps(r, t1, d, now);
    TakeInterruptKeeps(r, t2, d, now);
    TakeMetaKeeps(t3, d);
    TakeCursor(t, d);
    assert d.chunk.Some? ==> Duplicate(t1, d.chunk.value) == Duplicate(t, d.chunk.value);
  }

  lemma TakeCursor(t: Turn, d: StreamData)
    ensures
      var h1 := if d.status.Some? then MaxCursor(t.highest, d.status.value.sequence) else t.highest;
      var h2 := if d.chunk.Some? && !Duplicate(t, d.chunk.value) then MaxCursor(h1, d.chunk.value.sequence) else h1;
      MaxCursorAll(t.highest, DatumSequences(t, d)) == h2
  {
    var a := if d.status.Some? then [d.status.value.sequence] else [];
    var b := if d.chunk.Some? && !Duplicate(t, d.chunk.value) then [d.chunk.value.sequence] else [];
    if a == [] {
      assert a + b == b;
    } else {
      assert (a + b)[1..] == b;
    }
    if b != [] {
      assert b[1..] == [];
    }
    assert a != [] ==> MaxCursorAll(t.highest, a + b) == MaxCursorAll(MaxCursor(t.highest, a[0]), b);
  }

  // ---------------------------------------------------------------- terminal handlers

  /** The chunk buffer is empty and no flush is due. */
  predicate NothingBuffered(t: Turn) {
    t.buffer == map[] && !t.timer
  }

  predicate StreamStateIs(session: Option<Session>, state: StreamState) {
    session.Some? ==> session.value.streamState == state
  }

  /** What the terminal handlers share: the flag and the ending are set once, and the buffer is flushed. */
  predicate EndedAs(t: Turn, u: Turn, ending: Ending) {
    && u.terminalHandled && u.endings == t.endings + [ending]
    && NothingBuffered(u)
    && u.session.Some? == t.session.Some?
    && u.highest == t.highest && (CursorOk(t) ==> CursorOk(u))
    && u.observed == t.observed && u.finalStatusSeen == t.finalStatusSeen
  }

  lemma InterruptEnds(r: Reducers, t: Turn, shown: string)
    requires !t.terminalHandled
    ensures
      var u := MarkRecoverable(r, t, shown);
      && EndedAs(t, u, Interruption) && StreamStateIs(u.session, Recoverable)
      && u.backfilling == t.backfilling && u.activeIds == t.activeIds
  {
  }

  lemma FinalizeEnds(r: Reducers, t: Turn, f: Failure)
    requires !t.terminalHandled
    ensures
      var u := FinalizeFailure(r, t, f);
      && EndedAs(t, u, Breakdown) && StreamStateIs(u.session, StreamState.Failed)
      && u.backfilling == t.backfilling && u.activeIds == t.activeIds
  {
  }

  /** The early return for an unknown session does what the report would do. */
  lemma ErrorEventIsReport(r: Reducers, t: Turn, f: Failure, now: int)
    ensures OnWsData(r, t, ErrorEvent(f), now) == AppendStreamError(r, t, f)
  {
    if f.errorCode == Some("session_not_found") {
      TrimFixesTrimmed("session_not_found");
      assert f.Code() == Some("session_not_found");
    }
  }

  /** A reported error always ends the run, recoverably or not. */
  lemma ErrorEnds(r: Reducers, t: Turn, f: Failure)
    requires !t.terminalHandled
    ensures
      var u := AppendStreamError(r, t, f);
      && EndedAs(t, u, if IsRecoverable(f.Code()) then Interruption else Breakdown)
      && StreamStateIs(u.session, if IsRecoverable(f.Code()) then Recoverable else StreamState.Failed)
      && u.backfilling == t.backfilling
  {
    if IsRecoverable(f.Code()) {
      InterruptEnds(r, t, f.Shown());
    } else {
      FinalizeEnds(r, t, f);
    }
  }

  predicate AllDone(t: Turn, ids: set<MessageId>) {
    forall id :: id in ids && id in t.history ==> t.history[id].status == Some(Done)
  }

  /** Finishing a completion idles the session and closes every message of the run that still exists. */
  lemma FinishCloses(r: Reducers, t: Turn)
    ensures
      var u := FinishCompletion(r, t);
      && SameOutcome(t, u) && u.session.Some? == t.session.Some? && StreamStateIs(u.session, StreamState.Idle)
      && u.highest == t.highest && (CursorOk(t) ==> CursorOk(u))
      && u.buffer == t.buffer && u.timer == t.timer
      && AllDone(u, t.activeIds) && u.history.Keys == t.history.Keys
  {
    var u := FinishCompletion(r, t);
    forall id | id in t.activeIds && id in u.history ensures u.history[id].status == Some(Done) {
      assert id in (set i | i in t.activeIds && i in t.history);
      assert id in ExistingTargets(t);
    }
  }

  lemma CompleteEnds(r: Reducers, t: Turn)
    requires !t.terminalHandled && t.backfilling == None
    ensures
      var u := CompleteStreaming(r, t);
      && EndedAs(t, u, Completion)
      && (u.backfilling.None? ==> StreamStateIs(u.session, StreamState.Idle) && AllDone(u, t.activeIds))
      && (u.backfilling.Some? ==> SameStream(t.session, u.session) && u.activeIds == t.activeIds)
  {
    var e, targets := Flush(r, Ended(t, Completion)), ExistingTargets(t);
    if NeedsBackfill(e, targets) {
      assert CompleteStreaming(r, t) == e.(backfilling := Some(targets));
    } else {
      assert CompleteStreaming(r, t) == FinishCompletion(r, e);
      FinishCloses(r, e);
    }
  }

  lemma BackfilledCloses(r: Reducers, t: Turn, recovered: seq<Message>)
    ensures
      var u := Backfilled(r, t, recovered);
      && u.endings == t.endings && u.terminalHandled == t.terminalHandled && u.observed == t.observed
      && u.finalStatusSeen == t.finalStatusSeen && u.backfilling == None
      && u.session.Some? == t.session.Some? && StreamStateIs(u.session, StreamState.Idle)
      && u.highest == t.highest && (CursorOk(t) ==> CursorOk(u))
      && u.buffer == t.buffer && u.timer == t.timer && AllDone(u, t.activeIds)
  {
    var m := if recovered == [] then t else t.(history := MergedHistory(t.history, recovered));
    FinishCloses(r, m.(backfilling := None));
  }
}
