/** What one datum does at once: which chunks show immediately, and what is written to the session (frontend/store/chatRuntime.ts). */
module ChatArrivals {
  import opened Prelude
  import opened Text
  import opened Messages
  import opened Sessions
  import opened ChatTurn
  import opened Buffering
  import opened TurnFacts
  import opened ChatRuns
  import ChatStarts

  // ---------------------------------------------------------------- shown at once, or by the timer

  /**
   * An accepted chunk is shown at once, with everything that waits, exactly if it is not text and goes
   * to an agent message without blocks for which nothing waits; otherwise the timer is set.
   */
  lemma ShownAtOnceExactly(r: Reducers, t: Turn, c: Chunk, now: int)
    requires !Duplicate(t, c)
    ensures
      var before, after, target := Resolve(r, t, c, now), Enqueue(r, t, c, now), TargetOf(t, c);
      var atOnce :=
        && c.blockType != TextBlock && target in before.history && before.history[target].role == Agent
        && (before.history[target].blocks == None || before.history[target].blocks == Some([]))
        && WaitingFor(before, target) == [];
      if atOnce then NothingBuffered(after)
      else
        && after.timer && target in after.buffer && after.buffer[target] == WaitingFor(before, target) + [c]
        && after.history == before.history
  {
    CountedResolves(r, t, c, now);
    AtOnceExactly(r, Counted(t, c), c, now);
  }

  lemma AtOnceExactly(r: Reducers, t: Turn, c: Chunk, now: int)
    ensures
      var before, after, target := Resolve(r, t, c, now), Append(r, t, c, now), TargetOf(t, c);
      var atOnce :=
        && c.blockType != TextBlock && target in before.history && before.history[target].role == Agent
        && (before.history[target].blocks == None || before.history[target].blocks == Some([]))
        && WaitingFor(before, target) == [];
      if atOnce then NothingBuffered(after)
      else
        && after.timer && target in after.buffer && after.buffer[target] == WaitingFor(before, target) + [c]
        && after.history == before.history
  {
    var target := TargetOf(t, c);
    var b := Buffered(Resolve(r, t, c, now), target, c);
    if FlushesAtOnce(b, target, c) {
      assert Append(r, t, c, now) == Flush(r, b);
    } else {
      assert Append(r, t, c, now) == b.(timer := true);
    }
  }

  /** Whatever waits in the buffer, a timer is set that will show it. */
  predicate Armed(t: Turn) {
    t.buffer != map[] ==> t.timer
  }

  lemma EnqueueArmed(r: Reducers, t: Turn, c: Chunk, now: int)
    requires Armed(t)
    ensures Armed(Enqueue(r, t, c, now))
  {
    if !Duplicate(t, c) {
      AtOnceExactly(r, Counted(t, c), c, now);
    }
  }

  lemma TakeArmed(r: Reducers, t: Turn, d: StreamData, now: int)
    requires Armed(t)
    ensures Armed(Take(r, t, d, now))
  {
    NoticeKeeps(t, d);
    var t1 := Notice(t, d);
    if d.chunk.Some? {
      EnqueueArmed(r, t1, d.chunk.value, now);
    }
    var t2 := TakeChunk(r, t1, d, now);
    if d.status.Some? && d.status.value.interrupt.Some? {
      EnqueueArmed(r, Flush(r, t2), InterruptChunk(r, d.status.value.interrupt.value, t2.active), now);
    }
  }

  lemma StepArmed(r: Reducers, c: Config, e: Event)
    requires Inv(c) && Enabled(c, e) && Armed(c.turn)
    ensures Armed(Step(r, c, e).turn)
  {
    StepKeepsInv(r, c, e);
    var n := Step(r, c, e);
    if n.turn.terminalHandled {
      EndedIsEmpty(n);
    } else if e.Datum? {
      TakeArmed(r, c.turn, if e.incident.Payload? then e.incident.data else StreamData(None, None, false, None), e.now);
    }
  }

  lemma EndedIsEmpty(c: Config)
    requires Inv(c) && c.turn.terminalHandled
    ensures NothingBuffered(c.turn)
  {
  }

  /** In every interleaving a chunk that waits is shown when the timer fires, which is set. */
  lemma {:induction false} WaitingIsArmed(r: Reducers, c: Config, events: seq<Event>)
    requires Inv(c) && Runs(r, c, events) && Armed(c.turn)
    ensures
      var n := Run(r, c, events);
      && Armed(n.turn)
      && (n.turn.buffer != map[] ==> Enabled(n, TimerFires) && NothingBuffered(Step(r, n, TimerFires).turn))
    decreases events
  {
    if events != [] {
      StepKeepsInv(r, c, events[0]);
      StepArmed(r, c, events[0]);
      WaitingIsArmed(r, Step(r, c, events[0]), events[1..]);
    }
  }

  // ---------------------------------------------------------------- interrupts in the stream

  /** All that came before an interrupt is shown before its block: only that block can still wait. */
  lemma InterruptComesLast(r: Reducers, t: Turn, d: StreamData, now: int, id: MessageId)
    requires d.status.Some? && d.status.value.interrupt.Some?
    ensures
      var u := Take(r, t, d, now);
      WaitingFor(u, id) != [] ==>
        |WaitingFor(u, id)| == 1 && WaitingFor(u, id)[0].blockType == InterruptEvent
        && WaitingFor(u, id)[0].delta == r.describe(d.status.value.interrupt.value)
  {
    var t2 := TakeChunk(r, Notice(t, d), d, now);
    var f, c := Flush(r, t2), InterruptChunk(r, d.status.value.interrupt.value, t2.active);
    if !Duplicate(f, c) {
      CountedKeepsPlaces(f, c);
      ResolveParts(r, Counted(f, c), c, now);
      AtOnceExactly(r, Counted(f, c), c, now);
      OnlyTargetWaits(r, Counted(f, c), c, now, id);
    }
  }

  lemma OnlyTargetWaits(r: Reducers, t: Turn, c: Chunk, now: int, id: MessageId)
    requires t.buffer == map[]
    ensures WaitingFor(Append(r, t, c, now), id) == [] || WaitingFor(Append(r, t, c, now), id) == [c]
  {
    ResolveParts(r, t, c, now);
    var b := Buffered(Resolve(r, t, c, now), TargetOf(t, c), c);
    assert WaitingFor(b, id) == if id == TargetOf(t, c) then [c] else [];
    assert Append(r, t, c, now) == Flush(r, b) || Append(r, t, c, now) == b.(timer := true);
  }

  /**
   * Two interrupt blocks have the same event id, so that the later one is dropped, exactly if they report
   * the same phase of the same request.
   */
  lemma InterruptIds(r: Reducers, i: RuntimeInterrupt, j: RuntimeInterrupt, a: MessageId, b: MessageId)
    ensures
      InterruptChunk(r, i, a).eventId == InterruptChunk(r, j, b).eventId
      <==> i.Asked? == j.Asked? && RequestId(i) == RequestId(j)
    ensures !InterruptChunk(r, i, a).weak && InterruptChunk(r, i, a).messageId == a
  {
    var one, two := InterruptChunk(r, i, a).eventId, InterruptChunk(r, j, b).eventId;
    IdParts(RequestId(i), Phase(i));
    IdParts(RequestId(j), Phase(j));
    assert i.Asked? ==> Phase(i)[|Phase(i)| - 3] == 'k';
    assert j.Asked? ==> Phase(j)[|Phase(j)| - 3] == 'k';
    assert i.Resolved? ==> Phase(i)[|Phase(i)| - 3] == 'v';
    assert j.Resolved? ==> Phase(j)[|Phase(j)| - 3] == 'v';
  }

  lemma IdParts(requestId: string, phase: string)
    requires |phase| >= 3
    ensures
      var id := "interrupt:" + requestId + ":" + phase;
      && |id| == 11 + |requestId| + |phase| && id[10..10 + |requestId|] == requestId
      && id[|id| - 3] == phase[|phase| - 3]
  {
  }

  // ---------------------------------------------------------------- the session

  /** The session but for the two fields that every chunk may move. */
  function Bare(session: Option<Session>): Option<Session> {
    if session.None? then None
    else Some(session.value.(lastAgentMessageId := None, lastReceivedSequence := None))
  }

  lemma MapToBare(t: Turn, id: MessageId, target: MessageId)
    ensures Bare(MapTo(t, id, target).session) == Bare(t.session) == Bare(MarkActive(t, target).session)
  {
  }

  lemma ResolveBare(r: Reducers, t: Turn, c: Chunk, now: int)
    ensures Bare(Resolve(r, t, c, now).session) == Bare(t.session)
  {
    if c.messageId in t.alias {
      MapToBare(t, c.messageId, t.alias[c.messageId]);
    } else if c.messageId in t.history {
      MapToBare(t, c.messageId, c.messageId);
    } else if t.active !in t.history {
      MapToBare(t.(history := t.history[c.messageId := NewAgentMessage(c.messageId, now)]), c.messageId, c.messageId);
    } else if c.upstream {
      var f := Flush(r, t);
      MapToBare(f.(history := Renamed(f.history, t.active, c.messageId), activeIds := t.activeIds - {t.active}),
                c.messageId, c.messageId);
    } else {
      MapToBare(t, c.messageId, t.active);
    }
  }

  lemma AppendBare(r: Reducers, t: Turn, c: Chunk, now: int)
    ensures Bare(Append(r, t, c, now).session) == Bare(t.session)
  {
    ResolveBare(r, t, c, now);
    var b := Buffered(Resolve(r, t, c, now), TargetOf(t, c), c);
    if FlushesAtOnce(b, TargetOf(t, c), c) {
      assert Append(r, t, c, now) == Flush(r, b);
    } else {
      assert Append(r, t, c, now) == b.(timer := true);
    }
  }

  lemma AdvanceBare(t: Turn, sequence: Option<int>)
    ensures Bare(AdvanceCursor(t, sequence).session) == Bare(t.session)
  {
  }

  lemma EnqueueBare(r: Reducers, t: Turn, c: Chunk, now: int)
    ensures Bare(Enqueue(r, t, c, now).session) == Bare(t.session)
  {
    if !Duplicate(t, c) {
      var m := MarkSeen(t, c);
      assert m.session == t.session;
      AdvanceBare(m, c.sequence);
      AppendBare(r, AdvanceCursor(m, c.sequence), c, now);
    }
  }

  lemma NoticeBare(t: Turn, d: StreamData)
    ensures Bare(Notice(t, d).session) == Bare(t.session)
  {
    var u := if d.chunk.Some? || d.status.Some? || HasMeta(d) then t.(observed := true) else t;
    if d.status.Some? {
      AdvanceBare(u, d.status.value.sequence);
    }
  }

  lemma InterruptBare(r: Reducers, t: Turn, d: StreamData, now: int)
    ensures Bare(TakeInterrupt(r, t, d, now).session) == Bare(t.session)
  {
    if d.status.Some? && d.status.value.interrupt.Some? {
      FlushKeeps(r, t);
      EnqueueBare(r, Flush(r, t), InterruptChunk(r, d.status.value.interrupt.value, t.active), now);
    }
  }

  lemma ObservedBare(a: Session, b: Session, event: RuntimeInterrupt)
    requires Bare(Some(a)) == Bare(Some(b))
    ensures Bare(Some(Observed(a, event))) == Bare(Some(Observed(b, event)))
  {
    assert Queue(a) == Queue(b);
  }

  /** The fields that a datum writes, apart from the two that chunks move. */
  function Informed(s: Session, d: StreamData): Session {
    var status := if d.status.Some? then s.(runtimeStatus := Some(d.status.value.state)) else s;
    var seen := if d.status.Some? && d.status.value.interrupt.Some? then Observed(status, d.status.value.interrupt.value) else status;
    if d.transport.Some? && (d.transport.value != "" || d.hasMeta || d.status.Some?) then seen.(transport := d.transport.value)
    else seen
  }

  lemma MetaInforms(t: Turn, d: StreamData)
    requires t.session.Some?
    ensures TakeMeta(t, d).session == Some(Informed(t.session.value, d))
  {
    if WritesMeta(d) {
      assert TakeMeta(t, d).session == WithMeta(t.session, d.status, d.transport);
    } else {
      assert TakeMeta(t, d) == t;
    }
  }

  lemma InformedBare(a: Session, b: Session, d: StreamData)
    requires Bare(Some(a)) == Bare(Some(b))
    ensures Bare(Some(Informed(a, d))) == Bare(Some(Informed(b, d)))
  {
    if d.status.Some? {
      var one, two := a.(runtimeStatus := Some(d.status.value.state)), b.(runtimeStatus := Some(d.status.value.state));
      assert Bare(Some(one)) == Bare(Some(two));
      if d.status.value.interrupt.Some? {
        ObservedBare(one, two, d.status.value.interrupt.value);
      }
    }
  }

  /**
   * The session after a datum: status, transport and interrupt queue as the datum says, the active
   * message and the cursor as the turn holds them, and nothing else changed.
   */
  lemma DatumWritesSession(r: Reducers, t: Turn, d: StreamData, now: int)
    requires t.session.Some? && CursorOk(t) && t.session.value.lastAgentMessageId == Some(t.active)
    ensures
      var u := Take(r, t, d, now);
      u.session ==
        Some(Informed(t.session.value, d).(lastAgentMessageId := Some(u.active), lastReceivedSequence := u.highest))
  {
    var t1 := Notice(t, d);
    var t2 := TakeChunk(r, t1, d, now);
    var t3 := TakeInterrupt(r, t2, d, now);
    NoticeBare(t, d);
    if d.chunk.Some? {
      EnqueueBare(r, t1, d.chunk.value, now);
    }
    InterruptBare(r, t2, d, now);
    MetaInforms(t3, d);
    InformedBare(t3.session.value, t.session.value, d);
    ChatStarts.TakeNames(r, t, d, now);
    TakeKeeps(r, t, d, now);
  }
}
