/**
 * The ledger of accepted chunks over whole conversations: in every interleaving the messages hold
 * exactly the chunks that landed in them, and the chunks that were counted are exactly the recorded ones.
 */
module ChatAccounts {
  import opened Prelude
  import opened Text
  import opened Messages
  import opened MessageMerge
  import opened Sessions
  import opened ChatTurn
  import opened Buffering
  import opened TurnFacts
  import opened ChatRuns
  import opened ChatRefinement
  import opened ChatLedger

  /**
   * The ledger since the last send or retry, the sequence numbers of the status events, and what a
   * finished completion did: the messages it finalised, and the ids that a recovered page brought.
   */
  datatype Book = Book(ledger: Ledger, statuses: seq<Option<int>>, finalised: set<MessageId>, recovered: set<string>)

  function NewBook(history: map<string, Message>): Book {
    Book(Ledger(map id | id in history :: history[id].blocks, []), [], {}, {})
  }

  // ---------------------------------------------------------------- the book of a conversation

  function DatumLedger(r: Reducers, t: Turn, l: Ledger, d: StreamData, now: int): Ledger {
    var t1 := Notice(t, d);
    var l1 := if d.chunk.Some? then Recorded(r, t1, l, d.chunk.value, now) else l;
    var t2 := TakeChunk(r, t1, d, now);
    if d.status.Some? && d.status.value.interrupt.Some? then
      Recorded(r, Flush(r, t2), Flushed(l1), InterruptChunk(r, d.status.value.interrupt.value, t2.active), now)
    else l1
  }

  function DatumStatuses(d: StreamData): seq<Option<int>> {
    if d.status.Some? then [d.status.value.sequence] else []
  }

  function PayloadBook(r: Reducers, t: Turn, b: Book, d: StreamData, now: int): Book {
    var l, statuses := DatumLedger(r, t, b.ledger, d, now), b.statuses + DatumStatuses(d);
    if !Persisted(d) then b.(ledger := l, statuses := statuses)
    else
      var u := Take(r, t, d, now);
      Book(Flushed(l), statuses, if CompleteStreaming(r, u).backfilling.None? then ExistingTargets(u) else {}, {})
  }

  function Recovering(t: Turn, recovered: seq<Message>): Turn {
    if recovered == [] then t else t.(history := MergedHistory(t.history, recovered))
  }

  function BookStep(r: Reducers, c: Config, b: Book, e: Event): Book
    requires Enabled(c, e)
  {
    match e
    case Send(_, _, _, _, _, _, _, _, _) => NewBook(SendRun(c, e).turn.history)
    case Retry(_, _, _, _) => NewBook(RetryRun(c, e).turn.history)
    case Resume(_, _) => b
    case Datum(Payload(d), now) => PayloadBook(r, c.turn, b, d, now)
    case Datum(StreamEnd, _) => b
    case WsDatumThrew => b
    case StreamDeclined(sseHealthy) =>
      if c.stage.InWs? && sseHealthy then b else b.(ledger := Flushed(b.ledger))
    case BackfillArrived(recovered) =>
      b.(finalised := ExistingTargets(Recovering(c.turn, recovered)), recovered := IncomingIds(recovered))
    case _ => b.(ledger := Flushed(b.ledger))
  }

  function BookAfter(r: Reducers, c: Config, b: Book, events: seq<Event>): Book
    requires Runs(r, c, events)
    decreases events
  {
    if events == [] then b else BookAfter(r, Step(r, c, events[0]), BookStep(r, c, b, events[0]), events[1..])
  }

  // ---------------------------------------------------------------- what the book says

  /** A completion has not finished: it is the one ending that changes blocks. */
  predicate Open(t: Turn) {
    LastEnding(t) != Some(Completion) || t.backfilling.Some?
  }

  function Fold(r: Reducers, l: Ledger, id: MessageId): Option<seq<Block>>
    requires id in l.base
  {
    FoldBlocks(r, l.base[id], ChunksOf(l.entries, id, Landed))
  }

  /**
   * After a finished completion: the folded blocks, finalised if the run closed the message; and no
   * chunk landed in a message that is gone.
   */
  predicate ConcludedAt(r: Reducers, history: map<string, Message>, b: Book, id: MessageId) {
    && (id in history && id !in b.recovered ==>
          && id in b.ledger.base
          && history[id].blocks ==
               if id in b.finalised then Some(r.finalize(Fold(r, b.ledger, id)).GetOr([])) else Fold(r, b.ledger, id))
    && (id !in history ==> ChunksOf(b.ledger.entries, id, Landed) == [])
  }

  ghost predicate Concluded(r: Reducers, t: Turn, b: Book) {
    && (forall id: MessageId :: ConcludedAt(r, t.history, b, id))
    && FatesOk(b.ledger) && NoneWaiting(b.ledger)
    && NothingBuffered(t) && StreamStateIs(t.session, StreamState.Idle)
  }

  ghost predicate BookOk(r: Reducers, t: Turn, b: Book) {
    if Open(t) then Accounted(r, t.history, t.buffer, b.ledger) else Concluded(r, t, b)
  }

  // ---------------------------------------------------------------- one datum

  lemma TakeAccounts(r: Reducers, t: Turn, l: Ledger, d: StreamData, now: int)
    requires Accounted(r, t.history, t.buffer, l)
    ensures var u := Take(r, t, d, now); Accounted(r, u.history, u.buffer, DatumLedger(r, t, l, d, now))
  {
    var t1 := Notice(t, d);
    NoticeKeeps(t, d);
    var l1 := if d.chunk.Some? then Recorded(r, t1, l, d.chunk.value, now) else l;
    if d.chunk.Some? {
      EnqueueAccounts(r, t1, l, d.chunk.value, now);
    }
    var t2 := TakeChunk(r, t1, d, now);
    assert Accounted(r, t2.history, t2.buffer, l1);
    InterruptAccounts(r, t2, l1, d, now);
    TakeMetaKeeps(TakeInterrupt(r, t2, d, now), d);
  }

  lemma InterruptAccounts(r: Reducers, t: Turn, l: Ledger, d: StreamData, now: int)
    requires Accounted(r, t.history, t.buffer, l)
    ensures
      var u := TakeInterrupt(r, t, d, now);
      Accounted(r, u.history, u.buffer,
                if d.status.Some? && d.status.value.interrupt.Some? then
                  Recorded(r, Flush(r, t), Flushed(l), InterruptChunk(r, d.status.value.interrupt.value, t.active), now)
                else l)
  {
    if d.status.Some? && d.status.value.interrupt.Some? {
      FlushAccountsAll(r, t, l);
      EnqueueAccounts(r, Flush(r, t), Flushed(l), InterruptChunk(r, d.status.value.interrupt.value, t.active), now);
    }
  }

  lemma ClosedConcludes(r: Reducers, history: map<string, Message>, targets: set<MessageId>, b: Book, id: MessageId)
    requires AccountedAt(r, history, map[], b.ledger, id) || (id in b.recovered && id in history)
    requires b.finalised == targets
    ensures ConcludedAt(r, Closed(r, history, targets), b, id)
  {
    DrainedNothing(r, history);
  }

  lemma FinishBook(r: Reducers, e: Turn, b: Book)
    requires Accounted(r, e.history, map[], b.ledger) && NothingBuffered(e)
    requires LastEnding(e) == Some(Completion) && e.backfilling.None? && b.finalised == ExistingTargets(e)
    ensures BookOk(r, FinishCompletion(r, e), b)
  {
    var n := FinishCompletion(r, e);
    NothingWaits(r, e.history, b.ledger);
    FinishCloses(r, e);
    assert n.history == Closed(r, e.history, ExistingTargets(e));
    forall id: MessageId ensures ConcludedAt(r, n.history, b, id) {
      assert AccountedAt(r, e.history, map[], b.ledger, id);
      ClosedConcludes(r, e.history, ExistingTargets(e), b, id);
    }
  }

  lemma CompletionBook(r: Reducers, u: Turn, l: Ledger, b: Book)
    requires !u.terminalHandled && u.endings == [] && u.backfilling.None? && Accounted(r, u.history, u.buffer, l)
    requires b.ledger == Flushed(l) && b.recovered == {}
    requires b.finalised == (if CompleteStreaming(r, u).backfilling.None? then ExistingTargets(u) else {})
    ensures BookOk(r, CompleteStreaming(r, u), b)
  {
    var e, n := Flush(r, Ended(u, Completion)), CompleteStreaming(r, u);
    FlushAccountsAll(r, Ended(u, Completion), l);
    assert ExistingTargets(e) == ExistingTargets(u);
    if NeedsBackfill(e, ExistingTargets(u)) {
      assert n == e.(backfilling := Some(ExistingTargets(u)));
    } else {
      assert n == FinishCompletion(r, e);
      FinishCloses(r, e);
      FinishBook(r, e, b);
    }
  }

  lemma PayloadBookOk(r: Reducers, t: Turn, b: Book, d: StreamData, now: int)
    requires !t.terminalHandled && t.endings == [] && t.backfilling.None? && BookOk(r, t, b)
    ensures BookOk(r, Incoming(r, t, d, now), PayloadBook(r, t, b, d, now))
  {
    var u, n := Take(r, t, d, now), PayloadBook(r, t, b, d, now);
    TakeAccounts(r, t, b.ledger, d, now);
    TakeKeeps(r, t, d, now);
    if Persisted(d) {
      CompletionBook(r, u, DatumLedger(r, t, b.ledger, d, now), n);
    } else {
      assert n.ledger == DatumLedger(r, t, b.ledger, d, now);
      assert Incoming(r, t, d, now) == u || Incoming(r, t, d, now) == u.(finalStatusSeen := true);
    }
  }

  // ---------------------------------------------------------------- endings and returns

  /** An interruption or a failure writes no blocks: what is in the history is what the chunks made of it. */
  lemma InterruptionBook(r: Reducers, t: Turn, b: Book, shown: string)
    requires !t.terminalHandled && BookOk(r, t, b) && Open(t)
    ensures BookOk(r, MarkRecoverable(r, t, shown), b.(ledger := Flushed(b.ledger)))
  {
    var u, n := Flush(r, Ended(t, Interruption)), MarkRecoverable(r, t, shown);
    FlushAccountsAll(r, Ended(t, Interruption), b.ledger);
    SameBlocksAccount(r, u.history, n.history, Flushed(b.ledger));
  }

  lemma FailureBook(r: Reducers, t: Turn, b: Book, f: Failure)
    requires !t.terminalHandled && BookOk(r, t, b) && Open(t)
    ensures BookOk(r, FinalizeFailure(r, t, f), b.(ledger := Flushed(b.ledger)))
  {
    var u, n := Flush(r, Ended(t, Breakdown)), FinalizeFailure(r, t, f);
    FlushAccountsAll(r, Ended(t, Breakdown), b.ledger);
    SameBlocksAccount(r, u.history, n.history, Flushed(b.ledger));
  }

  lemma ErrorBook(r: Reducers, t: Turn, b: Book, f: Failure)
    requires !t.terminalHandled && BookOk(r, t, b) && Open(t)
    ensures BookOk(r, AppendStreamError(r, t, f), b.(ledger := Flushed(b.ledger)))
  {
    if IsRecoverable(f.Code()) {
      InterruptionBook(r, t, b, f.Shown());
    } else {
      FailureBook(r, t, b, f);
    }
  }

  lemma AuthBook(r: Reducers, t: Turn, b: Book, message: string)
    requires BookOk(r, t, b) && Open(t)
    ensures BookOk(r, AfterAuthFailure(r, t, message), b.(ledger := Flushed(b.ledger)))
  {
    var u, n := Flush(r, t), AfterAuthFailure(r, t, message);
    FlushAccountsAll(r, t, b.ledger);
    SameBlocksAccount(r, u.history, n.history, Flushed(b.ledger));
  }

  /** A flush of a turn in which nothing is buffered, and of a finished completion. */
  lemma FlushedBook(r: Reducers, t: Turn, b: Book)
    requires BookOk(r, t, b)
    ensures BookOk(r, Flush(r, t), b.(ledger := Flushed(b.ledger)))
  {
    var n := b.(ledger := Flushed(b.ledger));
    if Open(t) {
      FlushAccountsAll(r, t, b.ledger);
    } else {
      DrainedNothing(r, t.history);
      FlushedFates(b.ledger);
      forall id: MessageId ensures ConcludedAt(r, t.history, n, id) {
        assert ConcludedAt(r, t.history, b, id);
        DropWaitingChunks(b.ledger.entries, id);
      }
    }
  }

  /** The session's other fields have no part in the account. */
  lemma SessionBook(r: Reducers, t: Turn, u: Turn, b: Book)
    requires BookOk(r, t, b) && Open(t)
    requires u.history == t.history && u.buffer == t.buffer && u.endings == t.endings && u.backfilling == t.backfilling
    ensures BookOk(r, u, b)
  {
  }

  lemma NewBookOk(r: Reducers, t: Turn)
    requires t.buffer == map[] && t.endings == []
    ensures BookOk(r, t, NewBook(t.history))
  {
    DrainedNothing(r, t.history);
  }

  lemma SettleUntouched(existing: Option<Message>, recovered: seq<Message>, id: MessageId)
    requires id !in IncomingIds(recovered)
    ensures Settle(existing, recovered, id, false) == existing
  {
    if recovered != [] {
      assert recovered[0] in recovered;
      assert Trim(recovered[0].id) != id;
      forall x | x in IncomingIds(recovered[1..]) ensures x in IncomingIds(recovered) {
        var m :| m in recovered[1..] && Trim(m.id) != "" && Trim(m.id) == x;
        assert m in recovered;
      }
      SettleUntouched(existing, recovered[1..], id);
    }
  }

  lemma BackfillBook(r: Reducers, t: Turn, b: Book, recovered: seq<Message>)
    requires t.backfilling.Some? && NothingBuffered(t) && LastEnding(t) == Some(Completion) && BookOk(r, t, b)
    ensures
      BookOk(r, Backfilled(r, t, recovered),
             b.(finalised := ExistingTargets(Recovering(t, recovered)), recovered := IncomingIds(recovered)))
  {
    var m, n := Recovering(t, recovered), Backfilled(r, t, recovered);
    var book := b.(finalised := ExistingTargets(m), recovered := IncomingIds(recovered));
    BackfilledCloses(r, t, recovered);
    NothingWaits(r, t.history, b.ledger);
    assert n.history == Closed(r, m.history, ExistingTargets(m));
    forall id: MessageId ensures ConcludedAt(r, n.history, book, id) {
      assert AccountedAt(r, t.history, map[], b.ledger, id);
      RecoveredElsewhere(r, t, b.ledger, recovered, id);
      ClosedConcludes(r, m.history, ExistingTargets(m), book, id);
    }
  }

  lemma RecoveredElsewhere(r: Reducers, t: Turn, l: Ledger, recovered: seq<Message>, id: MessageId)
    requires AccountedAt(r, t.history, map[], l, id)
    ensures
      var m := Recovering(t, recovered);
      (id in IncomingIds(recovered) && id in m.history) || AccountedAt(r, m.history, map[], l, id)
  {
    if id in IncomingIds(recovered) {
      SettleExists(Lookup(t.history, id), recovered, id, false);
    } else if recovered != [] {
      SettleUntouched(Lookup(t.history, id), recovered, id);
      DrainedNothing(r, t.history);
      DrainedNothing(r, MergedHistory(t.history, recovered));
    }
  }

  // ---------------------------------------------------------------- every event

  lemma UnendedIsOpen(c: Config)
    requires Inv(c)
    ensures !c.turn.terminalHandled ==> Open(c.turn) && c.turn.endings == [] && c.turn.backfilling.None?
    ensures c.turn.terminalHandled || c.stage.Ready? ==> NothingBuffered(c.turn)
  {
  }

  lemma LaunchBook(r: Reducers, c: Config, b: Book, wsHealthy: bool, sseHealthy: bool)
    requires BookOk(r, c.turn, b) && Open(c.turn) && !c.turn.observed
    ensures BookOk(r, Launch(r, c, wsHealthy, sseHealthy).turn, b)
    ensures BookOk(r, Fallback(r, c).turn, b)
    ensures BookOk(r, EnterSse(c).turn, b)
  {
    SessionBook(r, c.turn, Fallback(r, c).turn, b);
    SessionBook(r, c.turn, EnterSse(c).turn, b);
  }

  lemma NewRunBook(r: Reducers, c: Config, b: Book, e: Event)
    requires Inv(c) && Enabled(c, e) && (e.Send? || e.Retry?)
    ensures BookOk(r, Step(r, c, e).turn, BookStep(r, c, b, e))
  {
    NewRunsAreFresh(c, e);
    if e.Send? {
      NewBookOk(r, SendRun(c, e).turn);
      LaunchBook(r, SendRun(c, e), BookStep(r, c, b, e), e.wsHealthy, e.sseHealthy);
    } else {
      NewBookOk(r, RetryRun(c, e).turn);
      LaunchBook(r, RetryRun(c, e), BookStep(r, c, b, e), e.wsHealthy, e.sseHealthy);
    }
  }

  /** A resume goes on with the book of the interrupted run. */
  lemma ResumeBook(r: Reducers, c: Config, b: Book, e: Event)
    requires Inv(c) && Enabled(c, e) && e.Resume? && BookOk(r, c.turn, b)
    ensures BookOk(r, Step(r, c, e).turn, b)
  {
    NewRunsAreFresh(c, e);
    UnendedIsOpen(c);
    assert Open(c.turn);
    var n := ResumeRun(c);
    assert BookOk(r, n.turn, b);
    LaunchBook(r, n, b, e.wsHealthy, e.sseHealthy);
  }

  lemma DatumBook(r: Reducers, c: Config, b: Book, i: Incident, now: int)
    requires Inv(c) && Enabled(c, Datum(i, now)) && BookOk(r, c.turn, b)
    ensures BookOk(r, OnWsData(r, c.turn, i, now), BookStep(r, c, b, Datum(i, now)))
  {
    UnendedIsOpen(c);
    match i
    case Payload(d) => PayloadBookOk(r, c.turn, b, d, now);
    case StreamEnd =>
    case ErrorEvent(f) =>
      InterruptionBook(r, c.turn, b, f.Shown());
      ErrorBook(r, c.turn, b, f);
  }

  /** The events that only flush, and the end of a stream. */
  lemma FlushingBook(r: Reducers, c: Config, b: Book, e: Event)
    requires Inv(c) && Enabled(c, e) && BookOk(r, c.turn, b) && (e.TimerFires? || e.StreamDone? || e.StreamFault?)
    ensures BookOk(r, Step(r, c, e).turn, b.(ledger := Flushed(b.ledger)))
  {
    UnendedIsOpen(c);
    var t := c.turn;
    FlushedBook(r, t, b);
    match e
    case TimerFires =>
    case StreamFault(f) => ErrorBook(r, t, b, f);
    case StreamDone =>
      if t.terminalHandled {
        DrainedNothing(r, t.history);
        assert Flush(r, t) == t;
      } else {
        InterruptionBook(r, t, b, if t.finalStatusSeen then ACK_MISSING_AFTER_FINAL else ACK_MISSING);
      }
  }

  lemma FallbackBook(r: Reducers, c: Config, b: Book)
    requires Inv(c) && Attempting(c) && !c.turn.terminalHandled && BookOk(r, c.turn, b)
    ensures BookOk(r, Fallback(r, c).turn, b.(ledger := Flushed(b.ledger)))
  {
    UnendedIsOpen(c);
    var t := c.turn;
    if t.observed {
      InterruptionBook(r, t, b, INTERRUPTED_EARLY);
    } else {
      DrainedNothing(r, t.history);
      FlushedBook(r, t, b);
      SessionBook(r, t, Fallback(r, c).turn, b.(ledger := Flushed(b.ledger)));
    }
  }

  /** SSE after the WebSocket goes on with what the buffer holds. */
  lemma DeclinedBook(r: Reducers, c: Config, b: Book, sseHealthy: bool)
    requires Inv(c) && Enabled(c, StreamDeclined(sseHealthy)) && BookOk(r, c.turn, b)
    ensures BookOk(r, Step(r, c, StreamDeclined(sseHealthy)).turn, BookStep(r, c, b, StreamDeclined(sseHealthy)))
  {
    UnendedIsOpen(c);
    if c.stage.InWs? && sseHealthy {
      SessionBook(r, c.turn, EnterSse(c).turn, b);
    } else {
      FallbackBook(r, c, b);
    }
  }

  lemma AuthFailedBook(r: Reducers, c: Config, b: Book, message: string)
    requires Inv(c) && Enabled(c, AuthFailed(message)) && BookOk(r, c.turn, b)
    ensures BookOk(r, Step(r, c, AuthFailed(message)).turn, b.(ledger := Flushed(b.ledger)))
  {
    UnendedIsOpen(c);
    AuthBook(r, c.turn, b, message);
  }

  lemma JsonBook(r: Reducers, c: Config, b: Book, e: Event)
    requires Inv(c) && Enabled(c, e) && BookOk(r, c.turn, b) && (e.JsonAnswered? || e.JsonFailed?)
    ensures BookOk(r, Step(r, c, e).turn, b.(ledger := Flushed(b.ledger)))
  {
    UnendedIsOpen(c);
    var t := c.turn;
    if e.JsonFailed? {
      FailureBook(r, t, b, e.failure);
    } else {
      DrainedNothing(r, t.history);
      FlushedBook(r, t, b);
      SameBlocksAccount(r, t.history, AfterJsonSuccess(t, e.content).history, Flushed(b.ledger));
    }
  }

  lemma StepKeepsBook(r: Reducers, c: Config, b: Book, e: Event)
    requires Inv(c) && Enabled(c, e) && BookOk(r, c.turn, b)
    ensures BookOk(r, Step(r, c, e).turn, BookStep(r, c, b, e))
  {
    if e.Send? || e.Retry? {
      NewRunBook(r, c, b, e);
    } else if e.Resume? {
      ResumeBook(r, c, b, e);
    } else if e.Datum? {
      DatumBook(r, c, b, e.incident, e.now);
    } else if e.BackfillArrived? {
      BackfillBook(r, c.turn, b, e.recovered);
    } else if e.TimerFires? || e.StreamDone? || e.StreamFault? {
      FlushingBook(r, c, b, e);
    } else if e.WsDatumThrew? {
    } else if e.StreamDeclined? {
      DeclinedBook(r, c, b, e.sseHealthy);
    } else if e.AuthFailed? {
      AuthFailedBook(r, c, b, e.message);
    } else {
      JsonBook(r, c, b, e);
    }
  }

  // ---------------------------------------------------------------- what was counted

  function NumbersOf(entries: seq<Entry>): (r: seq<Option<int>>)
    ensures |r| == |entries| && forall i :: 0 <= i < |r| ==> r[i] == entries[i].chunk.sequence
  {
    seq(|entries|, i requires 0 <= i < |entries| => entries[i].chunk.sequence)
  }

  /** The number was counted for a status event or for a recorded chunk, and for nothing else. */
  predicate CountedOk(c: Config, b: Book, n: int) {
    Some(n) in c.counted <==> Some(n) in b.statuses || Some(n) in NumbersOf(b.ledger.entries)
  }

  lemma SameNumbers(one: seq<Entry>, two: seq<Entry>)
    requires |one| == |two| && forall i :: 0 <= i < |one| ==> one[i].chunk == two[i].chunk
    ensures NumbersOf(one) == NumbersOf(two)
  {
  }

  lemma RoutedNumbers(t: Turn, l: Ledger, c: Chunk)
    ensures NumbersOf(Routed(t, l, c).entries) == NumbersOf(l.entries)
  {
    SameNumbers(Routed(t, l, c).entries, l.entries);
  }

  lemma AddedNumbers(entries: seq<Entry>, e: Entry)
    ensures NumbersOf(entries + [e]) == NumbersOf(entries) + [e.chunk.sequence]
    ensures NumbersOf(DropWaiting(entries + [e])) == NumbersOf(entries) + [e.chunk.sequence]
  {
    SameNumbers(DropWaiting(entries + [e]), entries + [e]);
  }

  lemma RecordedNumbers(r: Reducers, t: Turn, l: Ledger, c: Chunk, now: int)
    ensures NumbersOf(Recorded(r, t, l, c, now).entries) ==
      NumbersOf(l.entries) + (if Duplicate(t, c) then [] else [c.sequence])
  {
    if Duplicate(t, c) {
      assert NumbersOf(l.entries) + [] == NumbersOf(l.entries);
    } else {
      RoutedNumbers(t, l, c);
      AddedNumbers(Routed(t, l, c).entries, Arrived(t, c));
    }
  }

  lemma InterruptNumbers(r: Reducers, t: Turn, l: Ledger, d: StreamData, now: int, n: int)
    ensures
      var t1 := Notice(t, d);
      var l1 := if d.chunk.Some? then Recorded(r, t1, l, d.chunk.value, now) else l;
      Some(n) in NumbersOf(DatumLedger(r, t, l, d, now).entries) <==> Some(n) in NumbersOf(l1.entries)
  {
    var t1 := Notice(t, d);
    var l1 := if d.chunk.Some? then Recorded(r, t1, l, d.chunk.value, now) else l;
    if d.status.Some? && d.status.value.interrupt.Some? {
      var t2 := TakeChunk(r, t1, d, now);
      SameNumbers(Flushed(l1).entries, l1.entries);
      RecordedNumbers(r, Flush(r, t2), Flushed(l1), InterruptChunk(r, d.status.value.interrupt.value, t2.active), now);
    }
  }

  /** One datum counts the number of its status event and that of its chunk; an interrupt's block has none. */
  lemma DatumNumbers(r: Reducers, t: Turn, l: Ledger, d: StreamData, now: int, n: int)
    ensures
      Some(n) in NumbersOf(DatumLedger(r, t, l, d, now).entries) || Some(n) in DatumStatuses(d) <==>
      Some(n) in NumbersOf(l.entries) || Some(n) in DatumSequences(t, d)
  {
    NoticeKeeps(t, d);
    InterruptNumbers(r, t, l, d, now, n);
    if d.chunk.Some? {
      RecordedNumbers(r, Notice(t, d), l, d.chunk.value, now);
      assert Duplicate(Notice(t, d), d.chunk.value) == Duplicate(t, d.chunk.value);
    }
  }

  lemma PayloadCounts(r: Reducers, t: Turn, counted: seq<Option<int>>, b: Book, d: StreamData, now: int, n: int)
    requires Some(n) in counted <==> Some(n) in b.statuses || Some(n) in NumbersOf(b.ledger.entries)
    ensures
      var m := PayloadBook(r, t, b, d, now);
      Some(n) in counted + DatumSequences(t, d) <==> Some(n) in m.statuses || Some(n) in NumbersOf(m.ledger.entries)
  {
    DatumNumbers(r, t, b.ledger, d, now, n);
    var l := DatumLedger(r, t, b.ledger, d, now);
    SameNumbers(Flushed(l).entries, l.entries);
  }

  lemma NewRunCounts(r: Reducers, c: Config, b: Book, e: Event, n: int)
    requires Enabled(c, e) && CountedOk(c, b, n) && (e.Send? || e.Retry? || e.Resume?)
    ensures CountedOk(Step(r, c, e), BookStep(r, c, b, e), n)
  {
    if e.Send? {
      LaunchCounts(r, SendRun(c, e), e.wsHealthy, e.sseHealthy);
    } else if e.Retry? {
      LaunchCounts(r, RetryRun(c, e), e.wsHealthy, e.sseHealthy);
    } else {
      LaunchCounts(r, ResumeRun(c), e.wsHealthy, e.sseHealthy);
    }
  }

  /** An event that brings no datum counts nothing. */
  lemma OtherCounts(r: Reducers, c: Config, b: Book, e: Event)
    requires Enabled(c, e) && !e.Send? && !e.Retry? && !e.Resume? && !(e.Datum? && e.incident.Payload?)
    ensures Step(r, c, e).counted == c.counted
    ensures BookStep(r, c, b, e).statuses == b.statuses
    ensures NumbersOf(BookStep(r, c, b, e).ledger.entries) == NumbersOf(b.ledger.entries)
  {
    SameNumbers(Flushed(b.ledger).entries, b.ledger.entries);
  }

  lemma StepCounts(r: Reducers, c: Config, b: Book, e: Event, n: int)
    requires Enabled(c, e) && CountedOk(c, b, n)
    ensures CountedOk(Step(r, c, e), BookStep(r, c, b, e), n)
  {
    if e.Send? || e.Retry? || e.Resume? {
      NewRunCounts(r, c, b, e, n);
    } else if e.Datum? && e.incident.Payload? {
      PayloadCounts(r, c.turn, c.counted, b, e.incident.data, e.now, n);
    } else {
      OtherCounts(r, c, b, e);
    }
  }

  lemma LaunchCounts(r: Reducers, c: Config, wsHealthy: bool, sseHealthy: bool)
    ensures Launch(r, c, wsHealthy, sseHealthy).counted == c.counted
  {
  }

  // ---------------------------------------------------------------- every run

  lemma {:induction false} RunKeepsBook(r: Reducers, c: Config, b: Book, events: seq<Event>, n: int)
    requires Inv(c) && Runs(r, c, events) && BookOk(r, c.turn, b) && CountedOk(c, b, n)
    ensures
      var last, book := Run(r, c, events), BookAfter(r, c, b, events);
      Inv(last) && BookOk(r, last.turn, book) && CountedOk(last, book, n)
    decreases events
  {
    if events != [] {
      StepKeepsInv(r, c, events[0]);
      StepKeepsBook(r, c, b, events[0]);
      StepCounts(r, c, b, events[0], n);
      RunKeepsBook(r, Step(r, c, events[0]), BookStep(r, c, b, events[0]), events[1..], n);
    }
  }

  lemma StartOk(r: Reducers, history: map<string, Message>, session: Option<Session>, n: int)
    requires Restored(session)
    ensures Inv(Initial(history, session))
    ensures BookOk(r, Initial(history, session).turn, NewBook(history)) && CountedOk(Initial(history, session), NewBook(history), n)
  {
    InitialInv(history, session);
    NewBookOk(r, Initial(history, session).turn);
  }

  /** The message in which a chunk landed is there. */
  lemma LandedIsInHistory(r: Reducers, t: Turn, b: Book, i: nat)
    requires BookOk(r, t, b) && i < |b.ledger.entries| && b.ledger.entries[i].fate.Landed?
    ensures b.ledger.entries[i].target in t.history
  {
    var id := b.ledger.entries[i].target;
    LandedIsFound(b.ledger.entries, i);
    if Open(t) {
      assert AccountedAt(r, t.history, t.buffer, b.ledger, id);
    } else {
      assert ConcludedAt(r, t.history, b, id);
    }
  }

  /**
   * In every interleaving and at every moment: each accepted chunk was either placed in its message,
   * which is in the history, or is stale; and each message holds, once the waiting chunks are applied,
   * the blocks it started with and then exactly the chunks that landed in it, in order of arrival.
   */
  lemma MessagesHoldTheirChunks(
      r: Reducers, history: map<string, Message>, session: Option<Session>, events: seq<Event>, id: MessageId)
    requires Restored(session) && Runs(r, Initial(history, session), events)
    ensures
      var c, b := Run(r, Initial(history, session), events), BookAfter(r, Initial(history, session), NewBook(history), events);
      && FatesOk(b.ledger)
      && (forall i :: 0 <= i < |b.ledger.entries| && b.ledger.entries[i].fate.Landed? ==>
            b.ledger.entries[i].target in c.turn.history)
      && (Open(c.turn) && id in c.turn.history ==>
            id in b.ledger.base && Settled(r, c.turn).history[id].blocks == Fold(r, b.ledger, id))
      && (!Open(c.turn) ==> ConcludedAt(r, c.turn.history, b, id))
  {
    StartOk(r, history, session, 0);
    RunKeepsBook(r, Initial(history, session), NewBook(history), events, 0);
    var c, b := Run(r, Initial(history, session), events), BookAfter(r, Initial(history, session), NewBook(history), events);
    forall i | 0 <= i < |b.ledger.entries| && b.ledger.entries[i].fate.Landed?
      ensures b.ledger.entries[i].target in c.turn.history
    {
      LandedIsInHistory(r, c.turn, b, i);
    }
    if Open(c.turn) {
      assert AccountedAt(r, c.turn.history, c.turn.buffer, b.ledger, id);
    }
  }

  /**
   * When a run has ended, and when it has returned: the history itself holds exactly the landed
   * chunks, and an accepted chunk is missing from it exactly when its alias was stale on arrival and
   * its message was not made anew before the next flush.
   */
  lemma MissingExactlyWhenStale(
      r: Reducers, history: map<string, Message>, session: Option<Session>, events: seq<Event>, id: MessageId, i: nat)
    requires Restored(session) && Runs(r, Initial(history, session), events)
    ensures
      var c, b := Run(r, Initial(history, session), events), BookAfter(r, Initial(history, session), NewBook(history), events);
      c.turn.terminalHandled || c.stage.Ready? ==>
        && (Open(c.turn) && id in c.turn.history ==>
              id in b.ledger.base && c.turn.history[id].blocks == Fold(r, b.ledger, id))
        && (!Open(c.turn) ==> ConcludedAt(r, c.turn.history, b, id))
        && (i < |b.ledger.entries| ==> Missing(c.turn, b.ledger.entries[i], b.ledger.entries[i].stale && !b.ledger.entries[i].revived))
  {
    StartOk(r, history, session, 0);
    RunKeepsBook(r, Initial(history, session), NewBook(history), events, 0);
    var c, b := Run(r, Initial(history, session), events), BookAfter(r, Initial(history, session), NewBook(history), events);
    if c.turn.terminalHandled || c.stage.Ready? {
      EndedBook(r, c, b, id);
      if i < |b.ledger.entries| {
        EndedEntry(r, c, b, i);
      }
    }
  }

  /** The chunk was dropped exactly under this condition; otherwise it landed, and its message is in the history. */
  predicate Missing(t: Turn, e: Entry, condition: bool) {
    && (e.fate.Lost? <==> condition)
    && (e.fate.Landed? <==> !condition)
    && (e.fate.Landed? ==> e.target in t.history)
  }

  lemma EndedEntry(r: Reducers, c: Config, b: Book, i: nat)
    requires Inv(c) && BookOk(r, c.turn, b) && (c.turn.terminalHandled || c.stage.Ready?) && i < |b.ledger.entries|
    ensures var e := b.ledger.entries[i]; Missing(c.turn, e, e.stale && !e.revived)
  {
    EndedBook(r, c, b, b.ledger.entries[i].target);
    assert FateOk(b.ledger.entries[i]) && !b.ledger.entries[i].fate.Waiting?;
    if b.ledger.entries[i].fate.Landed? {
      LandedIsInHistory(r, c.turn, b, i);
    }
  }

  /** With an empty buffer the history is settled and nothing waits. */
  lemma EndedBook(r: Reducers, c: Config, b: Book, id: MessageId)
    requires Inv(c) && BookOk(r, c.turn, b) && (c.turn.terminalHandled || c.stage.Ready?)
    ensures NoneWaiting(b.ledger) && FatesOk(b.ledger)
    ensures Open(c.turn) && id in c.turn.history ==>
      id in b.ledger.base && c.turn.history[id].blocks == Fold(r, b.ledger, id)
    ensures !Open(c.turn) ==> ConcludedAt(r, c.turn.history, b, id)
  {
    UnendedIsOpen(c);
    if Open(c.turn) {
      assert AccountedAt(r, c.turn.history, map[], b.ledger, id);
      NothingWaits(r, c.turn.history, b.ledger);
      DrainedNothing(r, c.turn.history);
    }
  }

  /** A number counts for the cursor exactly if a status event or a recorded chunk carried it. */
  lemma CountedAreRecorded(r: Reducers, history: map<string, Message>, session: Option<Session>, events: seq<Event>, n: int)
    requires Restored(session) && Runs(r, Initial(history, session), events)
    ensures
      var c, b := Run(r, Initial(history, session), events), BookAfter(r, Initial(history, session), NewBook(history), events);
      Some(n) in c.counted <==>
        Some(n) in b.statuses || exists i :: 0 <= i < |b.ledger.entries| && b.ledger.entries[i].chunk.sequence == Some(n)
  {
    StartOk(r, history, session, n);
    RunKeepsBook(r, Initial(history, session), NewBook(history), events, n);
    var c, b := Run(r, Initial(history, session), events), BookAfter(r, Initial(history, session), NewBook(history), events);
    NumberOfEntry(b.ledger.entries, n);
  }

  lemma NumberOfEntry(entries: seq<Entry>, n: int)
    ensures Some(n) in NumbersOf(entries) <==> exists i :: 0 <= i < |entries| && entries[i].chunk.sequence == Some(n)
  {
    var numbers := NumbersOf(entries);
    if Some(n) in numbers {
      var i :| 0 <= i < |numbers| && numbers[i] == Some(n);
      assert entries[i].chunk.sequence == Some(n);
    }
    if i :| 0 <= i < |entries| && entries[i].chunk.sequence == Some(n) {
      assert numbers[i] == Some(n);
    }
  }

  // ---------------------------------------------------------------- runs without revivals

  predicate NoneRevived(l: Ledger) {
    forall i :: 0 <= i < |l.entries| ==> !l.entries[i].revived
  }

  lemma RenewNothing(entries: seq<Entry>, made: MessageId)
    requires ChunksOf(entries, made, Waiting) == []
    ensures Renew(entries, made) == entries
  {
    forall i | 0 <= i < |entries| ensures Renewed(entries[i], made) == entries[i] {
      if entries[i].fate.Waiting? {
        WaitingIsFound(entries, i);
      }
    }
  }

  lemma RoutedNotRevived(t: Turn, l: Ledger, c: Chunk)
    requires c.messageId !in t.history ==> ChunksOf(l.entries, c.messageId, Waiting) == WaitingFor(t, c.messageId)
    requires NoneRevived(l) && !Revives(t, c)
    ensures NoneRevived(Routed(t, l, c))
  {
    if c.messageId !in t.alias && c.messageId !in t.history && t.active !in t.history {
      RenewNothing(l.entries, c.messageId);
    }
  }

  lemma AddedNotRevived(l: Ledger, e: Entry)
    requires NoneRevived(l) && !e.revived
    ensures var more := l.(entries := l.entries + [e]); NoneRevived(more) && NoneRevived(Flushed(more))
  {
  }

  lemma RecordedNotRevived(r: Reducers, t: Turn, l: Ledger, c: Chunk, now: int)
    requires AccountedAt(r, t.history, t.buffer, l, c.messageId)
    requires NoneRevived(l) && (Duplicate(t, c) || !Revives(t, c))
    ensures NoneRevived(Recorded(r, t, l, c, now))
  {
    if !Duplicate(t, c) {
      assert c.messageId !in t.history ==> ChunksOf(l.entries, c.messageId, Waiting) == WaitingFor(t, c.messageId);
      RoutedNotRevived(t, l, c);
      AddedNotRevived(Routed(t, l, c), Arrived(t, c));
    }
  }

  /** After a flush nothing waits that could be revived. */
  lemma InterruptNotRevived(r: Reducers, t: Turn, l: Ledger, c: Chunk, now: int)
    requires Accounted(r, t.history, t.buffer, l) && NoneRevived(l)
    ensures NoneRevived(Recorded(r, Flush(r, t), Flushed(l), c, now))
  {
    FlushAccountsAll(r, t, l);
    assert AccountedAt(r, Flush(r, t).history, map[], Flushed(l), c.messageId);
    RecordedNotRevived(r, Flush(r, t), Flushed(l), c, now);
  }

  lemma DatumNotRevived(r: Reducers, t: Turn, l: Ledger, d: StreamData, now: int)
    requires Accounted(r, t.history, t.buffer, l) && NoneRevived(l) && NoRevivalDatum(t, d)
    ensures NoneRevived(DatumLedger(r, t, l, d, now))
  {
    var t1 := Notice(t, d);
    NoticeKeeps(t, d);
    var l1 := if d.chunk.Some? then Recorded(r, t1, l, d.chunk.value, now) else l;
    if d.chunk.Some? {
      assert AccountedAt(r, t1.history, t1.buffer, l, d.chunk.value.messageId);
      RecordedNotRevived(r, t1, l, d.chunk.value, now);
      EnqueueAccounts(r, t1, l, d.chunk.value, now);
    }
    if d.status.Some? && d.status.value.interrupt.Some? {
      var t2 := TakeChunk(r, t1, d, now);
      InterruptNotRevived(r, t2, l1, InterruptChunk(r, d.status.value.interrupt.value, t2.active), now);
    }
  }

  lemma PayloadNotRevived(r: Reducers, t: Turn, b: Book, d: StreamData, now: int)
    requires Accounted(r, t.history, t.buffer, b.ledger) && NoneRevived(b.ledger) && NoRevivalDatum(t, d)
    ensures NoneRevived(PayloadBook(r, t, b, d, now).ledger)
  {
    DatumNotRevived(r, t, b.ledger, d, now);
  }

  lemma StepNotRevived(r: Reducers, c: Config, b: Book, e: Event)
    requires Inv(c) && Enabled(c, e) && BookOk(r, c.turn, b) && NoneRevived(b.ledger) && NoRevivalStep(c, e)
    ensures NoneRevived(BookStep(r, c, b, e).ledger)
  {
    if e.Datum? && e.incident.Payload? {
      UnendedIsOpen(c);
      PayloadNotRevived(r, c.turn, b, e.incident.data, e.now);
    }
  }

  lemma {:induction false} RunNotRevived(r: Reducers, c: Config, b: Book, events: seq<Event>)
    requires Inv(c) && Runs(r, c, events) && BookOk(r, c.turn, b) && NoneRevived(b.ledger) && NoRevivalRun(r, c, events)
    ensures NoneRevived(BookAfter(r, c, b, events).ledger)
    decreases events
  {
    if events != [] {
      StepKeepsInv(r, c, events[0]);
      StepKeepsBook(r, c, b, events[0]);
      StepNotRevived(r, c, b, events[0]);
      RunNotRevived(r, Step(r, c, events[0]), BookStep(r, c, b, events[0]), events[1..]);
    }
  }

  /** Where nothing is revived, a chunk is missing from an ended run exactly when its alias was stale on arrival. */
  lemma LostExactlyWhenStale(
      r: Reducers, history: map<string, Message>, session: Option<Session>, events: seq<Event>, id: MessageId, i: nat)
    requires Restored(session) && Runs(r, Initial(history, session), events)
    requires NoRevivalRun(r, Initial(history, session), events)
    ensures
      var c, b := Run(r, Initial(history, session), events), BookAfter(r, Initial(history, session), NewBook(history), events);
      c.turn.terminalHandled || c.stage.Ready? ==>
        && (Open(c.turn) && id in c.turn.history ==>
              id in b.ledger.base && c.turn.history[id].blocks == Fold(r, b.ledger, id))
        && (!Open(c.turn) ==> ConcludedAt(r, c.turn.history, b, id))
        && (i < |b.ledger.entries| ==> Missing(c.turn, b.ledger.entries[i], b.ledger.entries[i].stale))
  {
    StartOk(r, history, session, 0);
    RunNotRevived(r, Initial(history, session), NewBook(history), events);
    MissingExactlyWhenStale(r, history, session, events, id, i);
  }
}
