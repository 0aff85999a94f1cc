/** What holds of every conversation, in every interleaving (frontend/store/chatRuntime.ts, frontend/store/chat.ts). */
module ChatTheorems {
  import opened Prelude
  import opened Messages
  import opened Sessions
  import opened ChatTurn
  import opened Buffering
  import opened TurnFacts
  import opened Transport
  import opened ChatRuns

  /**
   * SSE is tried after the WebSocket delivered data exactly if a WebSocket datum made `onData` throw,
   * and the JSON request is sent only if no chunk was ever accepted: but for such a datum, a turn is
   * never delivered twice through fallback.
   */
  lemma NeverDeliveredTwice(r: Reducers, history: map<string, Message>, session: Option<Session>, events: seq<Event>)
    requires Restored(session) && Runs(r, Initial(history, session), events)
    ensures
      var c := Run(r, Initial(history, session), events);
      && (c.sseUsed ==> (c.wsData > 0 <==> c.threw))
      && (c.jsonSent ==> !c.chunkQueued && (c.wsData > 0 <==> c.threw))
  {
    InitialInv(history, session);
    RunKeepsInv(r, Initial(history, session), events);
  }

  /** A throwing datum does lead to SSE, whatever the WebSocket had delivered. */
  lemma ThrowLeadsToSse(r: Reducers, c: Config)
    requires c.stage.InWs? && (c.attempt.Quiet? || c.attempt.Delivering?)
    ensures
      var events := [WsDatumThrew, StreamDeclined(true)];
      && Runs(r, c, events)
      && Run(r, c, events).stage.InSse? && Run(r, c, events).wsData == c.wsData + 1
      && Run(r, c, events).chunkQueued == c.chunkQueued
  {
    assert [WsDatumThrew, StreamDeclined(true)][1..] == [StreamDeclined(true)];
    assert [StreamDeclined(true)][1..] == [];
  }

  /**
   * Every run ends once: at most one of interruption, breakdown and completion takes effect; when it
   * has, the chunk buffer and its timer are empty; and a run that has returned, its deferred backfill
   * included, leaves the session idle, recoverable or failed, ready for the next turn.
   */
  lemma EveryRunEndsOnce(r: Reducers, history: map<string, Message>, session: Option<Session>, events: seq<Event>)
    requires Restored(session) && Runs(r, Initial(history, session), events)
    ensures
      var c := Run(r, Initial(history, session), events);
      && |c.turn.endings| <= 1
      && (c.turn.terminalHandled <==> |c.turn.endings| == 1)
      && (c.turn.terminalHandled ==> NothingBuffered(c.turn))
      && (c.stage.Ready? ==> NothingBuffered(c.turn))
      && (c.stage.Ready? && c.turn.backfilling.None? ==> AtRest(c.turn.session) && !InProgress(c.turn.session))
      && (c.stage.Ready? && c.turn.backfilling.Some? ==> InProgress(c.turn.session))
  {
    InitialInv(history, session);
    RunKeepsInv(r, Initial(history, session), events);
  }

  /** A step out of a run that is over for good adds no ending. */
  lemma EndingIsFinal(r: Reducers, c: Config, e: Event)
    requires Inv(c) && Enabled(c, e) && c.turn.terminalHandled && !e.Send? && !e.Retry? && !e.Resume?
    ensures Step(r, c, e).turn.endings == c.turn.endings
  {
    if e.BackfillArrived? {
      BackfilledCloses(r, c.turn, e.recovered);
    }
  }

  /** A finished completion leaves neither the message of the run nor one that received a chunk in status streaming. */
  lemma CompletionClosesEveryMessage(r: Reducers, history: map<string, Message>, session: Option<Session>, events: seq<Event>)
    requires Restored(session) && Runs(r, Initial(history, session), events)
    ensures
      var c := Run(r, Initial(history, session), events);
      LastEnding(c.turn) == Some(Completion) && c.turn.backfilling.None? ==>
        forall id :: id in c.touched && id in c.turn.history ==> c.turn.history[id].status == Some(Done)
  {
    InitialInv(history, session);
    RunKeepsInv(r, Initial(history, session), events);
  }

  // ---------------------------------------------------------------- what a transport may do, the run takes

  /** The event that a callback of an attempt is to the run; what a datum brings is up to the upstream. */
  predicate IsEvent(c: Config, callback: Callback, e: Event) {
    match callback
    case Data(stop) => e.Datum? && StopsAfter(c, e.incident) == stop && (c.stage.InSse? ==> e.incident.Payload?)
    case DataThrew => e.WsDatumThrew? && c.stage.InWs?
    case StreamError(code) => e.StreamFault? && e.failure.errorCode == Some(code)
    case Settle(Resolve) => e.StreamDone?
    case Settle(Reject) => e.StreamDeclined?
  }

  /** Whatever callback the contract allows, the run takes it, and both agree on how far the attempt is. */
  lemma CallbacksAreTaken(r: Reducers, c: Config, callback: Callback, e: Event)
    requires Attempting(c) && Allowed(c.attempt, callback) && IsEvent(c, callback, e)
    ensures Enabled(c, e)
    ensures !callback.Settle? ==> Step(r, c, e).attempt == After(c.attempt, callback) && Step(r, c, e).stage == c.stage
    ensures callback == Settle(Resolve) ==> Step(r, c, e).stage.Ready?
  {
  }

  /** The run is over, its deferred backfill included. */
  predicate Finished(c: Config) {
    c.stage.Ready? && c.turn.backfilling.None?
  }

  ghost predicate Leads(r: Reducers, c: Config, n: Config) {
    exists events :: Runs(r, c, events) && Run(r, c, events) == n
  }

  lemma LeadsToItself(r: Reducers, c: Config)
    ensures Leads(r, c, c)
  {
    assert Runs(r, c, []) && Run(r, c, []) == c;
  }

  lemma LeadsFirst(r: Reducers, c: Config, e: Event, next: Config, n: Config)
    requires Enabled(c, e) && next == Step(r, c, e) && Leads(r, next, n)
    ensures Leads(r, c, n)
  {
    var rest :| Runs(r, next, rest) && Run(r, next, rest) == n;
    var events := [e] + rest;
    assert events[0] == e && events[1..] == rest;
    assert Runs(r, c, events) && Run(r, c, events) == n;
  }

  lemma BackfillEnds(r: Reducers, c: Config) returns (n: Config)
    requires Inv(c) && c.stage.Ready?
    ensures Finished(n) && AtRest(n.turn.session) && Leads(r, c, n)
  {
    n := c;
    LeadsToItself(r, c);
    if c.turn.backfilling.Some? {
      BackfilledCloses(r, c.turn, []);
      n := Step(r, c, BackfillArrived([]));
      LeadsToItself(r, n);
      LeadsFirst(r, c, BackfillArrived([]), n, n);
    }
  }

  lemma AnswerEnds(r: Reducers, c: Config) returns (n: Config)
    requires Inv(c) && !Attempting(c)
    ensures Finished(n) && AtRest(n.turn.session) && Leads(r, c, n)
  {
    if c.stage.InJson? {
      var next := Step(r, c, JsonAnswered(""));
      StepKeepsInv(r, c, JsonAnswered(""));
      n := BackfillEnds(r, next);
      LeadsFirst(r, c, JsonAnswered(""), next, n);
    } else {
      n := BackfillEnds(r, c);
    }
  }

  /** A run never gets stuck: from every moment of every conversation it can come to its end. */
  lemma RunCanEnd(r: Reducers, c: Config)
    requires Inv(c)
    ensures exists n :: Leads(r, c, n) && Finished(n) && AtRest(n.turn.session)
  {
    if Attempting(c) {
      var e := if c.attempt.Thrown? then StreamDeclined(false) else StreamDone;
      var next := Step(r, c, e);
      StepKeepsInv(r, c, e);
      var n := AnswerEnds(r, next);
      LeadsFirst(r, c, e, next, n);
    } else {
      var n := AnswerEnds(r, c);
    }
  }

  // ---------------------------------------------------------------- the resume cursor

  predicate Positive(n: Option<int>) {
    n.Some? && n.value > 0
  }

  lemma {:induction false} MaxCursorIsGreatest(highest: Option<int>, counted: seq<Option<int>>)
    requires highest.Some? ==> highest.value > 0
    ensures
      var m := MaxCursorAll(highest, counted);
      && (m.Some? <==> highest.Some? || exists i :: 0 <= i < |counted| && Positive(counted[i]))
      && (m.Some? ==> m == highest || m in counted)
      && (m.Some? ==> m.value > 0 && (highest.Some? ==> highest.value <= m.value))
      && (forall i :: 0 <= i < |counted| && Positive(counted[i]) ==> counted[i].value <= m.value)
    decreases counted
  {
    if counted != [] {
      MaxCursorIsGreatest(MaxCursor(highest, counted[0]), counted[1..]);
      assert counted == [counted[0]] + counted[1..];
    }
  }

  /**
   * The stored cursor is, at every moment, the greatest positive sequence number among all accepted
   * chunks and status events since the last send or retry, and there is none exactly if there was
   * no such number.
   */
  lemma StoredCursorIsGreatest(r: Reducers, history: map<string, Message>, session: Option<Session>, events: seq<Event>)
    requires Restored(session) && Runs(r, Initial(history, session), events)
    ensures
      var c := Run(r, Initial(history, session), events);
      c.turn.session.Some? ==>
        var stored := c.turn.session.value.lastReceivedSequence;
        && (stored.None? ==> forall i :: 0 <= i < |c.counted| ==> !Positive(c.counted[i]))
        && (stored.Some? ==> stored in c.counted && stored.value > 0)
        && (stored.Some? ==> forall i :: 0 <= i < |c.counted| && Positive(c.counted[i]) ==> c.counted[i].value <= stored.value)
  {
    InitialInv(history, session);
    RunKeepsInv(r, Initial(history, session), events);
    MaxCursorIsGreatest(None, Run(r, Initial(history, session), events).counted);
  }

  predicate NotBelow(a: Option<int>, b: Option<int>) {
    a.Some? ==> b.Some? && a.value <= b.value
  }

  lemma CountedGrows(r: Reducers, c: Config, e: Event)
    requires Enabled(c, e) && !e.Send? && !e.Retry?
    ensures c.counted <= Step(r, c, e).counted
  {
  }

  /** Between sends and retries the stored cursor never decreases. */
  lemma CursorNeverDecreases(r: Reducers, c: Config, e: Event)
    requires Inv(c) && Enabled(c, e) && !e.Send? && !e.Retry? && c.turn.session.Some?
    ensures Step(r, c, e).turn.session.Some? ==>
      NotBelow(c.turn.session.value.lastReceivedSequence, Step(r, c, e).turn.session.value.lastReceivedSequence)
  {
    var n := Step(r, c, e);
    StepKeepsInv(r, c, e);
    CountedGrows(r, c, e);
    var more := n.counted[|c.counted|..];
    assert n.counted == c.counted + more;
    MaxCursorConcat(None, c.counted, more);
    MaxCursorIsGreatest(None, c.counted);
    MaxCursorIsGreatest(MaxCursorAll(None, c.counted), more);
  }

  /** A resume sends exactly the stored cursor, and keeps counting from it. */
  lemma ResumeSendsCursor(r: Reducers, c: Config, e: Event)
    requires Inv(c) && Enabled(c, e) && e.Resume?
    ensures
      var n := Step(r, c, e);
      && |n.requests| == |c.requests| + 1
      && n.requests[|c.requests|].resumeFrom == MaxCursorAll(None, c.counted) == c.turn.session.value.lastReceivedSequence
      && n.counted == c.counted
      && n.turn.highest == c.turn.highest
  {
    NewRunsAreFresh(c, e);
  }

  /** A send or a retry starts counting anew, and asks for the whole stream. */
  lemma SendRestartsCursor(r: Reducers, c: Config, e: Event)
    requires Inv(c) && Enabled(c, e) && (e.Send? || e.Retry?)
    ensures
      var n := Step(r, c, e);
      && |n.requests| == |c.requests| + 1
      && n.requests[|c.requests|].resumeFrom == None
      && n.counted == [] && n.turn.highest == None
  {
    NewRunsAreFresh(c, e);
  }
}
