/**
 * What the user is left with (frontend/store/chatRuntime.ts): messages and session after each way in
 * which a run can end, and which reports end it in which way.
 */
module ChatOutcomes {
  import opened Prelude
  import opened Text
  import opened Messages
  import opened MessageMerge
  import opened Sessions
  import opened ChatTurn
  import opened Buffering
  import opened TurnFacts
  import opened Transport
  import opened ChatRuns
  import WsTransport

  // ---------------------------------------------------------------- interruptions and failures

  /** The active message shows how the run ended; all its content stays, as do all other messages. */
  ghost predicate ShowsEnding(r: Reducers, t: Turn, u: Turn, status: Status) {
    var shown := Settled(r, t).history;
    && u.history.Keys == t.history.Keys
    && (forall id :: id in shown && id != t.active ==> u.history[id] == shown[id])
    && (t.active in shown ==>
          u.history[t.active] == shown[t.active].(status := Some(status), extras := u.history[t.active].extras))
  }

  /** An optional field of a message: absent, or its value, which may be null. */
  function Detail(m: Message, key: string): Option<Option<string>> {
    if key in m.extras then Some(m.extras[key]) else None
  }

  /** The message says nothing of an error. */
  predicate NoError(m: Message) {
    Detail(m, "errorCode") == Some(None) && Detail(m, "errorMessage") == Some(None)
  }

  /** The run was interrupted: queue, cursor and references stay, so that it can be resumed. */
  ghost predicate Interrupts(r: Reducers, t: Turn, u: Turn, text: string) {
    && u.endings == t.endings + [Interruption] && u.terminalHandled && NothingBuffered(u) && u.active == t.active
    && ShowsEnding(r, t, u, Interrupted)
    && (u.active in u.history ==> NoError(u.history[u.active]))
    && u.session == (
         if t.session.None? then None
         else Some(t.session.value.(streamState := Recoverable, lastStreamError := Some(text))))
  }

  /** The details that a failed message carries. */
  predicate Carries(m: Message, f: Failure) {
    && Detail(m, "errorCode") == Some(NonBlank(f.errorCode)) && Detail(m, "errorMessage") == Some(Some(f.Shown()))
    && Detail(m, "errorSource") == Some(f.source) && Detail(m, "jsonrpcCode") == Some(f.jsonrpcCode)
    && Detail(m, "missingParams") == Some(if f.missingParams.Some? then Some(f.missingParams.value.json) else None)
    && Detail(m, "upstreamError") == Some(if f.upstreamError.Some? then Some(f.upstreamError.value.json) else None)
  }

  /** The run failed for good: the message carries the details, and nothing is pending. */
  ghost predicate Fails(r: Reducers, t: Turn, u: Turn, f: Failure) {
    && u.endings == t.endings + [Breakdown] && u.terminalHandled && NothingBuffered(u) && u.active == t.active
    && ShowsEnding(r, t, u, Error)
    && (u.active in u.history ==> Carries(u.history[u.active], f))
    && u.session == (
         if t.session.None? then None
         else Some(t.session.value.(streamState := StreamState.Failed, lastStreamError := Some(f.Shown()),
                                    pendingInterrupts := [], pendingInterrupt := None)))
  }

  lemma InterruptionOutcome(r: Reducers, t: Turn, text: string)
    requires !t.terminalHandled
    ensures Interrupts(r, t, MarkRecoverable(r, t, text), text)
  {
  }

  lemma FailedMessage(m: Message, f: Failure)
    ensures
      var n := ApplyPatch(m, ErrorPatch(m.content, f));
      Carries(n, f) && n == m.(status := Some(Error), extras := n.extras)
  {
    var extras := ErrorPatch(m.content, f).extras;
    assert extras["errorCode"] == f.Code() && extras["errorMessage"] == Some(f.Shown());
    assert extras["errorSource"] == f.source && extras["jsonrpcCode"] == f.jsonrpcCode;
    assert "missingParams" in extras && "upstreamError" in extras;
  }

  lemma FailureOutcome(r: Reducers, t: Turn, f: Failure)
    requires !t.terminalHandled
    ensures Fails(r, t, FinalizeFailure(r, t, f), f)
  {
    var shown := Settled(r, t).history;
    if t.active in shown {
      FailedMessage(shown[t.active], f);
    }
  }

  /** The four codes that stand for a broken stream. */
  predicate StreamBroke(code: Option<string>) {
    NonBlank(code) in {Some("timeout"), Some("stream_closed"), Some("stream_error"), Some("session_not_found")}
  }

  lemma ReportEnds(r: Reducers, t: Turn, f: Failure)
    requires !t.terminalHandled
    ensures
      var u := AppendStreamError(r, t, f);
      if StreamBroke(f.errorCode) then Interrupts(r, t, u, f.Shown()) else Fails(r, t, u, f)
  {
    InterruptionOutcome(r, t, f.Shown());
    FailureOutcome(r, t, f);
  }

  /** A report interrupts the run if its code, trimmed, is one of four, and fails it for good otherwise. */
  lemma ReportOutcome(r: Reducers, c: Config, e: Event, f: Failure)
    requires Inv(c) && Enabled(c, e)
    requires e == StreamFault(f) || (e.Datum? && e.incident == ErrorEvent(f))
    ensures
      var n := Step(r, c, e);
      if StreamBroke(f.errorCode) then Interrupts(r, c.turn, n.turn, f.Shown()) else Fails(r, c.turn, n.turn, f)
  {
    ReportEnds(r, c.turn, f);
    if e.Datum? {
      ErrorEventIsReport(r, c.turn, f, e.now);
      assert Step(r, c, e).turn == OnWsData(r, c.turn, e.incident, e.now);
    } else {
      assert Step(r, c, e).turn == AppendStreamError(r, c.turn, f);
    }
  }

  /** The codes that the WebSocket attempt reports are among them. */
  lemma WsCodesAreBroken(failures: nat, events: seq<WsTransport.Event>, code: string)
    requires WsTransport.Runs(WsTransport.Start(failures), events)
    requires StreamError(code) in WsTransport.Run(WsTransport.Start(failures), events).callbacks
    ensures StreamBroke(Some(code))
  {
    WsTransport.ErrorNamesItsCause(WsTransport.Start(failures), events, code);
    TrimFixesTrimmed("timeout");
    TrimFixesTrimmed("stream_error");
    TrimFixesTrimmed("stream_closed");
  }

  lemma OneMoreEvent(r: Reducers, c: Config, one: Event, two: Event)
    requires Enabled(c, one) && Enabled(Step(r, c, one), two)
    ensures Runs(r, c, [one, two]) && Run(r, c, [one, two]) == Step(r, Step(r, c, one), two)
  {
    var next := Step(r, c, one);
    assert [one, two][1..] == [two] && [two][1..] == [];
    assert Runs(r, next, [two]) && Run(r, next, [two]) == Step(r, next, two);
  }

  lemma FaultThenReturn(r: Reducers, c: Config, f: Failure)
    requires Inv(c) && Enabled(c, StreamFault(f))
    ensures Runs(r, c, [StreamFault(f), StreamDone])
    ensures
      var n := Run(r, c, [StreamFault(f), StreamDone]);
      n.turn == Step(r, c, StreamFault(f)).turn && n.stage.Ready?
  {
    ErrorEnds(r, c.turn, f);
    var broken := Step(r, c, StreamFault(f));
    assert broken.turn.terminalHandled && broken.attempt.Stopped? && Enabled(broken, StreamDone);
    OneMoreEvent(r, c, StreamFault(f), StreamDone);
  }

  /**
   * Whatever the WebSocket attempt goes through: an error that it reports interrupts the run, and once
   * the attempt has returned the run can be resumed, if the session names its messages.
   */
  lemma WsErrorCanBeResumed(
      r: Reducers, c: Config, f: Failure, failures: nat, events: seq<WsTransport.Event>, code: string)
    requires WsTransport.Runs(WsTransport.Start(failures), events)
    requires StreamError(code) in WsTransport.Run(WsTransport.Start(failures), events).callbacks
    requires Inv(c) && c.stage.InWs? && c.attempt.Delivering? && f.errorCode == Some(code)
    ensures Runs(r, c, [StreamFault(f), StreamDone])
    ensures
      var n := Run(r, c, [StreamFault(f), StreamDone]);
      && Interrupts(r, c.turn, n.turn, f.Shown()) && n.stage.Ready?
      && n.turn.session.Some? && n.turn.session.value.streamState == Recoverable
      && (HasMessages(n.turn) ==> Enabled(n, Resume(true, true)))
  {
    WsCodesAreBroken(failures, events, code);
    ReportOutcome(r, c, StreamFault(f), f);
    FaultThenReturn(r, c, f);
  }

  // ---------------------------------------------------------------- the end of a stream

  /** A stream that returns before the run has ended interrupts it; the text depends on whether a final status was seen. */
  lemma ReturnOutcome(r: Reducers, c: Config)
    requires Enabled(c, StreamDone)
    ensures
      var n := Step(r, c, StreamDone);
      if c.turn.terminalHandled then n.turn == c.turn
      else
        Interrupts(r, c.turn, n.turn,
                   if c.turn.finalStatusSeen then "Streaming finished without a persisted completion acknowledgement."
                   else "Streaming transport ended before a persisted completion acknowledgement was received.")
  {
    if !c.turn.terminalHandled {
      InterruptionOutcome(r, c.turn, if c.turn.finalStatusSeen then ACK_MISSING_AFTER_FINAL else ACK_MISSING);
    }
  }

  /** A new run has seen nothing. */
  lemma NewRunsSawNothing(r: Reducers, c: Config, e: Event)
    requires Enabled(c, e) && (e.Send? || e.Retry? || e.Resume?)
    ensures !Step(r, c, e).turn.observed && !Step(r, c, e).turn.finalStatusSeen
  {
  }

  /** A payload with a chunk, a status or session data is an event, and a final status is noted. */
  lemma EventsAreNoted(r: Reducers, c: Config, d: StreamData, now: int)
    requires Inv(c) && Enabled(c, Datum(Payload(d), now))
    ensures
      var n := Step(r, c, Datum(Payload(d), now));
      && n.turn.observed == (c.turn.observed || d.chunk.Some? || d.status.Some? || d.hasMeta || d.transport.Some?)
      && (d.status.None? || !d.status.value.persisted ==>
            n.turn.finalStatusSeen == (c.turn.finalStatusSeen || (d.status.Some? && d.status.value.isFinal)))
  {
    TakeKeeps(r, c.turn, d, now);
    CompleteKeepsNotes(r, Take(r, c.turn, d, now));
  }

  lemma CompleteKeepsNotes(r: Reducers, t: Turn)
    ensures
      var u := CompleteStreaming(r, t);
      u.observed == t.observed && u.finalStatusSeen == t.finalStatusSeen
  {
    if !t.terminalHandled {
      var e := Flush(r, Ended(t, Completion));
      if !NeedsBackfill(e, ExistingTargets(t)) {
        FinishCloses(r, e);
      }
    }
  }

  // ---------------------------------------------------------------- completions

  /** A message that a completion closes: an active one that is there, or the active message if none is. */
  ghost predicate OfRun(t: Turn, id: string) {
    && id in t.history
    && (id in t.activeIds || (id == t.active && forall k :: k in t.activeIds ==> k !in t.history))
  }

  /** The messages of the run are finalised and done, no other message changes, and the session is idle. */
  ghost predicate Completes(r: Reducers, t: Turn, u: Turn) {
    && u.history.Keys == t.history.Keys
    && (forall id :: id in t.history ==>
          u.history[id] ==
            if OfRun(t, id) then
              t.history[id].(status := Some(Done), blocks := Some(r.finalize(t.history[id].blocks).GetOr([])))
            else t.history[id])
    && u.activeIds == {} && u.backfilling == t.backfilling
    && u.session == (
         if t.session.None? then None
         else Some(t.session.value.(streamState := StreamState.Idle, lastStreamError := None,
                                    pendingInterrupts := [], pendingInterrupt := None)))
  }

  lemma TargetsOfRun(t: Turn, id: MessageId)
    ensures id in ExistingTargets(t) <==> OfRun(t, id)
  {
    var targets := set i | i in t.activeIds && i in t.history;
    if k :| k in t.activeIds && k in t.history {
      assert k in targets;
    } else {
      assert targets == {};
    }
  }

  lemma FinishOutcome(r: Reducers, t: Turn)
    ensures Completes(r, t, FinishCompletion(r, t))
  {
    var u := FinishCompletion(r, t);
    assert u.history == Closed(r, t.history, ExistingTargets(t));
    forall id | id in t.history
      ensures
        u.history[id] ==
          if OfRun(t, id) then
            t.history[id].(status := Some(Done), blocks := Some(r.finalize(t.history[id].blocks).GetOr([])))
          else t.history[id]
    {
      if id in ExistingTargets(t) || OfRun(t, id) {
        TargetsOfRun(t, id);
      }
      assert t.history[id].extras + map[] == t.history[id].extras;
    }
  }

  /** Closing with an error text finalises the targets all the same, and adds one block that shows the text. */
  lemma ErrorBlockOutcome(
      r: Reducers, history: map<string, Message>, targets: set<MessageId>, errorText: string, stamp: string, id: string)
    requires id in history
    ensures
      var after := ClosedWithError(r, history, targets, errorText, stamp);
      && after.Keys == history.Keys
      && (id !in targets ==> after[id] == history[id])
      && (id in targets ==>
            var m, finalised := after[id], r.finalize(history[id].blocks).GetOr([]);
            && m == history[id].(status := Some(Done), blocks := m.blocks)
            && m.blocks.Some? && |m.blocks.value| == |finalised| + 1 && m.blocks.value[..|finalised|] == finalised
            && m.blocks.value[|finalised|].content == "[Stream Error: " + errorText + "]"
            && m.blocks.value[|finalised|].kind == "system_error" && m.blocks.value[|finalised|].isFinished)
  {
    assert history[id].extras + map[] == history[id].extras;
  }

  /** A message that shows something: an agent message with text or blocks. */
  predicate Renders(m: Message) {
    m.role == Agent && (Trim(m.content) != "" || (m.blocks.Some? && |m.blocks.value| > 0))
  }

  /** An event was observed and messages of the run are there, but none shows anything. */
  ghost predicate ShowsNothing(t: Turn) {
    && t.observed
    && (exists id :: OfRun(t, id))
    && (forall id :: OfRun(t, id) ==> !Renders(t.history[id]))
  }

  /**
   * A persisted completion flushes and then closes the messages of the run, unless these show nothing:
   * then it is deferred until the history page arrives.
   */
  lemma CompletionOutcome(r: Reducers, c: Config, d: StreamData, now: int)
    requires Inv(c) && Enabled(c, Datum(Payload(d), now)) && d.status.Some? && d.status.value.persisted
    ensures
      var s, n := Settled(r, Take(r, c.turn, d, now)), Step(r, c, Datum(Payload(d), now));
      && n.turn.endings == c.turn.endings + [Completion]
      && if ShowsNothing(s) then
           n.turn.history == s.history && n.turn.session == s.session && n.turn.activeIds == s.activeIds && n.turn.backfilling.Some?
         else Completes(r, s, n.turn)
  {
    var u := Take(r, c.turn, d, now);
    TakeKeepsRun(r, c, d, now);
    CompleteOutcome(r, u);
    TakeKeeps(r, c.turn, d, now);
  }

  lemma CompleteOutcome(r: Reducers, u: Turn)
    requires !u.terminalHandled
    ensures
      var s, n := Settled(r, u), CompleteStreaming(r, u);
      && n.endings == u.endings + [Completion]
      && if ShowsNothing(s) then
           n.history == s.history && n.session == s.session && n.activeIds == s.activeIds && n.backfilling.Some?
         else Completes(r, s, n)
  {
    var e := Flush(r, Ended(u, Completion));
    var s, targets := Settled(r, u), ExistingTargets(u);
    SameTargets(r, u);
    DeferralDecision(s, e, targets);
    if !NeedsBackfill(e, targets) {
      assert CompleteStreaming(r, u) == FinishCompletion(r, e);
      FinishOutcome(r, e);
      assert forall id :: OfRun(e, id) <==> OfRun(s, id);
    }
  }

  lemma SameTargets(r: Reducers, u: Turn)
    ensures ExistingTargets(Settled(r, u)) == ExistingTargets(u)
  {
    assert Settled(r, u).history.Keys == u.history.Keys;
    assert (set id | id in u.activeIds && id in u.history) == (set id | id in u.activeIds && id in Settled(r, u).history);
  }

  lemma DeferralDecision(s: Turn, e: Turn, targets: set<MessageId>)
    requires e.history == s.history && e.observed == s.observed && targets == ExistingTargets(s)
    ensures NeedsBackfill(e, targets) <==> ShowsNothing(s)
  {
    forall id: MessageId ensures id in targets <==> OfRun(s, id) {
      TargetsOfRun(s, id);
    }
    forall id | OfRun(s, id) ensures Canonical(id) && id in targets {
    }
    if ShowsNothing(s) {
      var id :| OfRun(s, id);
      assert id in targets;
    }
    if targets != {} {
      var id :| id in targets;
      assert OfRun(s, id);
    }
  }

  /** The deferred end: the page, if it is not empty, is merged in, and the messages of the run are closed. */
  lemma BackfillOutcome(r: Reducers, c: Config, recovered: seq<Message>)
    requires Enabled(c, BackfillArrived(recovered))
    ensures
      var n := Step(r, c, BackfillArrived(recovered));
      var history := if recovered == [] then c.turn.history else MergedHistory(c.turn.history, recovered);
      Completes(r, c.turn.(history := history, backfilling := None), n.turn)
  {
    var m := if recovered == [] then c.turn else c.turn.(history := MergedHistory(c.turn.history, recovered));
    FinishOutcome(r, m.(backfilling := None));
  }

  predicate HeaderOf(n: Message, m: Message) {
    n.content == m.content && n.createdAt == m.createdAt && n.role == m.role
  }

  lemma PageInHistory(history: map<string, Message>, front: seq<Message>, m: Message)
    requires Trim(m.id) != ""
    ensures
      var h := MergedHistory(history, front + [m]);
      Trim(m.id) in h && HeaderOf(h[Trim(m.id)], m)
  {
    var id, page := Trim(m.id), front + [m];
    SettleLast(Lookup(history, id), front, m, id, false);
    assert m in page && id in IncomingIds(page);
  }

  lemma CompletedKeepsHeaders(r: Reducers, t: Turn, u: Turn, id: string)
    requires Completes(r, t, u) && id in t.history
    ensures id in u.history && HeaderOf(u.history[id], t.history[id])
  {
  }

  /** The last copy of a message on the page decides its text, whatever had been streamed. */
  lemma PageDecidesText(r: Reducers, c: Config, front: seq<Message>, m: Message)
    requires Enabled(c, BackfillArrived(front + [m])) && Trim(m.id) != ""
    ensures
      var n, id := Step(r, c, BackfillArrived(front + [m])).turn, Trim(m.id);
      id in n.history && HeaderOf(n.history[id], m)
  {
    var page := front + [m];
    PageInHistory(c.turn.history, front, m);
    BackfillOutcome(r, c, page);
    var merged := c.turn.(history := MergedHistory(c.turn.history, page), backfilling := None);
    CompletedKeepsHeaders(r, merged, Step(r, c, BackfillArrived(page)).turn, Trim(m.id));
  }

  // ---------------------------------------------------------------- answers without a stream

  /** Only the active message changed: it shows this text and is done. */
  predicate Answers(before: map<string, Message>, u: Turn, text: string) {
    && u.history.Keys == before.Keys
    && (forall id :: id in before && id != u.active ==> u.history[id] == before[id])
    && (u.active in before ==>
          u.history[u.active] ==
            before[u.active].(content := text, status := Some(Done), extras := u.history[u.active].extras))
  }

  /** An authentication failure flushes, shows its message and leaves a failed session with nothing pending. */
  lemma AuthOutcome(r: Reducers, c: Config, message: string)
    requires Enabled(c, AuthFailed(message))
    ensures
      var n := Step(r, c, AuthFailed(message));
      && Answers(Settled(r, c.turn).history, n.turn, message) && n.stage.Ready?
      && n.turn.session == (
           if c.turn.session.None? then None
           else Some(c.turn.session.value.(streamState := StreamState.Failed, lastStreamError := Some(message),
                                           pendingInterrupts := [], pendingInterrupt := None)))
  {
    assert forall m: Message :: m.extras + map[] == m.extras;
  }

  lemma AnsweredMessage(m: Message, content: string)
    ensures
      var n := ApplyPatch(m, Patch(None, Some(content), Some(Done), None, map["errorCode" := None, "errorMessage" := None]));
      NoError(n) && n == m.(content := content, status := Some(Done), extras := n.extras)
  {
  }

  /** A JSON answer is the content of the active message, and leaves an idle session with nothing pending. */
  lemma JsonOutcome(r: Reducers, c: Config, content: string)
    requires Enabled(c, JsonAnswered(content))
    ensures
      var n := Step(r, c, JsonAnswered(content));
      && Answers(c.turn.history, n.turn, content) && n.stage.Ready?
      && (n.turn.active in n.turn.history ==> NoError(n.turn.history[n.turn.active]))
      && n.turn.session == (
           if c.turn.session.None? then None
           else Some(c.turn.session.value.(streamState := StreamState.Idle, lastStreamError := None,
                                           pendingInterrupts := [], pendingInterrupt := None)))
  {
    if c.turn.active in c.turn.history {
      AnsweredMessage(c.turn.history[c.turn.active], content);
    }
    assert Step(r, c, JsonAnswered(content)).turn == AfterJsonSuccess(c.turn, content);
  }

  /** A JSON request that fails fails the run for good, whatever its code. */
  lemma JsonFailureOutcome(r: Reducers, c: Config, f: Failure)
    requires Inv(c) && Enabled(c, JsonFailed(f))
    ensures Fails(r, c.turn, Step(r, c, JsonFailed(f)).turn, f)
  {
    FailureOutcome(r, c.turn, f);
  }

  // ---------------------------------------------------------------- the text of an error

  lemma {:induction false} NamesAreListed(one: seq<string>, two: seq<string>)
    requires one != [] && two != []
    ensures CommaSeparated(one + two) == CommaSeparated(one) + ", " + CommaSeparated(two)
    ensures CommaSeparated([one[0]]) == one[0]
  {
    if |one| == 1 {
      assert (one + two)[1..] == two;
    } else {
      NamesAreListed(one[1..], two);
      assert (one + two)[1..] == one[1..] + two;
      assert one[0] + ", " + (CommaSeparated(one[1..]) + ", " + CommaSeparated(two))
        == (one[0] + ", " + CommaSeparated(one[1..])) + ", " + CommaSeparated(two);
    }
  }

  /** The text shown: the missing parameters first; the upstream text only in place of one of two generic texts. */
  lemma ShownText(f: Failure)
    ensures
      var named := f.missingParams.Some? && CommaSeparated(f.missingParams.value.names) != "";
      var upstream := f.upstreamError.Some? && f.upstreamError.value.message.Some? && Trim(f.upstreamError.value.message.value) != "";
      var generic := Trim(f.text) == "Upstream streaming failed" || Trim(f.text) == "Stream error.";
      && (named ==> f.Shown() == "Missing required upstream parameters: " + CommaSeparated(f.missingParams.value.names))
      && (!named && upstream && generic ==> f.Shown() == Trim(f.upstreamError.value.message.value))
      && (!named && !(upstream && generic) ==> f.Shown() == f.text)
  {
  }
}
