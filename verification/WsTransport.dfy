/**
 * One WebSocket attempt (frontend/services/chatTransportWs.ts): the promise that the socket
 * handlers, the late text resolutions, the two timers and a cancellation race to settle.
 */
module WsTransport {
  import opened Transport

  /** What `onData` does with a datum; the JSON text `null`, for one, makes it throw. */
  datatype Answer = GoOn | Stop | Throw

  /** A resolved message text: empty, unreadable or not JSON; or JSON, with the answer `onData` gives to it. */
  datatype Text = Ignored | Json(answer: Answer)

  /** `isOpen` and `closeCalled` say what happened to the socket itself; `pending` counts unresolved texts. */
  datatype State = State(
    hasReceivedData: bool,
    settled: bool,
    closed: bool,
    connectTimer: bool,
    idleTimer: bool,
    cancelled: bool,
    registered: bool,
    isOpen: bool,
    closeCalled: bool,
    pending: nat,
    failures: nat,
    callbacks: seq<Callback>)

  datatype Event =
    | Open
    | Message
    | TextResolved(text: Text)
    | SocketError
    | SocketClose
    | ConnectTimeout
    | IdleTimeout
    | Cancel

  /** The state when the executor of the promise has run. */
  function Start(failures: nat): State {
    State(false, false, false, true, false, false, true, false, false, 0, failures, [])
  }

  function Finalize(s: State, mode: Mode): State {
    if s.settled then s
    else s.(settled := true,
            closeCalled := s.closeCalled || !s.closed,
            connectTimer := false, idleTimer := false, registered := false,
            callbacks := s.callbacks + [Settle(mode)])
  }

  /** How a broken or idle socket ends: cancelled, after data, or before any data. */
  function Break(s: State, code: string): State {
    if s.settled then s
    else if s.cancelled then Finalize(s, Resolve)
    else if s.hasReceivedData then Finalize(s.(callbacks := s.callbacks + [StreamError(code)]), Resolve)
    else Finalize(s, Reject)
  }

  function OnText(s: State, text: Text): State
    requires s.pending > 0
  {
    var t := s.(pending := s.pending - 1);
    if text.Ignored? || s.settled then t
    else
      var u := t.(hasReceivedData := true);
      match text.answer
      case GoOn => u.(callbacks := s.callbacks + [Data(false)])
      case Stop => Finalize(u.(callbacks := s.callbacks + [Data(true)]), Resolve)
      case Throw => Finalize(u.(callbacks := s.callbacks + [DataThrew]), Reject)
  }

  /** The events the environment can produce in a state. */
  predicate Enabled(s: State, e: Event) {
    match e
    case Open => !s.isOpen && !s.closeCalled && !s.closed
    case Message => s.isOpen && !s.closed
    case TextResolved(_) => s.pending > 0
    case SocketError => !s.closed
    case SocketClose => !s.closed
    case ConnectTimeout => s.connectTimer
    case IdleTimeout => s.idleTimer
    case Cancel => s.registered
  }

  function Step(s: State, e: Event): State
    requires e.TextResolved? ==> s.pending > 0
  {
    match e
    case Open => s.(isOpen := true, connectTimer := false, idleTimer := true)
    case Message => if s.settled then s else s.(idleTimer := true, failures := 0, pending := s.pending + 1)
    case TextResolved(text) => OnText(s, text)
    case SocketError => Break(s, "stream_error")
    case SocketClose => Break(s.(closed := true), "stream_closed")
    case ConnectTimeout => Finalize(s.(connectTimer := false), Reject)
    case IdleTimeout => Break(s.(idleTimer := false), "timeout")
    case Cancel => s.(cancelled := true, closeCalled := true, registered := false)
  }

  /** The outer `try`: a rejected promise counts as a failure and makes the attempt return false. */
  function Conclude(s: State): (bool, nat) {
    if s.callbacks != [] && s.callbacks[|s.callbacks| - 1] == Settle(Reject) then (false, s.failures + 1)
    else (true, s.failures)
  }

  // ---------------------------------------------------------------- the attempt object

  class WsAttempt {
    var hasReceivedData: bool
    var settled: bool
    var closed: bool
    var connectTimer: bool
    var idleTimer: bool
    var cancelled: bool
    var registered: bool
    var isOpen: bool
    var closeCalled: bool
    var pending: nat
    var failures: nat
    var callbacks: seq<Callback>

    function View(): State
      reads this
    {
      State(hasReceivedData, settled, closed, connectTimer, idleTimer, cancelled, registered,
            isOpen, closeCalled, pending, failures, callbacks)
    }

    constructor (failures: nat)
      ensures View() == Start(failures)
    {
      hasReceivedData, settled, closed := false, false, false;
      connectTimer, idleTimer := true, false;
      cancelled, registered, isOpen, closeCalled := false, true, false, false;
      pending, callbacks := 0, [];
      this.failures := failures;
    }

    method Cleanup()
      modifies this
      ensures View() == old(View()).(connectTimer := false, idleTimer := false, registered := false)
    {
      if connectTimer {
        connectTimer := false;
      }
      if idleTimer {
        idleTimer := false;
      }
      registered := false;
    }

    method FinalizeAttempt(mode: Mode)
      modifies this
      ensures View() == Finalize(old(View()), mode)
    {
      if settled {
        return;
      }
      settled := true;
      if !closed {
        closeCalled := true;
      }
      Cleanup();
      callbacks := callbacks + [Settle(mode)];
    }

    method OnStreamError(code: string)
      modifies this`callbacks
      ensures callbacks == old(callbacks) + [StreamError(code)]
    {
      callbacks := callbacks + [StreamError(code)];
    }

    method OnIdleTimeout()
      modifies this
      ensures View() == Step(old(View()), IdleTimeout)
    {
      idleTimer := false;
      if settled {
        return;
      }
      if cancelled {
        FinalizeAttempt(Resolve);
        return;
      }
      if hasReceivedData {
        OnStreamError("timeout");
        FinalizeAttempt(Resolve);
        return;
      }
      FinalizeAttempt(Reject);
    }

    method OnOpen()
      modifies this
      ensures View() == Step(old(View()), Open)
    {
      isOpen := true;
      connectTimer := false;
      idleTimer := true;
    }

    method OnMessage()
      modifies this
      ensures View() == Step(old(View()), Message)
    {
      if settled {
        return;
      }
      idleTimer := true;
      failures := 0;
      pending := pending + 1;
    }

    method OnTextResolved(text: Text)
      requires pending > 0
      modifies this
      ensures View() == Step(old(View()), TextResolved(text))
    {
      pending := pending - 1;
      if text.Ignored? || settled {
        return;
      }
      hasReceivedData := true;
      if text.answer.Throw? {
        callbacks := callbacks + [DataThrew];
        FinalizeAttempt(Reject);
        return;
      }
      var shouldResolve := text.answer.Stop?;
      callbacks := callbacks + [Data(shouldResolve)];
      if shouldResolve {
        FinalizeAttempt(Resolve);
      }
    }

    method OnError()
      modifies this
      ensures View() == Step(old(View()), SocketError)
    {
      if settled {
        return;
      }
      if cancelled {
        FinalizeAttempt(Resolve);
        return;
      }
      if !hasReceivedData {
        FinalizeAttempt(Reject);
        return;
      }
      OnStreamError("stream_error");
      FinalizeAttempt(Resolve);
    }

    method OnClose()
      modifies this
      ensures View() == Step(old(View()), SocketClose)
    {
      closed := true;
      if settled {
        return;
      }
      if cancelled {
        FinalizeAttempt(Resolve);
        return;
      }
      if !hasReceivedData {
        FinalizeAttempt(Reject);
        return;
      }
      OnStreamError("stream_closed");
      FinalizeAttempt(Resolve);
    }

    method OnConnectTimeout()
      modifies this
      ensures View() == Step(old(View()), ConnectTimeout)
    {
      connectTimer := false;
      if settled {
        return;
      }
      FinalizeAttempt(Reject);
    }

    /** The socket part of `cancelSession`, which finds the socket through the connection map. */
    method CancelSocket()
      modifies this
      ensures View() == Step(old(View()), Cancel)
    {
      cancelled := true;
      closeCalled := true;
      registered := false;
    }
  }

  // ---------------------------------------------------------------- every interleaving

  predicate Runs(s: State, events: seq<Event>)
    decreases events
  {
    events != [] ==> Enabled(s, events[0]) && Runs(Step(s, events[0]), events[1..])
  }

  function Run(s: State, events: seq<Event>): State
    requires Runs(s, events)
    decreases events
  {
    if events == [] then s else Run(Step(s, events[0]), events[1..])
  }

  predicate AllData(callbacks: seq<Callback>) {
    forall i :: 0 <= i < |callbacks| ==> callbacks[i] == Data(false)
  }

  /**
   * The last callbacks of a settled attempt, after the data callbacks `front` that did not stop it:
   * a stopping data callback; one that threw, with a reject; one stream error, only after data and
   * not when cancelled; a plain resolve, only when cancelled; or a reject, only without data.
   */
  predicate Ending(front: seq<Callback>, last: seq<Callback>, cancelled: bool) {
    || last == [Data(true), Settle(Resolve)]
    || last == [DataThrew, Settle(Reject)]
    || (last == [Settle(Resolve)] && cancelled)
    || (last == [Settle(Reject)] && front == [])
    || (|last| == 2 && last[0].StreamError? && last[1] == Settle(Resolve) && front != [] && !cancelled)
  }

  predicate Finished(callbacks: seq<Callback>, cancelled: bool) {
    exists n | 0 <= n <= |callbacks| :: AllData(callbacks[..n]) && Ending(callbacks[..n], callbacks[n..], cancelled)
  }

  predicate Inv(s: State) {
    && (s.settled ==> !s.connectTimer && !s.idleTimer && !s.registered && (s.closeCalled || s.closed))
    && (s.closed ==> s.settled)
    && (s.settled ==> Finished(s.callbacks, s.cancelled))
    && (!s.settled ==> AllData(s.callbacks) && (s.hasReceivedData <==> s.callbacks != []))
    && (!s.settled ==> (s.connectTimer || s.idleTimer))
    && (s.isOpen ==> !s.connectTimer)
    && (s.hasReceivedData || s.pending > 0 ==> s.isOpen)
    && (!s.settled && s.registered ==> !s.cancelled)
    && (s.hasReceivedData || s.pending > 0 ==> s.failures == 0)
  }

  lemma FinishedBy(s: State, front: seq<Callback>, last: seq<Callback>)
    requires s.callbacks == front + last && AllData(front) && Ending(front, last, s.cancelled)
    ensures Finished(s.callbacks, s.cancelled)
  {
    var n := |front|;
    assert s.callbacks[..n] == front && s.callbacks[n..] == last;
  }

  lemma BreakKeepsInv(s: State, code: string)
    requires !s.settled && AllData(s.callbacks) && (s.hasReceivedData <==> s.callbacks != [])
    ensures var t := Break(s, code); t.settled && Finished(t.callbacks, t.cancelled)
  {
    var t := Break(s, code);
    if !s.cancelled && s.hasReceivedData {
      FinishedBy(t, s.callbacks, [StreamError(code), Settle(Resolve)]);
    } else {
      FinishedBy(t, s.callbacks, [if s.cancelled then Settle(Resolve) else Settle(Reject)]);
    }
  }

  lemma TextKeepsInv(s: State, text: Text)
    requires Inv(s) && s.pending > 0
    ensures Inv(OnText(s, text))
  {
    if text.Json? && text.answer.Stop? && !s.settled {
      FinishedBy(OnText(s, text), s.callbacks, [Data(true), Settle(Resolve)]);
    } else if text.Json? && text.answer.Throw? && !s.settled {
      FinishedBy(OnText(s, text), s.callbacks, [DataThrew, Settle(Reject)]);
    }
  }

  lemma OpenKeepsInv(s: State)
    requires Inv(s) && Enabled(s, Open)
    ensures Inv(Step(s, Open))
  {
  }

  lemma MessageKeepsInv(s: State)
    requires Inv(s) && Enabled(s, Message)
    ensures Inv(Step(s, Message))
  {
  }

  /** A socket or an idle timer that breaks a settled attempt changes nothing. */
  lemma BrokenKeepsInv(s: State, code: string)
    requires s.settled ==> Inv(s)
    requires !s.settled ==>
      && AllData(s.callbacks) && (s.hasReceivedData <==> s.callbacks != [])
      && (s.isOpen ==> !s.connectTimer) && (s.hasReceivedData || s.pending > 0 ==> s.isOpen && s.failures == 0)
    ensures Inv(Break(s, code))
  {
    if !s.settled {
      BreakKeepsInv(s, code);
    }
  }

  lemma ConnectTimeoutKeepsInv(s: State)
    requires Inv(s) && Enabled(s, ConnectTimeout)
    ensures Inv(Step(s, ConnectTimeout))
  {
    FinishedBy(Step(s, ConnectTimeout), [], [Settle(Reject)]);
  }

  lemma CancelKeepsInv(s: State)
    requires Inv(s) && Enabled(s, Cancel)
    ensures Inv(Step(s, Cancel))
  {
  }

  lemma StepKeepsInv(s: State, e: Event)
    requires Inv(s) && Enabled(s, e)
    ensures Inv(Step(s, e))
  {
    match e
    case Open => OpenKeepsInv(s);
    case Message => MessageKeepsInv(s);
    case TextResolved(text) => TextKeepsInv(s, text);
    case SocketError => BrokenKeepsInv(s, "stream_error");
    case SocketClose => BrokenKeepsInv(s.(closed := true), "stream_closed");
    case ConnectTimeout => ConnectTimeoutKeepsInv(s);
    case IdleTimeout => BrokenKeepsInv(s.(idleTimer := false), "timeout");
    case Cancel => CancelKeepsInv(s);
  }

  lemma {:induction false} RunKeepsInv(s: State, events: seq<Event>)
    requires Inv(s) && Runs(s, events)
    ensures Inv(Run(s, events))
    decreases events
  {
    if events != [] {
      StepKeepsInv(s, events[0]);
      RunKeepsInv(Step(s, events[0]), events[1..]);
    }
  }

  /** Once settled, no event makes a callback or starts a timer. */
  lemma SettledIsFinal(s: State, e: Event)
    requires Inv(s) && s.settled && Enabled(s, e)
    ensures Step(s, e).settled && Step(s, e).callbacks == s.callbacks
    ensures !Step(s, e).connectTimer && !Step(s, e).idleTimer
  {
  }

  /**
   * In every interleaving: before settling only non-stopping data was delivered; afterwards the
   * callbacks have one of the five endings, no timer is live and the socket is unregistered.
   */
  lemma EveryInterleaving(failures: nat, events: seq<Event>)
    requires Runs(Start(failures), events)
    ensures
      var s := Run(Start(failures), events);
      && (!s.settled ==> AllData(s.callbacks))
      && (s.settled ==> Finished(s.callbacks, s.cancelled) && !s.connectTimer && !s.idleTimer && !s.registered)
  {
    RunKeepsInv(Start(failures), events);
  }

  // ---------------------------------------------------------------- the attempt as its callbacks

  function Broken(callbacks: seq<Callback>, cancelled: bool, code: string): seq<Callback> {
    if cancelled then [Settle(Resolve)]
    else if callbacks == [] then [Settle(Reject)]
    else [StreamError(code), Settle(Resolve)]
  }

  /** What an attempt that has not settled answers to an event, told from its callbacks and the cancellation alone. */
  function Reply(callbacks: seq<Callback>, cancelled: bool, e: Event): seq<Callback> {
    match e
    case TextResolved(Json(GoOn)) => [Data(false)]
    case TextResolved(Json(Stop)) => [Data(true), Settle(Resolve)]
    case TextResolved(Json(Throw)) => [DataThrew, Settle(Reject)]
    case ConnectTimeout => [Settle(Reject)]
    case IdleTimeout => Broken(callbacks, cancelled, "timeout")
    case SocketError => Broken(callbacks, cancelled, "stream_error")
    case SocketClose => Broken(callbacks, cancelled, "stream_closed")
    case _ => []
  }

  predicate Over(callbacks: seq<Callback>) {
    callbacks != [] && callbacks[|callbacks| - 1].Settle?
  }

  /** The callbacks after more events; nothing follows a settlement. */
  function Replies(callbacks: seq<Callback>, cancelled: bool, events: seq<Event>): seq<Callback>
    decreases events
  {
    if events == [] || Over(callbacks) then callbacks
    else Replies(callbacks + Reply(callbacks, cancelled, events[0]), cancelled || events[0].Cancel?, events[1..])
  }

  lemma OverExactlyWhenSettled(s: State)
    requires Inv(s)
    ensures Over(s.callbacks) <==> s.settled
  {
    if s.settled {
      SettledLast(s.callbacks, s.cancelled);
    }
  }

  lemma StepReplies(s: State, e: Event)
    requires Inv(s) && Enabled(s, e)
    ensures
      var t := Step(s, e);
      && t.callbacks == s.callbacks + (if s.settled then [] else Reply(s.callbacks, s.cancelled, e))
      && t.cancelled == (s.cancelled || e.Cancel?)
      && t.failures == (if e.Message? && !s.settled then 0 else s.failures)
  {
    assert s.callbacks + [] == s.callbacks;
    match e
    case TextResolved(Json(Stop)) => assert s.callbacks + [Data(true)] + [Settle(Resolve)] == s.callbacks + [Data(true), Settle(Resolve)];
    case TextResolved(Json(Throw)) => assert s.callbacks + [DataThrew] + [Settle(Reject)] == s.callbacks + [DataThrew, Settle(Reject)];
    case IdleTimeout => BreakReplies(s.(idleTimer := false), "timeout");
    case SocketError => BreakReplies(s, "stream_error");
    case SocketClose => BreakReplies(s.(closed := true), "stream_closed");
    case _ =>
  }

  lemma BreakReplies(s: State, code: string)
    requires !s.settled ==> (s.hasReceivedData <==> s.callbacks != [])
    ensures
      var t := Break(s, code);
      && t.callbacks == s.callbacks + (if s.settled then [] else Broken(s.callbacks, s.cancelled, code))
      && t.cancelled == s.cancelled && t.failures == s.failures
  {
    assert s.callbacks + [] == s.callbacks;
    assert s.callbacks + [StreamError(code)] + [Settle(Resolve)] == s.callbacks + [StreamError(code), Settle(Resolve)];
  }

  /** In every interleaving the callbacks are the replies: flags, timers and late texts of the attempt do not show in them. */
  lemma {:induction false} CallbacksAreReplies(s: State, events: seq<Event>)
    requires Inv(s) && Runs(s, events)
    ensures Run(s, events).callbacks == Replies(s.callbacks, s.cancelled, events)
    decreases events
  {
    OverExactlyWhenSettled(s);
    if events != [] {
      StepKeepsInv(s, events[0]);
      StepReplies(s, events[0]);
      CallbacksAreReplies(Step(s, events[0]), events[1..]);
      if s.settled {
        assert s.callbacks + [] == s.callbacks;
        OverStays(s.callbacks, s.cancelled || events[0].Cancel?, events[1..]);
      }
    }
  }

  lemma OverStays(callbacks: seq<Callback>, cancelled: bool, events: seq<Event>)
    requires Over(callbacks)
    ensures Replies(callbacks, cancelled, events) == callbacks
  {
  }

  /** The socket is closed by the attempt when it is cancelled or settles, but for a socket that closed by itself. */
  lemma ClosesOnce(s: State, e: Event)
    requires Inv(s) && Enabled(s, e)
    ensures
      var t := Step(s, e);
      t.closeCalled <==> s.closeCalled || e.Cancel? || (t.settled && !s.settled && !e.SocketClose?)
  {
  }

  /** The event that a stream error reports. */
  predicate Causes(e: Event, code: string) {
    || (e.IdleTimeout? && code == "timeout")
    || (e.SocketError? && code == "stream_error")
    || (e.SocketClose? && code == "stream_closed")
  }

  /** Every reported error names an event that happened, after data and before any cancellation. */
  lemma {:induction false} ErrorNamesItsCause(s: State, events: seq<Event>, code: string)
    requires Inv(s) && Runs(s, events)
    requires StreamError(code) !in s.callbacks && StreamError(code) in Run(s, events).callbacks
    ensures !s.cancelled && exists i :: 0 <= i < |events| && Causes(events[i], code)
    decreases events
  {
    var next := Step(s, events[0]);
    StepKeepsInv(s, events[0]);
    StepReplies(s, events[0]);
    if StreamError(code) !in next.callbacks {
      ErrorNamesItsCause(next, events[1..], code);
      var i :| 0 <= i < |events[1..]| && Causes(events[1..][i], code);
      assert Causes(events[i + 1], code);
    }
  }

  /** A cancelled attempt reports no error any more, and however its socket breaks it resolves. */
  lemma CancelIsQuiet(s: State, events: seq<Event>, code: string)
    requires Inv(s) && Enabled(s, Cancel) && Runs(Step(s, Cancel), events)
    ensures StreamError(code) in Run(Step(s, Cancel), events).callbacks ==> StreamError(code) in s.callbacks
    ensures forall e: Event :: e.SocketError? || e.SocketClose? || e.IdleTimeout? ==>
      !s.settled ==> Step(Step(s, Cancel), e).callbacks == s.callbacks + [Settle(Resolve)]
  {
    StepKeepsInv(s, Cancel);
    if StreamError(code) !in s.callbacks && StreamError(code) in Run(Step(s, Cancel), events).callbacks {
      ErrorNamesItsCause(Step(s, Cancel), events, code);
    }
  }

  lemma SettledLast(callbacks: seq<Callback>, cancelled: bool)
    requires Finished(callbacks, cancelled)
    ensures callbacks != [] && callbacks[|callbacks| - 1].Settle?
    ensures forall i :: 0 <= i < |callbacks| - 1 ==> !callbacks[i].Settle?
  {
    var n :| 0 <= n <= |callbacks| && AllData(callbacks[..n]) && Ending(callbacks[..n], callbacks[n..], cancelled);
    var front, last := callbacks[..n], callbacks[n..];
    forall i | 0 <= i < |callbacks| - 1 ensures !callbacks[i].Settle? {
      assert i < n ==> callbacks[i] == front[i];
      assert i >= n ==> callbacks[i] == last[i - n];
    }
    assert callbacks[|callbacks| - 1] == last[|last| - 1];
  }

  /** The attempt returns true exactly if its promise resolved; a rejection counts as one failure more, and any data clears the count. */
  lemma AttemptAnswers(failures: nat, events: seq<Event>)
    requires Runs(Start(failures), events) && Run(Start(failures), events).settled
    ensures
      var s := Run(Start(failures), events);
      && (Conclude(s).0 <==> Settle(Resolve) in s.callbacks)
      && (!Conclude(s).0 <==> Settle(Reject) in s.callbacks)
      && Conclude(s).1 == s.failures + (if Conclude(s).0 then 0 else 1)
      && (s.hasReceivedData ==> s.failures == 0)
  {
    RunKeepsInv(Start(failures), events);
    var s := Run(Start(failures), events);
    SettledLast(s.callbacks, s.cancelled);
  }

  function SettleCount(callbacks: seq<Callback>): nat {
    if callbacks == [] then 0 else (if callbacks[0].Settle? then 1 else 0) + SettleCount(callbacks[1..])
  }

  function ErrorCount(callbacks: seq<Callback>): nat {
    if callbacks == [] then 0 else (if callbacks[0].StreamError? then 1 else 0) + ErrorCount(callbacks[1..])
  }

  predicate Delivered(callbacks: seq<Callback>) {
    exists i :: 0 <= i < |callbacks| && (callbacks[i].Data? || callbacks[i].DataThrew?)
  }

  predicate Threw(callbacks: seq<Callback>) {
    DataThrew in callbacks
  }

  lemma {:induction false} CountAfterData(front: seq<Callback>, last: seq<Callback>)
    requires AllData(front)
    ensures SettleCount(front + last) == SettleCount(last) && ErrorCount(front + last) == ErrorCount(last)
  {
    if front == [] {
      assert front + last == last;
    } else {
      assert (front + last)[1..] == front[1..] + last;
      CountAfterData(front[1..], last);
    }
  }

  lemma EndingCounts(front: seq<Callback>, last: seq<Callback>, cancelled: bool)
    requires AllData(front) && Ending(front, last, cancelled)
    ensures SettleCount(front + last) == 1 && ErrorCount(front + last) <= 1
    ensures ErrorCount(front + last) == 1 ==> front != [] && !cancelled
    ensures last != [] && last[|last| - 1].Settle?
    ensures last[|last| - 1] == Settle(Reject) ==> (front == [] && |last| == 1) || last[0] == DataThrew
  {
    CountAfterData(front, last);
    if |last| == 2 {
      assert last[1..] == [last[1]] && last[1..][1..] == [];
      assert SettleCount(last[1..]) == 1 && ErrorCount(last[1..]) == 0;
    } else {
      assert last[1..] == [];
    }
  }

  /** A rejected attempt delivered data exactly when `onData` threw. */
  lemma EndingDelivers(front: seq<Callback>, last: seq<Callback>, cancelled: bool)
    requires AllData(front) && Ending(front, last, cancelled)
    ensures front != [] ==> Delivered(front + last)
    ensures last[|last| - 1] == Settle(Reject) ==> (Delivered(front + last) <==> Threw(front + last))
    ensures Threw(front + last) <==> last[0] == DataThrew
  {
    if front != [] {
      assert (front + last)[0] == Data(false);
    }
    if last[0] == DataThrew {
      assert (front + last)[|front|] == DataThrew;
    } else {
      assert forall i :: 0 <= i < |front + last| ==> (front + last)[i] != DataThrew;
    }
  }

  /** One settlement, at most one error and only after data, and a reject after data only for an exception. */
  predicate CountsOk(callbacks: seq<Callback>, cancelled: bool) {
    && SettleCount(callbacks) == 1 && ErrorCount(callbacks) <= 1
    && (ErrorCount(callbacks) == 1 ==> Delivered(callbacks) && !cancelled)
    && callbacks != []
    && (callbacks[|callbacks| - 1] == Settle(Reject) ==> (Delivered(callbacks) <==> Threw(callbacks)))
  }

  lemma JoinedCounts(front: seq<Callback>, last: seq<Callback>, cancelled: bool)
    requires AllData(front) && Ending(front, last, cancelled)
    ensures CountsOk(front + last, cancelled)
  {
    EndingCounts(front, last, cancelled);
    EndingDelivers(front, last, cancelled);
  }

  lemma FinishedCounts(callbacks: seq<Callback>, cancelled: bool)
    requires Finished(callbacks, cancelled)
    ensures CountsOk(callbacks, cancelled)
  {
    var n :| 0 <= n <= |callbacks| && AllData(callbacks[..n]) && Ending(callbacks[..n], callbacks[n..], cancelled);
    JoinedCounts(callbacks[..n], callbacks[n..], cancelled);
    assert callbacks == callbacks[..n] + callbacks[n..];
  }

  /**
   * The promise settles at most once; a stream error is reported at most once, only after data and
   * never on a cancelled socket; a rejected attempt delivered data exactly when `onData` threw, so
   * that otherwise a fallback repeats nothing.
   */
  lemma PromiseContract(failures: nat, events: seq<Event>)
    requires Runs(Start(failures), events)
    ensures
      var s := Run(Start(failures), events);
      && SettleCount(s.callbacks) == (if s.settled then 1 else 0)
      && ErrorCount(s.callbacks) <= 1
      && (ErrorCount(s.callbacks) == 1 ==> Delivered(s.callbacks) && !s.cancelled)
      && (s.settled && !Conclude(s).0 ==> (Delivered(s.callbacks) <==> Threw(s.callbacks)))
  {
    RunKeepsInv(Start(failures), events);
    var s := Run(Start(failures), events);
    if s.settled {
      FinishedCounts(s.callbacks, s.cancelled);
    } else {
      assert s.callbacks + [] == s.callbacks;
      CountAfterData(s.callbacks, []);
    }
  }

  lemma {:induction false} DataConforms(front: seq<Callback>, last: seq<Callback>)
    requires AllData(front)
    requires Conforms(if front == [] then Quiet else Delivering, last)
    ensures Conforms(Quiet, front + last)
  {
    if front == [] {
      assert front + last == last;
    } else {
      assert (front + last)[1..] == front[1..] + last;
      DeliveringConforms(front[1..], last);
    }
  }

  lemma {:induction false} DeliveringConforms(front: seq<Callback>, last: seq<Callback>)
    requires AllData(front) && Conforms(Delivering, last)
    ensures Conforms(Delivering, front + last)
  {
    if front == [] {
      assert front + last == last;
    } else {
      assert (front + last)[1..] == front[1..] + last;
      DeliveringConforms(front[1..], last);
    }
  }

  lemma EndingConforms(front: seq<Callback>, last: seq<Callback>, cancelled: bool)
    requires Ending(front, last, cancelled)
    ensures Conforms(if front == [] then Quiet else Delivering, last)
  {
    if |last| == 2 {
      assert last[1..] == [last[1]] && last[1..][1..] == [];
      assert Conforms(if last[0] == DataThrew then Thrown else Stopped, last[1..]);
    } else {
      assert last[1..] == [];
    }
  }

  lemma FinishedConforms(callbacks: seq<Callback>, cancelled: bool)
    requires Finished(callbacks, cancelled)
    ensures Conforms(Quiet, callbacks)
  {
    var n :| 0 <= n <= |callbacks| && AllData(callbacks[..n]) && Ending(callbacks[..n], callbacks[n..], cancelled);
    var front, last := callbacks[..n], callbacks[n..];
    assert callbacks == front + last;
    EndingConforms(front, last, cancelled);
    DataConforms(front, last);
  }

  /** Every interleaving of socket events keeps the contract that the chat runtime relies on. */
  lemma AttemptConforms(failures: nat, events: seq<Event>)
    requires Runs(Start(failures), events)
    ensures Conforms(Quiet, Run(Start(failures), events).callbacks)
  {
    RunKeepsInv(Start(failures), events);
    var s := Run(Start(failures), events);
    if s.settled {
      FinishedConforms(s.callbacks, s.cancelled);
    } else {
      assert s.callbacks + [] == s.callbacks;
      DataConforms(s.callbacks, []);
    }
  }

  /** A datum that makes `onData` throw after another was delivered rejects the promise all the same. */
  lemma ThrowAfterDataRejects(failures: nat)
    ensures
      var events := [Open, Message, Message, TextResolved(Json(GoOn)), TextResolved(Json(Throw))];
      && Runs(Start(failures), events)
      && Run(Start(failures), events).callbacks == [Data(false), DataThrew, Settle(Reject)]
  {
    var one, two := TextResolved(Json(GoOn)), TextResolved(Json(Throw));
    assert [Open, Message, Message, one, two][1..] == [Message, Message, one, two];
    assert [Message, Message, one, two][1..] == [Message, one, two];
    assert [Message, one, two][1..] == [one, two];
    assert [one, two][1..] == [two];
    assert [two][1..] == [];
  }

  /** The attempt never hangs: while it is unsettled a timer is live, and a timer that fires settles it. */
  lemma UnsettledHasLiveTimer(failures: nat, events: seq<Event>)
    requires Runs(Start(failures), events) && !Run(Start(failures), events).settled
    ensures
      var s := Run(Start(failures), events);
      && (s.connectTimer || s.idleTimer)
      && (s.connectTimer ==> Step(s, ConnectTimeout).settled)
      && (s.idleTimer ==> Step(s, IdleTimeout).settled)
  {
    RunKeepsInv(Start(failures), events);
  }

  /**
   * The assumption that a closed socket never opens is needed: an `open` after settling would leave
   * a timer running.
   */
  lemma LateOpenWouldLeakTimer(failures: nat)
    ensures
      var s := Run(Start(failures), [ConnectTimeout]);
      Runs(Start(failures), [ConnectTimeout]) && s.settled && !Enabled(s, Open) && Step(s, Open).idleTimer
  {
    assert [ConnectTimeout][1..] == [];
  }
}
