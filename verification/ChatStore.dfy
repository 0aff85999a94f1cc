/** The store actions that start runs and write the interrupt queue (frontend/store/chat.ts). */
module ChatStore {
  import opened Prelude
  import opened Text
  import opened Messages
  import opened Sessions
  import opened ChatTurn
  import opened HistoryCache
  import opened ChatRuntime
  import opened ChatRuns

  /** What an action did: nothing, refused because a response is streaming, or started a run with this request. */
  datatype Outcome = Ignored | Refused | Launched(request: Request)

  predicate MissingReferences(s: Session) {
    || s.lastUserMessageId.None? || s.lastUserMessageId.value == ""
    || s.lastAgentMessageId.None? || s.lastAgentMessageId.value == ""
  }

  /** The guards of `retryMessage`. */
  predicate MayRetry(session: Option<Session>, history: map<string, Message>) {
    && session.Some? && !MissingReferences(session.value) && session.value.streamState !in {InStream, Continuing}
    && session.value.lastUserMessageId.value in history
    && history[session.value.lastUserMessageId.value].role == User
  }

  /** A session names its agent message by a trimmed id. */
  predicate NamesCanonically(session: Option<Session>) {
    session.Some? && session.value.lastAgentMessageId.Some? && session.value.lastAgentMessageId.value != "" ==>
      Canonical(session.value.lastAgentMessageId.value)
  }

  /** What the guards let through is what the model of runs allows. */
  lemma RetryGuards(c: Config, e: Event)
    requires c.stage.Ready? && e.Retry? && NamesCanonically(c.turn.session)
    ensures
      MayRetry(c.turn.session, c.turn.history) <==> Enabled(c, e) && c.turn.session.value.lastUserMessageId.value != ""
    ensures MayRetry(c.turn.session, c.turn.history) ==> HasMessages(c.turn)
  {
  }

  lemma AppendedIsAhead(list: seq<Message>, one: Message, two: Message)
    requires one.id != two.id && Find(list, two.id).None? && one.createdAt <= two.createdAt
    requires forall x :: x in list ==> x.createdAt <= one.createdAt
    ensures Find(list + [one], two.id).None?
    ensures forall x :: x in list + [one] ==> x.createdAt <= two.createdAt
  {
    forall i | 0 <= i < |list + [one]| ensures (list + [one])[i].id != two.id {
      assert i < |list| ==> (list + [one])[i] in list;
    }
    NotFoundAt(list + [one], two.id);
  }

  /** Two new messages, neither older than any before it, go to the end in their order. */
  lemma BothAppend(e: HistoryCache.Entry, one: Message, two: Message)
    requires NormalForm(Read(e)) && Canonical(one.id) && Canonical(two.id) && one.id != two.id
    requires Find(Read(e), one.id).None? && Find(Read(e), two.id).None?
    requires forall x :: x in Read(e) ==> x.createdAt <= one.createdAt
    requires one.createdAt <= two.createdAt
    ensures Read(Added(Added(e, [one]), [two])) == Read(e) + [one, two]
  {
    var list := Read(e);
    AddAppends(e, one);
    AppendStaysNormal(list, one);
    AppendedIsAhead(list, one, two);
    AddAppends(Added(e, [one]), two);
    assert list + [one] + [two] == list + [one, two];
  }

  class Store {
    const state: ChatRuntimeState
    const cache: HistoryStore

    constructor ()
      ensures fresh(state) && fresh(cache)
    {
      state := new ChatRuntimeState();
      cache := new HistoryStore();
    }

    function SessionOf(conversationId: string): Option<Session>
      reads state
    {
      if conversationId in state.sessions then Some(state.sessions[conversationId]) else None
    }

    function HistoryOf(conversationId: string): map<string, Message>
      reads cache
    {
      HistoryCache.View(cache.EntryOf(conversationId))
    }

    /** The messages in the order in which they are shown. */
    function ListOf(conversationId: string): seq<Message>
      reads cache
    {
      Read(cache.EntryOf(conversationId))
    }

    /** The message is new and no message of the conversation is later. */
    predicate Accepts(conversationId: string, message: Message)
      reads cache
    {
      && NormalForm(ListOf(conversationId)) && message.id !in HistoryOf(conversationId)
      && forall i :: 0 <= i < |ListOf(conversationId)| ==> ListOf(conversationId)[i].createdAt <= message.createdAt
    }

    /** The conversation as the turn between runs holds it. */
    function Between(conversationId: string): Config
      reads state, cache
    {
      Initial(HistoryOf(conversationId), SessionOf(conversationId))
    }

    twostate predicate OthersKept(conversationId: string)
      reads state, cache
    {
      && (forall c :: c != conversationId ==> cache.EntryOf(c) == old(cache.EntryOf(c)))
      && state.sessions - {conversationId} == old(state.sessions) - {conversationId}
    }

    method PutSession(conversationId: string, session: Session)
      modifies state
      ensures SessionOf(conversationId) == Some(session)
      ensures state.sessions - {conversationId} == old(state.sessions) - {conversationId}
    {
      state.sessions := state.sessions[conversationId := session];
    }

    method AddMessage(conversationId: string, message: Message)
      requires Canonical(message.id)
      modifies cache
      ensures HistoryOf(conversationId) == ViewWith(old(HistoryOf(conversationId)), message)
      ensures forall c :: c != conversationId ==> cache.EntryOf(c) == old(cache.EntryOf(c))
    {
      AddView(cache.EntryOf(conversationId), message);
      cache.AddConversationMessage(conversationId, message);
    }

    /** Two new messages, the later one last. */
    method AddTwo(conversationId: string, one: Message, two: Message)
      requires Canonical(one.id) && Canonical(two.id) && one.id != two.id
      requires one.id !in HistoryOf(conversationId) && two.id !in HistoryOf(conversationId)
      modifies cache
      ensures HistoryOf(conversationId) == old(HistoryOf(conversationId))[one.id := one][two.id := two]
      ensures old(Accepts(conversationId, one)) && one.createdAt <= two.createdAt ==>
        ListOf(conversationId) == old(ListOf(conversationId)) + [one, two]
      ensures forall c :: c != conversationId ==> cache.EntryOf(c) == old(cache.EntryOf(c))
    {
      ghost var e := cache.EntryOf(conversationId);
      AddView(e, one);
      AddView(Added(e, [one]), two);
      if Accepts(conversationId, one) && one.createdAt <= two.createdAt {
        BothAppend(e, one, two);
      }
      cache.AddConversationMessage(conversationId, one);
      cache.AddConversationMessage(conversationId, two);
    }

    /** `sendMessage`; the two message ids are fresh. */
    method SendMessage(conversationId: string, agentId: string, content: string, reducers: Reducers,
                       userMessageId: MessageId, agentMessageId: MessageId, now: int, later: int, preferred: string)
      returns (outcome: Outcome, runtime: Runtime?)
      requires userMessageId != agentMessageId
      requires userMessageId !in HistoryOf(conversationId) && agentMessageId !in HistoryOf(conversationId)
      modifies state, cache
      ensures OthersKept(conversationId)
      ensures outcome.Ignored? <==> Trim(content) == ""
      ensures outcome.Refused? <==>
        && Trim(content) != "" && conversationId in old(state.sessions)
        && old(state.sessions)[conversationId].streamState in {InStream, Continuing}
      ensures !outcome.Launched? ==> unchanged(state) && unchanged(cache)
      ensures outcome.Launched? ==>
        var e := Send(agentId, userMessageId, agentMessageId, content, now, later, preferred, true, true);
        var run := SendRun(old(Between(conversationId)), e);
        && runtime != null && fresh(runtime) && runtime.conversationId == conversationId
        && runtime.state == state && runtime.cache == cache
        && runtime.Value() == run.turn && run.requests == [outcome.request]
      ensures outcome.Launched? && now <= later && old(Accepts(conversationId, UserMessage(userMessageId, Trim(content), now))) ==>
        ListOf(conversationId)
        == old(ListOf(conversationId))
           + [UserMessage(userMessageId, Trim(content), now), NewAgentMessage(agentMessageId, later)]
    {
      runtime := null;
      var trimmed := Trim(content);
      if trimmed == "" {
        return Ignored, null;
      }
      if InProgress(SessionOf(conversationId)) {
        return Refused, null;
      }
      PutSession(conversationId,
                 SentSession(SessionOf(conversationId), agentId, userMessageId, agentMessageId, preferred));
      AddTwo(conversationId, UserMessage(userMessageId, trimmed, now), NewAgentMessage(agentMessageId, later));
      runtime := new Runtime(conversationId, reducers, state, cache, agentMessageId);
      outcome := Launched(Request(userMessageId, agentMessageId, None));
    }

    /** `resumeMessage`: only from a recoverable session, and with the stored cursor. */
    method ResumeMessage(conversationId: string, reducers: Reducers) returns (outcome: Outcome, runtime: Runtime?)
      requires NamesCanonically(SessionOf(conversationId))
      modifies state
      ensures OthersKept(conversationId)
      ensures outcome.Launched? <==>
        var c := old(Between(conversationId));
        Enabled(c, Resume(true, true)) && c.turn.session.value.lastUserMessageId.value != ""
      ensures outcome.Launched? ==>
        var run := ResumeRun(old(Between(conversationId)));
        && runtime != null && fresh(runtime) && runtime.conversationId == conversationId
        && runtime.state == state && runtime.cache == cache
        && runtime.Value() == run.turn && run.requests == [outcome.request]
        && outcome.request.resumeFrom == old(SessionOf(conversationId)).value.lastReceivedSequence
      ensures !outcome.Launched? ==>
        SessionOf(conversationId) == old(
          var s := SessionOf(conversationId);
          if s.Some? && s.value.streamState == Recoverable && MissingReferences(s.value) then
            Some(s.value.(streamState := StreamState.Failed, lastStreamError := Some("Cannot resume: missing message references")))
          else s)
    {
      runtime := null;
      outcome := Ignored;
      if conversationId !in state.sessions || state.sessions[conversationId].streamState != Recoverable {
        return;
      }
      var session := state.sessions[conversationId];
      if MissingReferences(session) {
        PutSession(conversationId,
                   session.(streamState := StreamState.Failed, lastStreamError := Some("Cannot resume: missing message references")));
        return;
      }
      var userMessageId, agentMessageId := session.lastUserMessageId.value, session.lastAgentMessageId.value;
      var messages := cache.GetConversationMessages(conversationId);
      if Find(messages, userMessageId).None? {
        return;
      }
      PutSession(conversationId, ResumedSession(session));
      runtime := new Runtime(conversationId, reducers, state, cache, agentMessageId);
      outcome := Launched(Request(userMessageId, agentMessageId, session.lastReceivedSequence));
    }

    /** `retryMessage`: the same user message again, with an emptied agent message and no cursor. */
    method RetryMessage(conversationId: string, agentId: string, reducers: Reducers, now: int)
      returns (outcome: Outcome, runtime: Runtime?)
      requires NamesCanonically(SessionOf(conversationId))
      modifies state, cache
      ensures OthersKept(conversationId)
      ensures outcome.Launched? <==>
        var c := old(Between(conversationId));
        Enabled(c, Retry(agentId, now, true, true)) && c.turn.session.value.lastUserMessageId.value != ""
      ensures outcome.Launched? ==>
        var run := RetryRun(old(Between(conversationId)), Retry(agentId, now, true, true));
        && runtime != null && fresh(runtime) && runtime.conversationId == conversationId
        && runtime.state == state && runtime.cache == cache
        && runtime.Value() == run.turn && run.requests == [outcome.request]
      ensures !outcome.Launched? ==> unchanged(state) && unchanged(cache)
      ensures outcome.Refused? <==> old(
        var session, history := SessionOf(conversationId), HistoryOf(conversationId);
        && session.Some? && !MissingReferences(session.value)
        && session.value.lastUserMessageId.value in history
        && history[session.value.lastUserMessageId.value].role == User
        && session.value.streamState in {InStream, Continuing})
    {
      runtime := null;
      outcome := Ignored;
      RetryGuards(Between(conversationId), Retry(agentId, now, true, true));
      if conversationId !in state.sessions || MissingReferences(state.sessions[conversationId]) {
        return;
      }
      var session := state.sessions[conversationId];
      var userMessageId, agentMessageId := session.lastUserMessageId.value, session.lastAgentMessageId.value;
      var messages := cache.GetConversationMessages(conversationId);
      var userMessage := Find(messages, userMessageId);
      if userMessage.None? || userMessage.value.role != User {
        return;
      }
      if session.streamState == InStream || session.streamState == Continuing {
        return Refused, null;
      }
      runtime := LaunchRetry(conversationId, Retry(agentId, now, true, true), reducers, now);
      outcome := Launched(Request(userMessageId, agentMessageId, None));
    }

    /** The writes of a retry that nothing forbids. */
    method LaunchRetry(conversationId: string, ghost e: Event, reducers: Reducers, now: int) returns (runtime: Runtime)
      requires e.Retry? && e.now == now && HasMessages(Between(conversationId).turn)
      modifies state, cache
      ensures OthersKept(conversationId)
      ensures
        var run := RetryRun(old(Between(conversationId)), e);
        && fresh(runtime) && runtime.conversationId == conversationId
        && runtime.state == state && runtime.cache == cache
        && runtime.Value() == run.turn
        && run.requests == [Request(old(state.sessions)[conversationId].lastUserMessageId.value,
                                    old(state.sessions)[conversationId].lastAgentMessageId.value, None)]
    {
      var session := state.sessions[conversationId];
      var agentMessageId := session.lastAgentMessageId.value;
      EmptyAgentMessage(conversationId, agentMessageId, now);
      PutSession(conversationId, RetriedSession(session));
      runtime := new Runtime(conversationId, reducers, state, cache, agentMessageId);
    }

    method EmptyAgentMessage(conversationId: string, agentMessageId: MessageId, now: int)
      modifies cache
      ensures HistoryOf(conversationId) == RetriedHistory(old(HistoryOf(conversationId)), agentMessageId, now)
      ensures forall c :: c != conversationId ==> cache.EntryOf(c) == old(cache.EntryOf(c))
    {
      var messages := cache.GetConversationMessages(conversationId);
      var existing := Find(messages, agentMessageId);
      if existing.Some? && existing.value.role == Agent {
        TrimFixesTrimmed(agentMessageId);
        UpdateView(cache.EntryOf(conversationId), agentMessageId, m => EMPTIED_PATCH);
        cache.UpdateConversationMessageWithUpdater(conversationId, agentMessageId, m => EMPTIED_PATCH);
      } else {
        AddMessage(conversationId, NewAgentMessage(agentMessageId, now));
      }
    }

    // -------------------------------------------------------------- the interrupt queue

    method ClearPendingInterrupt(conversationId: string, requestId: Option<string>)
      modifies state
      ensures OthersKept(conversationId)
      ensures SessionOf(conversationId) == old(
        if SessionOf(conversationId).None? then None else Some(Written(SessionOf(conversationId).value, Clear(requestId))))
    {
      if conversationId !in state.sessions {
        return;
      }
      var current := state.sessions[conversationId];
      var currentQueue := Queue(current);
      if currentQueue == [] {
        return;
      }
      var nextQueue := if requestId.Some? && requestId.value != "" then DropRequest(currentQueue, requestId.value) else [];
      if |nextQueue| == |currentQueue| {
        return;
      }
      PutSession(conversationId, WithQueue(current, nextQueue));
    }

    method ReplaceRecoveredInterrupts(conversationId: string, interrupts: seq<Interrupt>, sessionId: Option<string>, replaceAll: bool)
      modifies state
      ensures OthersKept(conversationId)
      ensures SessionOf(conversationId) == old(
        if SessionOf(conversationId).None? then None
        else Some(Written(SessionOf(conversationId).value, Recover(interrupts, sessionId, replaceAll))))
    {
      if conversationId !in state.sessions {
        return;
      }
      var current := state.sessions[conversationId];
      var currentQueue := Queue(current);
      var retainedQueue := if replaceAll then [] else RetainedQueue(currentQueue, TargetSession(sessionId));
      var seenRequestIds := set i | 0 <= i < |retainedQueue| :: retainedQueue[i].requestId;
      var nextQueue := retainedQueue;
      for i := 0 to |interrupts|
        invariant AppendUnseen(nextQueue, interrupts[i..]) == AppendUnseen(retainedQueue, interrupts)
        invariant seenRequestIds == set k | k in RequestIds(nextQueue)
      {
        var interrupt := interrupts[i];
        assert interrupts[i..][1..] == interrupts[i + 1..];
        if interrupt.requestId !in seenRequestIds {
          assert RequestIds(nextQueue + [interrupt]) == RequestIds(nextQueue) + [interrupt.requestId];
          seenRequestIds := seenRequestIds + {interrupt.requestId};
          nextQueue := nextQueue + [interrupt];
        }
      }
      if currentQueue == nextQueue {
        return;
      }
      PutSession(conversationId, WithQueue(current, nextQueue));
    }
  }
}
