/**
 * `executeChatRuntime` as an object (frontend/store/chatRuntime.ts): its closure variables are the
 * fields, its closures the methods, proved against the functions of ChatTurn. What it awaits
 * (transports, the JSON request, the history page) calls back into the methods.
 */
module ChatRuntime {
  import opened Prelude
  import opened Text
  import opened Messages
  import opened Sessions
  import opened MessageMerge
  import opened ChatTurn
  import opened HistoryCache
  import opened HistoryMerge

  /** The store that `get` and `set` reach. */
  class ChatRuntimeState {
    var sessions: map<string, Session>

    constructor ()
      ensures sessions == map[]
    {
      sessions := map[];
    }
  }

  lemma DrainNone(r: Reducers, history: map<string, Message>)
    ensures Drained(r, history, map[]) == history
  {
  }

  /** Draining one message and then the others drains all. */
  lemma DrainOne(r: Reducers, history: map<string, Message>, pending: map<MessageId, seq<Chunk>>, id: MessageId)
    requires id in pending
    ensures
      var h := if id in history then history[id := ApplyChunks(r, history[id], pending[id])] else history;
      Drained(r, h, pending - {id}) == Drained(r, history, pending)
  {
  }

  /** The history with an update of every target. */
  function UpdatedAll(history: map<string, Message>, targets: set<MessageId>, updater: Message -> Patch): map<string, Message> {
    map id | id in history :: if id in targets then ApplyPatch(history[id], updater(history[id])) else history[id]
  }

  lemma UpdateNone(history: map<string, Message>, updater: Message -> Patch)
    ensures UpdatedAll(history, {}, updater) == history
  {
  }

  lemma UpdateOne(history: map<string, Message>, targets: set<MessageId>, updater: Message -> Patch, id: MessageId)
    requires id in targets
    ensures
      var h := if id in history then history[id := ApplyPatch(history[id], updater(history[id]))] else history;
      UpdatedAll(h, targets - {id}, updater) == UpdatedAll(history, targets, updater)
  {
  }

  /** `Partial<AgentSession>`: the fields that are given. */
  datatype SessionPatch = SessionPatch(
    streamState: Option<StreamState>,
    lastStreamError: Option<Option<string>>,
    lastAgentMessageId: Option<string>,
    lastReceivedSequence: Option<int>,
    runtimeStatus: Option<string>,
    transport: Option<string>,
    lastResolved: Option<Resolution>,
    pendingInterrupts: Option<seq<Interrupt>>,
    pendingInterrupt: Option<Option<Interrupt>>)

  const NO_CHANGE := SessionPatch(None, None, None, None, None, None, None, None, None)

  /** `{ ...current, ...patch }`. */
  function Overwritten(s: Session, p: SessionPatch): Session {
    s.(streamState := p.streamState.GetOr(s.streamState),
       lastStreamError := p.lastStreamError.GetOr(s.lastStreamError),
       lastAgentMessageId := OrElse(p.lastAgentMessageId, s.lastAgentMessageId),
       lastReceivedSequence := OrElse(p.lastReceivedSequence, s.lastReceivedSequence),
       runtimeStatus := OrElse(p.runtimeStatus, s.runtimeStatus),
       transport := p.transport.GetOr(s.transport),
       lastResolved := OrElse(p.lastResolved, s.lastResolved),
       pendingInterrupts := p.pendingInterrupts.GetOr(s.pendingInterrupts),
       pendingInterrupt := p.pendingInterrupt.GetOr(s.pendingInterrupt))
  }

  /** `buildPendingInterruptState`. */
  function PendingState(p: SessionPatch, queue: seq<Interrupt>): SessionPatch {
    p.(pendingInterrupts := Some(queue), pendingInterrupt := Some(if queue == [] then None else Some(queue[0])))
  }

  method GetPendingInterruptQueue(session: Session) returns (queue: seq<Interrupt>)
    ensures queue == Queue(session)
    ensures session.pendingInterrupts != [] ==> queue == session.pendingInterrupts
    ensures session.pendingInterrupts == [] && session.pendingInterrupt.Some? ==> queue == [session.pendingInterrupt.value]
  {
    if |session.pendingInterrupts| > 0 {
      return session.pendingInterrupts;
    }
    queue := if session.pendingInterrupt.Some? then [session.pendingInterrupt.value] else [];
  }

  lemma {:induction false} PutAt(q: seq<Interrupt>, asked: Interrupt, i: nat)
    requires i <= |q| && forall k :: 0 <= k < i ==> q[k].requestId != asked.requestId
    requires i < |q| ==> q[i].requestId == asked.requestId
    ensures PutInterrupt(q, asked) == if i < |q| then q[i := asked] else q + [asked]
  {
    if q != [] && i > 0 {
      PutAt(q[1..], asked, i - 1);
    }
  }

  /** The queue with the asked interrupt in the place of the first one of its request id, or at the end. */
  method WithAsked(queue: seq<Interrupt>, asked: Interrupt) returns (next: seq<Interrupt>)
    ensures next == PutInterrupt(queue, asked)
  {
    var existingIndex := 0;
    while existingIndex < |queue| && queue[existingIndex].requestId != asked.requestId
      invariant existingIndex <= |queue|
      invariant forall k :: 0 <= k < existingIndex ==> queue[k].requestId != asked.requestId
    {
      existingIndex := existingIndex + 1;
    }
    PutAt(queue, asked, existingIndex);
    next := if existingIndex < |queue| then queue[existingIndex := asked] else queue + [asked];
  }

  lemma {:induction false} DropAppended(q: seq<Interrupt>, i: Interrupt, requestId: string)
    ensures DropRequest(q + [i], requestId) == DropRequest(q, requestId) + (if i.requestId == requestId then [] else [i])
  {
    if q == [] {
      assert q + [i] == [i];
    } else {
      DropAppended(q[1..], i, requestId);
      assert (q + [i])[1..] == q[1..] + [i];
    }
  }

  method WithoutRequest(queue: seq<Interrupt>, requestId: string) returns (next: seq<Interrupt>)
    ensures next == DropRequest(queue, requestId)
  {
    next := [];
    for i := 0 to |queue|
      invariant next == DropRequest(queue[..i], requestId)
    {
      DropAppended(queue[..i], queue[i], requestId);
      assert queue[..i + 1] == queue[..i] + [queue[i]];
      if queue[i].requestId != requestId {
        next := next + [queue[i]];
      }
    }
    assert queue[..|queue|] == queue;
  }

  method ArePendingInterruptQueuesEqual(left: seq<Interrupt>, right: seq<Interrupt>) returns (equal: bool)
    ensures equal == SameQueues(left, right)
  {
    if |left| != |right| {
      return false;
    }
    for i := 0 to |left|
      invariant forall k :: 0 <= k < i ==> SamePending(left[k], right[k])
    {
      if left[i].requestId != right[i].requestId || left[i].kind != right[i].kind || left[i].details != right[i].details {
        return false;
      }
    }
    return true;
  }

  method HasRenderableAgentContent(message: Option<Message>) returns (renderable: bool)
    ensures renderable ==
      (message.Some? && message.value.role == Agent && (Trim(message.value.content) != "" || BlockCount(message.value) > 0))
  {
    if message.None? || message.value.role != Agent {
      return false;
    }
    if |Trim(message.value.content)| > 0 {
      return true;
    }
    return message.value.blocks.Some? && |message.value.blocks.value| > 0;
  }

  lemma {:induction false} FoldPrefix(r: Reducers, blocks: Option<seq<Block>>, chunks: seq<Chunk>, i: nat)
    requires i < |chunks|
    ensures FoldBlocks(r, blocks, chunks[..i + 1]) == Some(r.apply(FoldBlocks(r, blocks, chunks[..i]), chunks[i]))
  {
    assert chunks[..i + 1][..i] == chunks[..i];
  }

  /** The reducer applied to the chunks of one message in order. */
  method ApplyStreamBlockUpdates(r: Reducers, blocks: Option<seq<Block>>, chunks: seq<Chunk>)
    returns (nextBlocks: Option<seq<Block>>)
    ensures nextBlocks == FoldBlocks(r, blocks, chunks)
  {
    nextBlocks := blocks;
    for i := 0 to |chunks|
      invariant nextBlocks == FoldBlocks(r, blocks, chunks[..i])
    {
      FoldPrefix(r, blocks, chunks, i);
      nextBlocks := Some(r.apply(nextBlocks, chunks[i]));
    }
    assert chunks[..|chunks|] == chunks;
  }

  /** The patch that a runtime interrupt asks for: its queue, if that changes, and the last resolution. */
  method InterruptPatchOf(current: Session, event: RuntimeInterrupt, patch: SessionPatch) returns (nextPatch: SessionPatch)
    requires patch.pendingInterrupts.None? && patch.pendingInterrupt.None? && patch.lastResolved.None?
    ensures Overwritten(current, nextPatch) == Observed(Overwritten(current, patch), event)
    ensures nextPatch.transport == patch.transport
  {
    nextPatch := patch;
    var currentQueue := GetPendingInterruptQueue(current);
    assert currentQueue == Queue(Overwritten(current, patch));
    match event
    case Asked(asked) =>
      var nextQueue := WithAsked(currentQueue, asked);
      var equal := ArePendingInterruptQueuesEqual(currentQueue, nextQueue);
      if !equal {
        nextPatch := PendingState(nextPatch, nextQueue);
      }
    case Resolved(resolution) =>
      if current.lastResolved != Some(resolution) {
        nextPatch := nextPatch.(lastResolved := Some(resolution));
      }
      var nextQueue := WithoutRequest(currentQueue, resolution.requestId);
      var equal := ArePendingInterruptQueuesEqual(currentQueue, nextQueue);
      if !equal {
        nextPatch := PendingState(nextPatch, nextQueue);
      }
  }

  /** The fields of the session that one datum changes, each only if its value differs. */
  method MetaPatchOf(current: Session, data: StreamData) returns (nextPatch: SessionPatch)
    ensures Some(Overwritten(current, nextPatch)) == WithMeta(Some(current), data.status, data.transport)
  {
    nextPatch := NO_CHANGE;
    if data.status.Some? && current.runtimeStatus != Some(data.status.value.state) {
      nextPatch := nextPatch.(runtimeStatus := Some(data.status.value.state));
    }
    if data.status.Some? && data.status.value.interrupt.Some? {
      nextPatch := InterruptPatchOf(current, data.status.value.interrupt.value, nextPatch);
    }
    if data.transport.Some? && data.transport.value != current.transport {
      nextPatch := nextPatch.(transport := data.transport);
    }
  }

  class Runtime {
    const conversationId: string
    const reducers: Reducers
    const state: ChatRuntimeState
    const cache: HistoryStore

    var activeAgentMessageId: MessageId
    var activeStreamMessageIds: set<MessageId>
    var streamMessageIdMap: map<MessageId, MessageId>
    var seenEventIds: set<string>
    var terminalHandled: bool
    var terminalRuntimeStatusSeen: bool
    var hasObservedStreamEvent: bool
    var highestReceivedSequence: Option<int>
    var chunkBufferByMessageId: map<MessageId, seq<Chunk>>
    var bufferTimeout: bool
    var backfilling: Option<set<MessageId>>
    var endings: seq<Ending>

    function History(): map<string, Message>
      reads cache
    {
      HistoryCache.View(cache.EntryOf(conversationId))
    }

    function CurrentSession(): Option<Session>
      reads state
    {
      if conversationId in state.sessions then Some(state.sessions[conversationId]) else None
    }

    /** The turn that this object stands for. */
    function Value(): Turn
      reads this, state, cache
    {
      Turn(History(), CurrentSession(), activeAgentMessageId, activeStreamMessageIds, streamMessageIdMap,
           seenEventIds, terminalHandled, terminalRuntimeStatusSeen, hasObservedStreamEvent,
           highestReceivedSequence, chunkBufferByMessageId, bufferTimeout, backfilling, endings)
    }

    /** Other conversations are not touched. */
    twostate predicate OthersKept()
      reads state, cache
    {
      && (forall c :: c != conversationId ==> cache.EntryOf(c) == old(cache.EntryOf(c)))
      && state.sessions - {conversationId} == old(state.sessions) - {conversationId}
    }

    constructor (conversationId: string, reducers: Reducers, state: ChatRuntimeState, cache: HistoryStore, initialAgentMessageId: MessageId)
      ensures this.conversationId == conversationId && this.reducers == reducers && this.state == state && this.cache == cache
      ensures Value() == Begin(History(), CurrentSession(), initialAgentMessageId)
    {
      this.conversationId := conversationId;
      this.reducers := reducers;
      this.state := state;
      this.cache := cache;
      activeAgentMessageId := initialAgentMessageId;
      activeStreamMessageIds := {initialAgentMessageId};
      streamMessageIdMap := map[];
      seenEventIds := {};
      terminalHandled, terminalRuntimeStatusSeen, hasObservedStreamEvent := false, false, false;
      highestReceivedSequence :=
        if conversationId in state.sessions then state.sessions[conversationId].lastReceivedSequence else None;
      chunkBufferByMessageId := map[];
      bufferTimeout := false;
      backfilling := None;
      endings := [];
    }

    // -------------------------------------------------------------- session and history access

    /** `patchSession`: nothing happens without a session, or when the patch changes no field. */
    method PatchSession(patch: SessionPatch)
      modifies state
      ensures Value() == old(Value()).(session :=
        if old(CurrentSession()).None? then None else Some(Overwritten(old(CurrentSession()).value, patch)))
      ensures OthersKept()
    {
      if conversationId !in state.sessions {
        return;
      }
      var current := state.sessions[conversationId];
      var next := Overwritten(current, patch);
      if next == current {
        return;
      }
      state.sessions := state.sessions[conversationId := next];
    }

    method UpdateMessage(messageId: MessageId, updater: Message -> Patch)
      modifies cache
      ensures Value() == old(Value()).(history :=
        var h := old(History());
        if messageId in h then h[messageId := ApplyPatch(h[messageId], updater(h[messageId]))] else h)
      ensures OthersKept()
    {
      TrimFixesTrimmed(messageId);
      UpdateView(cache.EntryOf(conversationId), messageId, updater);
      cache.UpdateConversationMessageWithUpdater(conversationId, messageId, updater);
    }

    method PatchMessageBy(messageId: MessageId, patch: Patch)
      modifies cache
      ensures Value() == PatchMessage(old(Value()), messageId, patch)
      ensures OthersKept()
    {
      UpdateMessage(messageId, m => patch);
    }

    method MarkSessionIdle()
      modifies state
      ensures Value() == old(Value()).(session := IdleSession(old(CurrentSession())))
      ensures OthersKept()
    {
      PatchSession(PendingState(NO_CHANGE, []).(streamState := Some(Idle), lastStreamError := Some(None)));
    }

    // -------------------------------------------------------------- the chunk buffer

    /** One turn of the flush loop. */
    method FlushMessage(messageId: MessageId, chunks: seq<Chunk>)
      modifies cache
      ensures Value() == old(Value()).(history :=
        var h := old(History());
        if messageId in h then h[messageId := ApplyChunks(reducers, h[messageId], chunks)] else h)
      ensures OthersKept()
    {
      if chunks == [] {
        assert messageId in History() ==> History()[messageId := ApplyChunks(reducers, History()[messageId], chunks)] == History();
        return;
      }
      var messages := cache.GetConversationMessages(conversationId);
      var message := Find(messages, messageId);
      if message.None? {
        return;
      }
      var nextBlocks := ApplyStreamBlockUpdates(reducers, message.value.blocks, chunks);
      var patch := Patch(None, Some(reducers.project(nextBlocks)), Some(Streaming), nextBlocks, map[]);
      UpdateMessage(messageId, m => patch);
    }

    method ClearTimer()
      modifies this
      ensures Value() == old(Value()).(timer := false)
      ensures OthersKept()
    {
      if bufferTimeout {
        bufferTimeout := false;
      }
    }

    method FlushChunkBuffer()
      modifies this, cache
      ensures Value() == Flush(reducers, old(Value()))
      ensures OthersKept()
    {
      ClearTimer();
      ghost var goal := Drained(reducers, History(), chunkBufferByMessageId);
      var pending := chunkBufferByMessageId;
      while pending != map[]
        invariant Value() == old(Value()).(history := History(), timer := false)
        invariant Drained(reducers, History(), pending) == goal
        invariant OthersKept()
        decreases |pending|
      {
        var messageId :| messageId in pending;
        DrainOne(reducers, History(), pending, messageId);
        FlushMessage(messageId, pending[messageId]);
        pending := pending - {messageId};
      }
      DrainNone(reducers, History());
      chunkBufferByMessageId := map[];
    }

    method MarkActiveMessage(messageId: MessageId)
      modifies this, state
      ensures Value() == MarkActive(old(Value()), messageId)
      ensures OthersKept()
    {
      activeAgentMessageId := messageId;
      activeStreamMessageIds := activeStreamMessageIds + {messageId};
      PatchSession(NO_CHANGE.(lastAgentMessageId := Some(messageId)));
    }

    method MapMessage(messageId: MessageId, target: MessageId)
      modifies this, state
      ensures Value() == MapTo(old(Value()), messageId, target)
      ensures OthersKept()
    {
      streamMessageIdMap := streamMessageIdMap[messageId := target];
      MarkActiveMessage(target);
    }

    method TakeOverPlaceholder(messageId: MessageId)
      requires activeAgentMessageId in History() && messageId !in History()
      modifies this, state, cache
      ensures Value() == TakeOver(reducers, old(Value()), messageId)
      ensures OthersKept()
    {
      var placeholderId := activeAgentMessageId;
      FlushChunkBuffer();
      TrimFixesTrimmed(placeholderId);
      TrimFixesTrimmed(messageId);
      RekeyView(cache.EntryOf(conversationId), placeholderId, messageId);
      cache.RekeyConversationMessage(conversationId, placeholderId, messageId);
      activeStreamMessageIds := activeStreamMessageIds - {placeholderId};
      MapMessage(messageId, messageId);
    }

    method AddStreamMessage(messageId: MessageId, now: int)
      requires messageId !in History()
      modifies this, state, cache
      ensures Value() == StartMessage(old(Value()), messageId, now)
      ensures OthersKept()
    {
      var message := Message(messageId, Agent, now, "", Some(Streaming), Some([]), map[]);
      AddView(cache.EntryOf(conversationId), message);
      cache.AddConversationMessage(conversationId, message);
      MapMessage(messageId, messageId);
    }

    method ResolveChunkMessageId(chunk: Chunk, now: int) returns (target: MessageId)
      modifies this, state, cache
      ensures target == TargetOf(old(Value()), chunk)
      ensures Value() == Resolve(reducers, old(Value()), chunk, now)
      ensures OthersKept()
    {
      if chunk.messageId in streamMessageIdMap {
        target := streamMessageIdMap[chunk.messageId];
        MarkActiveMessage(target);
        return;
      }
      var currentMessages := cache.GetConversationMessages(conversationId);
      if Find(currentMessages, chunk.messageId).Some? {
        MapMessage(chunk.messageId, chunk.messageId);
        return chunk.messageId;
      }
      if Find(currentMessages, activeAgentMessageId).Some? {
        if !chunk.upstream {
          target := activeAgentMessageId;
          MapMessage(chunk.messageId, target);
          return;
        }
        TakeOverPlaceholder(chunk.messageId);
      } else {
        AddStreamMessage(chunk.messageId, now);
      }
      target := chunk.messageId;
    }

    method ShouldFlushImmediately(target: MessageId, chunk: Chunk) returns (flush: bool)
      ensures flush == FlushesAtOnce(Value(), target, chunk)
    {
      if chunk.blockType.TextBlock? {
        return false;
      }
      if target in chunkBufferByMessageId && |chunkBufferByMessageId[target]| > 1 {
        return false;
      }
      var currentMessages := cache.GetConversationMessages(conversationId);
      var targetMessage := Find(currentMessages, target);
      if targetMessage.None? || targetMessage.value.role != Agent {
        return false;
      }
      return BlockCount(targetMessage.value) == 0;
    }

    method BufferChunk(target: MessageId, chunk: Chunk)
      modifies this
      ensures Value() == Buffered(old(Value()), target, chunk)
      ensures OthersKept()
    {
      var chunks := if target in chunkBufferByMessageId then chunkBufferByMessageId[target] else [];
      chunkBufferByMessageId := chunkBufferByMessageId[target := chunks + [chunk]];
    }

    method ArmTimer()
      modifies this
      ensures Value() == old(Value()).(timer := true)
      ensures OthersKept()
    {
      if !bufferTimeout {
        bufferTimeout := true;
      }
    }

    method AppendStreamChunk(chunk: Chunk, now: int)
      modifies this, state, cache
      ensures Value() == Append(reducers, old(Value()), chunk, now)
      ensures OthersKept()
    {
      var target := ResolveChunkMessageId(chunk, now);
      BufferChunk(target, chunk);
      var flush := ShouldFlushImmediately(target, chunk);
      if flush {
        FlushChunkBuffer();
      } else {
        ArmTimer();
      }
    }

    method AdvanceResumeCursor(sequence: Option<int>)
      modifies this, state
      ensures Value() == AdvanceCursor(old(Value()), sequence)
      ensures OthersKept()
    {
      if sequence.None? || sequence.value <= 0 {
        return;
      }
      if highestReceivedSequence.None? || sequence.value > highestReceivedSequence.value {
        highestReceivedSequence := sequence;
        PatchSession(NO_CHANGE.(lastReceivedSequence := sequence));
      }
    }

    method QueueIncomingChunk(chunk: Chunk, now: int)
      modifies this, state, cache
      ensures Value() == Enqueue(reducers, old(Value()), chunk, now)
      ensures OthersKept()
    {
      if !chunk.weak {
        if chunk.eventId in seenEventIds {
          return;
        }
        seenEventIds := seenEventIds + {chunk.eventId};
      }
      assert Value() == MarkSeen(old(Value()), chunk);
      AdvanceResumeCursor(chunk.sequence);
      AppendStreamChunk(chunk, now);
    }

    // -------------------------------------------------------------- incoming data

    /** The timer callback. */
    method OnBufferTimeout()
      requires bufferTimeout
      modifies this, cache
      ensures Value() == Flush(reducers, old(Value()))
      ensures OthersKept()
    {
      FlushChunkBuffer();
    }

    method NoticeEvent(data: StreamData)
      modifies this, state
      ensures Value() == Notice(old(Value()), data)
      ensures OthersKept()
    {
      if data.chunk.Some? || data.status.Some? || HasMeta(data) {
        hasObservedStreamEvent := true;
      }
      if data.status.Some? {
        AdvanceResumeCursor(data.status.value.sequence);
      }
    }

    method QueueInterrupt(interrupt: RuntimeInterrupt, now: int)
      modifies this, state, cache
      ensures Value() ==
        Enqueue(reducers, Flush(reducers, old(Value())), InterruptChunk(reducers, interrupt, old(activeAgentMessageId)), now)
      ensures OthersKept()
    {
      FlushChunkBuffer();
      QueueIncomingChunk(InterruptChunk(reducers, interrupt, activeAgentMessageId), now);
    }

    method UpdateSessionMeta(data: StreamData)
      modifies state
      ensures Value() == TakeMeta(old(Value()), data)
      ensures OthersKept()
    {
      if !data.hasMeta && (data.transport.None? || data.transport.value == "") && data.status.None? {
        return;
      }
      if conversationId !in state.sessions {
        return;
      }
      var nextPatch := MetaPatchOf(state.sessions[conversationId], data);
      PatchSession(nextPatch);
    }

    method TakeData(data: StreamData, now: int)
      modifies this, state, cache
      ensures Value() == Take(reducers, old(Value()), data, now)
      ensures OthersKept()
    {
      NoticeEvent(data);
      if data.chunk.Some? {
        QueueIncomingChunk(data.chunk.value, now);
      }
      if data.status.Some? && data.status.value.interrupt.Some? {
        QueueInterrupt(data.status.value.interrupt.value, now);
      }
      UpdateSessionMeta(data);
    }

    method ApplyIncomingStreamData(data: StreamData, now: int) returns (stop: bool)
      modifies this, state, cache
      ensures stop == Persisted(data)
      ensures Value() == Incoming(reducers, old(Value()), data, now)
      ensures OthersKept()
    {
      TakeData(data, now);
      if data.status.Some? && data.status.value.persisted {
        CompleteStreamingMessage();
        return true;
      }
      if data.status.Some? && data.status.value.isFinal {
        terminalRuntimeStatusSeen := true;
      }
      return false;
    }

    // -------------------------------------------------------------- terminal handlers

    /** Sets the one-shot flag, and records which handler took effect. */
    method BeginEnding(ending: Ending)
      requires !terminalHandled
      modifies this
      ensures Value() == Ended(old(Value()), ending)
      ensures OthersKept()
    {
      terminalHandled := true;
      endings := endings + [ending];
    }

    /** `currentMsg?.content ?? ""`. */
    method CurrentContent() returns (content: string)
      ensures content == ContentOf(Value(), activeAgentMessageId)
    {
      var messages := cache.GetConversationMessages(conversationId);
      var currentMsg := Find(messages, activeAgentMessageId);
      content := if currentMsg.Some? then currentMsg.value.content else "";
    }

    method MarkRecoverableInterruption(failure: Failure)
      modifies this, state, cache
      ensures Value() == MarkRecoverable(reducers, old(Value()), failure.Shown())
      ensures OthersKept()
    {
      if terminalHandled {
        return;
      }
      BeginEnding(Interruption);
      FlushChunkBuffer();
      var content := CurrentContent();
      PatchMessageBy(activeAgentMessageId,
                     Patch(None, Some(content), Some(Interrupted), None, map["errorCode" := None, "errorMessage" := None]));
      PatchSession(NO_CHANGE.(streamState := Some(Recoverable), lastStreamError := Some(Some(failure.Shown()))));
    }

    method FinalizeStreamingFailure(failure: Failure)
      modifies this, state, cache
      ensures Value() == FinalizeFailure(reducers, old(Value()), failure)
      ensures OthersKept()
    {
      if terminalHandled {
        return;
      }
      BeginEnding(Breakdown);
      FlushChunkBuffer();
      var content := CurrentContent();
      var shown := failure.Shown();
      var missing := if failure.missingParams.Some? then Some(failure.missingParams.value.json) else None;
      var upstream := if failure.upstreamError.Some? then Some(failure.upstreamError.value.json) else None;
      PatchMessageBy(activeAgentMessageId,
                     Patch(None, Some(content), Some(Error), None,
                           map["errorCode" := failure.Code(), "errorMessage" := Some(shown), "errorSource" := failure.source,
                               "jsonrpcCode" := failure.jsonrpcCode, "missingParams" := missing, "upstreamError" := upstream]));
      PatchSession(PendingState(NO_CHANGE, []).(streamState := Some(StreamState.Failed), lastStreamError := Some(Some(shown))));
    }

    method AppendError(failure: Failure)
      modifies this, state, cache
      ensures Value() == AppendStreamError(reducers, old(Value()), failure)
      ensures OthersKept()
    {
      var code := failure.Code();
      if code == Some("timeout") || code == Some("stream_closed") || code == Some("stream_error")
         || code == Some("session_not_found") {
        MarkRecoverableInterruption(failure);
        return;
      }
      FinalizeStreamingFailure(failure);
    }

    method ResolveExistingTargetMessageIds() returns (targets: set<MessageId>)
      ensures targets == ExistingTargets(Value())
    {
      var currentMessages := cache.GetConversationMessages(conversationId);
      targets := set id | id in activeStreamMessageIds && Find(currentMessages, id).Some?;
      assert targets == set id | id in activeStreamMessageIds && id in History();
      if targets == {} && Find(currentMessages, activeAgentMessageId).Some? {
        targets := {activeAgentMessageId};
      }
    }

    method UpdateTargets(targetMessageIds: set<MessageId>, updater: Message -> Patch)
      modifies cache
      ensures Value() == old(Value()).(history := UpdatedAll(old(History()), targetMessageIds, updater))
      ensures OthersKept()
    {
      var targets := targetMessageIds;
      ghost var goal := UpdatedAll(History(), targets, updater);
      while targets != {}
        invariant Value() == old(Value()).(history := History())
        invariant UpdatedAll(History(), targets, updater) == goal
        invariant OthersKept()
        decreases targets
      {
        var messageId :| messageId in targets;
        UpdateOne(History(), targets, updater, messageId);
        UpdateMessage(messageId, updater);
        targets := targets - {messageId};
      }
      UpdateNone(History(), updater);
    }

    method CloseAsDone(targets: set<MessageId>)
      modifies cache
      ensures Value() == old(Value()).(history := Closed(reducers, old(History()), targets))
      ensures OthersKept()
    {
      ghost var before := History();
      var r := reducers;
      var updater := (m: Message) => Patch(None, None, Some(Done), Some(r.finalize(m.blocks).GetOr([])), map[]);
      UpdateTargets(targets, updater);
      assert UpdatedAll(before, targets, updater) == Closed(r, before, targets);
    }

    method CloseWithError(targets: set<MessageId>, errorText: string, stamp: string)
      modifies cache
      ensures Value() == old(Value()).(history := ClosedWithError(reducers, old(History()), targets, errorText, stamp))
      ensures OthersKept()
    {
      ghost var before := History();
      var r := reducers;
      var updater := (m: Message) =>
        var block := Block(m.id + ":error:" + stamp, "system_error", "[Stream Error: " + errorText + "]", true);
        Patch(None, None, Some(Done), Some(r.finalize(m.blocks).GetOr([]) + [block]), map[]);
      UpdateTargets(targets, updater);
      assert UpdatedAll(before, targets, updater) == ClosedWithError(r, before, targets, errorText, stamp);
    }

    /** An empty error text is none; `stamp` is the time in the id of the error block. */
    method CloseStreamingMessages(errorText: string, stamp: string)
      modifies this, cache
      ensures Value() == old(Value()).(activeIds := {}, history :=
        var targets := ExistingTargets(old(Value()));
        if errorText == "" then Closed(reducers, old(History()), targets)
        else ClosedWithError(reducers, old(History()), targets, errorText, stamp))
      ensures OthersKept()
    {
      var targets := ResolveExistingTargetMessageIds();
      if errorText == "" {
        CloseAsDone(targets);
      } else {
        CloseWithError(targets, errorText, stamp);
      }
      activeStreamMessageIds := {};
    }

    method FinalizeCompletion()
      modifies this, state, cache
      ensures Value() == FinishCompletion(reducers, old(Value()))
      ensures OthersKept()
    {
      CloseStreamingMessages("", "");
      MarkSessionIdle();
    }

    method NeedsEmptyRenderRecovery(targets: set<MessageId>) returns (needed: bool)
      ensures needed == NeedsBackfill(Value(), targets)
    {
      if !hasObservedStreamEvent || targets == {} {
        return false;
      }
      var mergedMessages := cache.GetConversationMessages(conversationId);
      var rest := targets;
      while rest != {}
        invariant rest <= targets
        invariant forall id :: id in targets && id !in rest ==> !Renderable(Value(), id)
        decreases rest
      {
        var id :| id in rest;
        var renderable := HasRenderableAgentContent(Find(mergedMessages, id));
        if renderable {
          assert Renderable(Value(), id);
          return false;
        }
        rest := rest - {id};
      }
      return true;
    }

    /** A completion that rendered nothing waits for the history page; any other is finished at once. */
    method FinalizeOrBackfill(targets: set<MessageId>)
      modifies this, state, cache
      ensures Value() ==
        if NeedsBackfill(old(Value()), targets) then old(Value()).(backfilling := Some(targets))
        else FinishCompletion(reducers, old(Value()))
      ensures OthersKept()
    {
      var needsEmptyRenderRecovery := NeedsEmptyRenderRecovery(targets);
      if needsEmptyRenderRecovery {
        backfilling := Some(targets);
      } else {
        FinalizeCompletion();
      }
    }

    method CompleteStreamingMessage()
      modifies this, state, cache
      ensures Value() == CompleteStreaming(reducers, old(Value()))
      ensures OthersKept()
    {
      if terminalHandled {
        return;
      }
      BeginEnding(Completion);
      var targets := ResolveExistingTargetMessageIds();
      assert targets == ExistingTargets(old(Value()));
      FlushChunkBuffer();
      FinalizeOrBackfill(targets);
    }

    /** The history page of an empty completion arrived; an empty list when the request failed. */
    method BackfillHistory(recovered: seq<Message>)
      modifies this, state, cache
      ensures Value() == Backfilled(reducers, old(Value()), recovered)
      ensures OthersKept()
    {
      if recovered != [] {
        var current := cache.GetConversationMessages(conversationId);
        var nextMessages := MergeChatMessagesByCanonicalId(current, recovered, false);
        MergedView(cache.EntryOf(conversationId), recovered);
        cache.SetConversationMessages(conversationId, nextMessages);
      }
      backfilling := None;
      FinalizeCompletion();
    }

    // -------------------------------------------------------------- transports

    method OnWebSocketData(incident: Incident, now: int) returns (stop: bool)
      modifies this, state, cache
      ensures stop == WsStops(old(Value()), incident)
      ensures Value() == OnWsData(reducers, old(Value()), incident, now)
      ensures OthersKept()
    {
      match incident
      case ErrorEvent(failure) =>
        if failure.errorCode == Some("session_not_found") {
          MarkRecoverableInterruption(failure);
          return true;
        }
        AppendError(failure);
        return true;
      case StreamEnd =>
        return terminalHandled;
      case Payload(data) =>
        stop := ApplyIncomingStreamData(data, now);
    }

    method UseTransport(transport: string)
      modifies state
      ensures Value() == old(Value()).(session := WithTransport(old(CurrentSession()), transport))
      ensures OthersKept()
    {
      PatchSession(NO_CHANGE.(transport := Some(transport)));
    }

    /** After a transport returned true. */
    method OnStreamReturned()
      modifies this, state, cache
      ensures Value() == AfterStream(reducers, old(Value()))
      ensures OthersKept()
    {
      if !terminalHandled {
        MarkRecoverableInterruption(
          PlainFailure(if terminalRuntimeStatusSeen then ACK_MISSING_AFTER_FINAL else ACK_MISSING,
                       Some("missing_persisted_completion_ack")));
      }
    }

    /** After a transport raised an authentication or authorisation failure. */
    method OnAuthFailure(message: string)
      modifies this, state, cache
      ensures Value() == AfterAuthFailure(reducers, old(Value()), message)
      ensures OthersKept()
    {
      FlushChunkBuffer();
      PatchMessageBy(activeAgentMessageId, Patch(None, Some(message), Some(Done), None, map[]));
      PatchSession(PendingState(NO_CHANGE, []).(streamState := Some(StreamState.Failed), lastStreamError := Some(Some(message))));
    }

    /** After no transport took the turn; true if the JSON request is to be sent. */
    method OnTransportsExhausted() returns (sendJson: bool)
      modifies this, state, cache
      ensures sendJson == !old(hasObservedStreamEvent)
      ensures Value() ==
        if sendJson then old(Value()).(session := WithTransport(old(CurrentSession()), "http_json"))
        else MarkRecoverable(reducers, old(Value()), INTERRUPTED_EARLY)
      ensures OthersKept()
    {
      if hasObservedStreamEvent {
        MarkRecoverableInterruption(PlainFailure(INTERRUPTED_EARLY, Some("stream_interrupted")));
        return false;
      }
      UseTransport("http_json");
      return true;
    }

    method OnJsonSuccess(content: string)
      modifies this, state, cache
      ensures Value() == AfterJsonSuccess(old(Value()), content)
      ensures OthersKept()
    {
      PatchMessageBy(activeAgentMessageId,
                     Patch(None, Some(content), Some(Done), None, map["errorCode" := None, "errorMessage" := None]));
      MarkSessionIdle();
    }
  }
}
