/**
 * Buffering refines immediate application (frontend/store/chatRuntime.ts:450-603): whatever the
 * schedule of arrivals, timer flushes, forced flushes and rekeys, the history with the buffered
 * chunks applied is the history in which every accepted chunk was applied on arrival.
 */
module Buffering {
  import opened Prelude
  import opened Text
  import opened Messages
  import opened Sessions
  import opened ChatTurn

  /** The turn as if nothing were waiting in the buffer: what a flush would leave. */
  function Settled(r: Reducers, t: Turn): Turn {
    Flush(r, t)
  }

  function ApplyOne(r: Reducers, m: Message, c: Chunk): Message {
    var blocks := Some(r.apply(m.blocks, c));
    m.(blocks := blocks, content := r.project(blocks), status := Some(Streaming))
  }

  /** The reference: a chunk is applied to its message at once. */
  function Deliver(r: Reducers, t: Turn, c: Chunk, now: int): Turn {
    var u := Resolve(r, t, c, now);
    u.(history := Extended(r, u.history, TargetOf(t, c), c))
  }

  function EnqueueAtOnce(r: Reducers, t: Turn, c: Chunk, now: int): Turn {
    if Duplicate(t, c) then t
    else Deliver(r, AdvanceCursor(MarkSeen(t, c), c.sequence), c, now)
  }

  function WaitingFor(t: Turn, id: MessageId): seq<Chunk> {
    if id in t.buffer then t.buffer[id] else []
  }

  /**
   * The chunk makes a message anew while chunks for a message of this id, rekeyed away since, still
   * wait in the buffer: the next flush gives them to the new message.
   */
  predicate Revives(t: Turn, c: Chunk) {
    c.messageId !in t.alias && c.messageId !in t.history && t.active !in t.history && WaitingFor(t, c.messageId) != []
  }

  /** The chunk's id was mapped to a message that has since been rekeyed away. */
  predicate StaleAlias(t: Turn, c: Chunk) {
    c.messageId in t.alias && t.alias[c.messageId] !in t.history
  }

  // ---------------------------------------------------------------- one chunk

  lemma FoldMore(r: Reducers, blocks: Option<seq<Block>>, chunks: seq<Chunk>, c: Chunk)
    ensures FoldBlocks(r, blocks, chunks + [c]) == Some(r.apply(FoldBlocks(r, blocks, chunks), c))
  {
    assert (chunks + [c])[..|chunks|] == chunks;
  }

  lemma ApplyMore(r: Reducers, m: Message, chunks: seq<Chunk>, c: Chunk)
    ensures ApplyChunks(r, m, chunks + [c]) == ApplyOne(r, ApplyChunks(r, m, chunks), c)
  {
    FoldMore(r, m.blocks, chunks, c);
    assert m.extras + map[] == m.extras;
    if chunks != [] {
      assert FoldBlocks(r, m.blocks, chunks).Some?;
    }
  }

  lemma DrainedNothing(r: Reducers, history: map<string, Message>)
    ensures Drained(r, history, map[]) == history
  {
  }

  /** A second flush finds nothing to do. */
  lemma FlushTwice(r: Reducers, t: Turn)
    ensures Flush(r, Flush(r, t)) == Flush(r, t)
  {
    DrainedNothing(r, Drained(r, t.history, t.buffer));
  }

  function Extended(r: Reducers, history: map<string, Message>, target: MessageId, c: Chunk): map<string, Message> {
    if target in history then history[target := ApplyOne(r, history[target], c)] else history
  }

  /** Buffering a chunk applies it to its message, once the buffer is applied. */
  lemma DrainedOneMore(r: Reducers, history: map<string, Message>, buffer: map<MessageId, seq<Chunk>>, target: MessageId, c: Chunk)
    ensures
      var waiting := if target in buffer then buffer[target] else [];
      Drained(r, history, buffer[target := waiting + [c]]) == Extended(r, Drained(r, history, buffer), target, c)
  {
    var waiting := if target in buffer then buffer[target] else [];
    var longer, one := Drained(r, history, buffer[target := waiting + [c]]), Extended(r, Drained(r, history, buffer), target, c);
    assert longer.Keys == history.Keys && one.Keys == history.Keys;
    forall id | id in history ensures longer[id] == one[id] {
      if id == target {
        ApplyMore(r, history[id], waiting, c);
      }
    }
  }

  lemma DrainedWithNewMessage(r: Reducers, history: map<string, Message>, buffer: map<MessageId, seq<Chunk>>, id: MessageId, m: Message)
    ensures
      Drained(r, history[id := m], buffer)
      == Drained(r, history, buffer)[id := ApplyChunks(r, m, if id in buffer then buffer[id] else [])]
  {
  }

  lemma SameTarget(r: Reducers, t: Turn, c: Chunk)
    ensures TargetOf(Settled(r, t), c) == TargetOf(t, c)
  {
    assert Settled(r, t).history.Keys == t.history.Keys;
  }

  lemma TakeOverCommutes(r: Reducers, t: Turn, id: MessageId)
    ensures Settled(r, TakeOver(r, t, id)) == TakeOver(r, Settled(r, t), id)
  {
    DrainedNothing(r, Drained(r, t.history, t.buffer));
    DrainedNothing(r, TakeOver(r, t, id).history);
  }

  lemma StartMessageCommutes(r: Reducers, t: Turn, id: MessageId, now: int)
    requires WaitingFor(t, id) == []
    ensures Settled(r, StartMessage(t, id, now)) == StartMessage(Settled(r, t), id, now)
  {
    DrainedWithNewMessage(r, t.history, t.buffer, id, NewAgentMessage(id, now));
  }

  lemma MapToCommutes(r: Reducers, t: Turn, id: MessageId, target: MessageId)
    ensures Settled(r, MarkActive(t, target)) == MarkActive(Settled(r, t), target)
    ensures Settled(r, MapTo(t, id, target)) == MapTo(Settled(r, t), id, target)
  {
  }

  /** Resolving the target commutes with applying the buffer. */
  lemma ResolveCommutes(r: Reducers, t: Turn, c: Chunk, now: int)
    requires !Revives(t, c)
    ensures Settled(r, Resolve(r, t, c, now)) == Resolve(r, Settled(r, t), c, now)
  {
    assert Settled(r, t).history.Keys == t.history.Keys;
    if c.messageId in t.alias {
      MapToCommutes(r, t, c.messageId, t.alias[c.messageId]);
    } else if c.messageId in t.history {
      MapToCommutes(r, t, c.messageId, c.messageId);
    } else if t.active !in t.history {
      StartMessageCommutes(r, t, c.messageId, now);
    } else if c.upstream {
      TakeOverCommutes(r, t, c.messageId);
    } else {
      MapToCommutes(r, t, c.messageId, t.active);
    }
  }

  /** The history once the target of a chunk was found or made. */
  function ResolvedHistory(r: Reducers, t: Turn, c: Chunk, now: int): map<string, Message> {
    if c.messageId in t.alias || c.messageId in t.history then t.history
    else if t.active !in t.history then t.history[c.messageId := NewAgentMessage(c.messageId, now)]
    else if c.upstream then Renamed(Drained(r, t.history, t.buffer), t.active, c.messageId)
    else t.history
  }

  function ResolvedBuffer(t: Turn, c: Chunk): map<MessageId, seq<Chunk>> {
    if c.messageId !in t.alias && c.messageId !in t.history && t.active in t.history && c.upstream then map[]
    else t.buffer
  }

  lemma MapToParts(t: Turn, id: MessageId, target: MessageId)
    ensures
      var u := MapTo(t, id, target);
      && u.history == t.history && u.buffer == t.buffer && u.seen == t.seen && u.timer == t.timer
      && u.active == target && u.alias == t.alias[id := target] && u.activeIds == t.activeIds + {target}
  {
  }

  lemma ResolveParts(r: Reducers, t: Turn, c: Chunk, now: int)
    ensures
      var u := Resolve(r, t, c, now);
      u.history == ResolvedHistory(r, t, c, now) && u.buffer == ResolvedBuffer(t, c) && u.seen == t.seen
  {
    if c.messageId in t.alias {
    } else if c.messageId in t.history {
      MapToParts(t, c.messageId, c.messageId);
    } else if t.active !in t.history {
      MapToParts(t.(history := t.history[c.messageId := NewAgentMessage(c.messageId, now)]), c.messageId, c.messageId);
    } else if c.upstream {
      var f := Flush(r, t);
      MapToParts(f.(history := Renamed(f.history, t.active, c.messageId), activeIds := t.activeIds - {t.active}),
                 c.messageId, c.messageId);
    } else {
      MapToParts(t, c.messageId, t.active);
    }
  }

  /** The target exists after it was resolved, unless the alias is stale. */
  lemma ResolveFindsTarget(r: Reducers, t: Turn, c: Chunk, now: int)
    ensures TargetOf(t, c) in Resolve(r, t, c, now).history <==> !StaleAlias(t, c)
  {
    ResolveParts(r, t, c, now);
  }

  lemma AppendCommutes(r: Reducers, t: Turn, c: Chunk, now: int)
    requires !Revives(t, c)
    ensures Settled(r, Append(r, t, c, now)) == Deliver(r, Settled(r, t), c, now)
  {
    SameTarget(r, t, c);
    ResolveCommutes(r, t, c, now);
    AppendExtends(r, t, c, now);
  }

  /** Once its target was found, a chunk extends that message, whatever else waits in the buffer. */
  lemma AppendExtends(r: Reducers, t: Turn, c: Chunk, now: int)
    ensures
      var s := Settled(r, Resolve(r, t, c, now));
      Settled(r, Append(r, t, c, now)) == s.(history := Extended(r, s.history, TargetOf(t, c), c))
  {
    BufferedCommutes(r, Resolve(r, t, c, now), TargetOf(t, c), c);
  }

  lemma BufferedCommutes(r: Reducers, u: Turn, target: MessageId, c: Chunk)
    ensures
      var b, s := Buffered(u, target, c), Settled(r, u);
      && Settled(r, b) == s.(history := Extended(r, s.history, target, c))
      && Settled(r, b.(timer := true)) == Settled(r, b)
      && Settled(r, Flush(r, b)) == Settled(r, b)
  {
    DrainedOneMore(r, u.history, u.buffer, target, c);
    FlushTwice(r, Buffered(u, target, c));
  }

  /** Buffering, and the flush it may trigger, leave the routing of chunks alone. */
  lemma AppendParts(r: Reducers, t: Turn, c: Chunk, now: int)
    ensures
      var u, a := Resolve(r, t, c, now), Append(r, t, c, now);
      && a.alias == u.alias && a.active == u.active && a.activeIds == u.activeIds && a.seen == u.seen
      && a.history.Keys == u.history.Keys
  {
    var u := Resolve(r, t, c, now);
    var b := Buffered(u, TargetOf(t, c), c);
    if FlushesAtOnce(b, TargetOf(t, c), c) {
      assert Append(r, t, c, now) == Flush(r, b);
    } else {
      assert Append(r, t, c, now) == b.(timer := true);
    }
  }

  /** The bookkeeping of an accepted chunk, before it is placed. */
  function Counted(t: Turn, c: Chunk): Turn {
    AdvanceCursor(MarkSeen(t, c), c.sequence)
  }

  lemma CountedKeepsPlaces(t: Turn, c: Chunk)
    ensures
      var u := Counted(t, c);
      && u.history == t.history && u.buffer == t.buffer && u.alias == t.alias && u.active == t.active
      && u.seen == (if c.weak then t.seen else t.seen + {c.eventId})
  {
    if Advances(t.highest, c.sequence) {
      if c.weak {
      }
    } else if c.weak {
    }
  }

  lemma CountedCommutes(r: Reducers, t: Turn, c: Chunk)
    ensures Settled(r, Counted(t, c)) == Counted(Settled(r, t), c)
  {
    if Advances(t.highest, c.sequence) {
      if c.weak {
      } else {
      }
    } else {
      if c.weak {
      } else {
      }
    }
  }

  /** Accepting one chunk into the buffer refines applying it at once. */
  lemma EnqueueCommutes(r: Reducers, t: Turn, c: Chunk, now: int)
    requires Duplicate(t, c) || !Revives(t, c)
    ensures Settled(r, Enqueue(r, t, c, now)) == EnqueueAtOnce(r, Settled(r, t), c, now)
  {
    if !Duplicate(t, c) {
      CountedCommutes(r, t, c);
      CountedKeepsPlaces(t, c);
      AppendCommutes(r, Counted(t, c), c, now);
    }
  }

  // ---------------------------------------------------------------- every schedule

  datatype Arrival = Arrive(chunk: Chunk, now: int) | FlushNow

  function RunBuffered(r: Reducers, t: Turn, arrivals: seq<Arrival>): Turn
    decreases arrivals
  {
    if arrivals == [] then t
    else RunBuffered(r, if arrivals[0].Arrive? then Enqueue(r, t, arrivals[0].chunk, arrivals[0].now) else Flush(r, t), arrivals[1..])
  }

  /** No accepted chunk of the schedule gives a new message the chunks of an old one. */
  predicate NeverRevives(r: Reducers, t: Turn, arrivals: seq<Arrival>)
    decreases arrivals
  {
    arrivals != [] ==>
      match arrivals[0]
      case FlushNow => NeverRevives(r, Flush(r, t), arrivals[1..])
      case Arrive(c, now) => (Duplicate(t, c) || !Revives(t, c)) && NeverRevives(r, Enqueue(r, t, c, now), arrivals[1..])
  }

  /** The chunks of a schedule that are not duplicates, in arrival order. */
  function Accepted(seen: set<string>, arrivals: seq<Arrival>): seq<Arrival>
    decreases arrivals
  {
    if arrivals == [] then []
    else match arrivals[0]
      case FlushNow => Accepted(seen, arrivals[1..])
      case Arrive(c, _) =>
        if c.weak then [arrivals[0]] + Accepted(seen, arrivals[1..])
        else if c.eventId in seen then Accepted(seen, arrivals[1..])
        else [arrivals[0]] + Accepted(seen + {c.eventId}, arrivals[1..])
  }

  /** Applies chunks one by one in arrival order, with no buffer, no timer and no duplicate check. */
  function DeliverAll(r: Reducers, t: Turn, accepted: seq<Arrival>): Turn
    decreases accepted
  {
    if accepted == [] then t
    else match accepted[0]
      case FlushNow => DeliverAll(r, t, accepted[1..])
      case Arrive(c, now) => DeliverAll(r, Deliver(r, AdvanceCursor(MarkSeen(t, c), c.sequence), c, now), accepted[1..])
  }

  lemma SeenAfterEnqueue(r: Reducers, t: Turn, c: Chunk, now: int)
    ensures Enqueue(r, t, c, now).seen == if c.weak || Duplicate(t, c) then t.seen else t.seen + {c.eventId}
  {
    if !Duplicate(t, c) {
      CountedKeepsPlaces(t, c);
      ResolveParts(r, Counted(t, c), c, now);
      AppendParts(r, Counted(t, c), c, now);
    }
  }

  /**
   * For every schedule: the messages with their buffered chunks applied are the messages to which
   * the accepted chunks were applied one by one on arrival.
   */
  lemma {:induction false} BufferingRefinesImmediate(r: Reducers, t: Turn, arrivals: seq<Arrival>)
    requires NeverRevives(r, t, arrivals)
    ensures Settled(r, RunBuffered(r, t, arrivals)) == DeliverAll(r, Settled(r, t), Accepted(t.seen, arrivals))
    decreases arrivals
  {
    if arrivals == [] {
    } else if arrivals[0].FlushNow? {
      FlushTwice(r, t);
      BufferingRefinesImmediate(r, Flush(r, t), arrivals[1..]);
    } else {
      var c, now := arrivals[0].chunk, arrivals[0].now;
      var next := Enqueue(r, t, c, now);
      EnqueueCommutes(r, t, c, now);
      SeenAfterEnqueue(r, t, c, now);
      BufferingRefinesImmediate(r, next, arrivals[1..]);
      assert RunBuffered(r, t, arrivals) == RunBuffered(r, next, arrivals[1..]);
      AcceptedStep(r, Settled(r, t), arrivals);
    }
  }

  lemma AcceptedStep(r: Reducers, s: Turn, arrivals: seq<Arrival>)
    requires arrivals != [] && arrivals[0].Arrive?
    ensures
      var c, now := arrivals[0].chunk, arrivals[0].now;
      var rest := Accepted(if c.weak || Duplicate(s, c) then s.seen else s.seen + {c.eventId}, arrivals[1..]);
      DeliverAll(r, s, Accepted(s.seen, arrivals)) == DeliverAll(r, EnqueueAtOnce(r, s, c, now), rest)
  {
    var c := arrivals[0].chunk;
    var rest := Accepted(if c.weak || Duplicate(s, c) then s.seen else s.seen + {c.eventId}, arrivals[1..]);
    assert ([arrivals[0]] + rest)[1..] == rest;
  }

  predicate StrongOnce(accepted: seq<Arrival>, seen: set<string>) {
    && (forall i :: 0 <= i < |accepted| ==> accepted[i].Arrive?)
    && (forall i :: 0 <= i < |accepted| && !accepted[i].chunk.weak ==> accepted[i].chunk.eventId !in seen)
    && (forall i, j :: 0 <= i < j < |accepted| && !accepted[i].chunk.weak && !accepted[j].chunk.weak ==>
          accepted[i].chunk.eventId != accepted[j].chunk.eventId)
  }

  /** At most one chunk is accepted per strong event id, and none whose id was seen before. */
  lemma {:induction false} AcceptedOncePerEvent(seen: set<string>, arrivals: seq<Arrival>)
    ensures StrongOnce(Accepted(seen, arrivals), seen)
    decreases arrivals
  {
    if arrivals != [] {
      match arrivals[0]
      case FlushNow =>
        AcceptedOncePerEvent(seen, arrivals[1..]);
      case Arrive(c, _) =>
        var seen' := if c.weak then seen else seen + {c.eventId};
        AcceptedOncePerEvent(seen', arrivals[1..]);
        AcceptedOncePerEvent(seen, arrivals[1..]);
    }
  }

  // ---------------------------------------------------------------- one id, one message

  /** Placing a chunk remembers its target under its id, makes that the active message, and forgets no other id. */
  lemma ResolveRemembers(r: Reducers, t: Turn, c: Chunk, now: int)
    ensures
      var u := Resolve(r, t, c, now);
      u.alias == t.alias[c.messageId := TargetOf(t, c)] && u.active == TargetOf(t, c)
  {
    if c.messageId in t.alias {
      assert t.alias[c.messageId := t.alias[c.messageId]] == t.alias;
    } else if c.messageId in t.history {
      MapToParts(t, c.messageId, c.messageId);
    } else if t.active !in t.history {
      MapToParts(t.(history := t.history[c.messageId := NewAgentMessage(c.messageId, now)]), c.messageId, c.messageId);
    } else if c.upstream {
      var f := Flush(r, t);
      MapToParts(f.(history := Renamed(f.history, t.active, c.messageId), activeIds := t.activeIds - {t.active}),
                 c.messageId, c.messageId);
    } else {
      MapToParts(t, c.messageId, t.active);
    }
  }

  /** Chunks of one message id stay together for the whole run, whatever comes between them. */
  lemma {:induction false} ChunksStayTogether(r: Reducers, t: Turn, c: Chunk, now: int, arrivals: seq<Arrival>, d: Chunk)
    requires !Duplicate(t, c) && d.messageId == c.messageId
    ensures TargetOf(RunBuffered(r, Enqueue(r, t, c, now), arrivals), d) == TargetOf(t, c)
  {
    var u := Enqueue(r, t, c, now);
    CountedKeepsPlaces(t, c);
    ResolveRemembers(r, Counted(t, c), c, now);
    AppendParts(r, Counted(t, c), c, now);
    AliasStays(r, u, arrivals, c.messageId);
  }

  lemma {:induction false} AliasStays(r: Reducers, t: Turn, arrivals: seq<Arrival>, id: MessageId)
    requires id in t.alias
    ensures id in RunBuffered(r, t, arrivals).alias && RunBuffered(r, t, arrivals).alias[id] == t.alias[id]
    decreases arrivals
  {
    if arrivals != [] {
      if arrivals[0].Arrive? && !Duplicate(t, arrivals[0].chunk) {
        var c, now := arrivals[0].chunk, arrivals[0].now;
        CountedKeepsPlaces(t, c);
        ResolveRemembers(r, Counted(t, c), c, now);
        AppendParts(r, Counted(t, c), c, now);
        assert Enqueue(r, t, c, now).alias == t.alias[c.messageId := TargetOf(t, c)];
      }
      AliasStays(r, if arrivals[0].Arrive? then Enqueue(r, t, arrivals[0].chunk, arrivals[0].now) else Flush(r, t), arrivals[1..], id);
    }
  }

  // ---------------------------------------------------------------- the stale alias

  lemma CountedResolves(r: Reducers, t: Turn, c: Chunk, now: int)
    ensures Resolve(r, Counted(t, c), c, now).history == Resolve(r, t, c, now).history
    ensures Resolve(r, Counted(t, c), c, now).buffer == Resolve(r, t, c, now).buffer
    ensures TargetOf(Counted(t, c), c) == TargetOf(t, c)
  {
    CountedKeepsPlaces(t, c);
    ResolveParts(r, t, c, now);
    ResolveParts(r, Counted(t, c), c, now);
  }

  /**
   * An accepted chunk reaches a message exactly when its alias is not stale; then that message
   * alone is extended by it, and otherwise no message changes. Whatever waits in the buffer.
   */
  lemma ChunkLandsUnlessStale(r: Reducers, t: Turn, c: Chunk, now: int)
    requires !Duplicate(t, c)
    ensures
      var target := TargetOf(t, c);
      var before, after := Settled(r, Resolve(r, t, c, now)).history, Settled(r, Enqueue(r, t, c, now)).history;
      && (target in after <==> !StaleAlias(t, c))
      && after == Extended(r, before, target, c)
      && (StaleAlias(t, c) ==> after == Settled(r, t).history)
  {
    AppendExtends(r, Counted(t, c), c, now);
    CountedResolves(r, t, c, now);
    ResolveFindsTarget(r, t, c, now);
    ResolveParts(r, t, c, now);
  }

  /**
   * Stale aliases do occur, from any state with a live placeholder: a made-up id is mapped to the
   * placeholder, an upstream id takes the placeholder over, and the made-up id comes back.
   */
  lemma RekeyMakesAliasStale(r: Reducers, t: Turn, a: Chunk, x: Chunk)
    requires t.active in t.history && a.messageId != x.messageId
    requires !Duplicate(t, a) && a.messageId !in t.alias && a.messageId !in t.history && !a.upstream
    requires x.weak && x.messageId !in t.alias && x.messageId !in t.history && x.upstream
    ensures StaleAlias(Enqueue(r, Enqueue(r, t, a, 0), x, 0), a)
  {
    MadeUpIdMapsToPlaceholder(r, t, a);
    SecondTakesOver(r, Enqueue(r, t, a, 0), t.active, x, a);
  }

  /**
   * Upstream ids go stale as well: `a` takes the placeholder over, `b` takes over the message of
   * `a`, and `a` comes back. The message of `a` is then shown as that of `b`.
   */
  lemma UpstreamIdGoesStale(r: Reducers, t: Turn, a: Chunk, b: Chunk)
    requires t.active in t.history && a.messageId != b.messageId
    requires !Duplicate(t, a) && a.messageId !in t.alias && a.messageId !in t.history && a.upstream
    requires b.weak && b.messageId !in t.alias && b.messageId !in t.history && b.upstream
    ensures StaleAlias(Enqueue(r, Enqueue(r, t, a, 0), b, 0), a)
  {
    UpstreamIdTakesOver(r, t, a);
    TakenOverTwice(r, t, Enqueue(r, t, a, 0), a, b);
  }

  lemma TakenOverTwice(r: Reducers, t: Turn, t1: Turn, a: Chunk, b: Chunk)
    requires t1.alias == t.alias[a.messageId := a.messageId] && t1.active == a.messageId
    requires t1.history.Keys == t.history.Keys - {t.active} + {a.messageId}
    requires b.weak && a.messageId != b.messageId && b.messageId !in t.alias && b.messageId !in t.history && b.upstream
    ensures StaleAlias(Enqueue(r, t1, b, 0), a)
  {
    SecondTakesOver(r, t1, a.messageId, b, a);
  }

  /** Whatever was mapped to the active message goes stale when an upstream id takes it over. */
  lemma SecondTakesOver(r: Reducers, t: Turn, active: MessageId, b: Chunk, c: Chunk)
    requires t.active == active && active in t.history.Keys && c.messageId in t.alias && t.alias[c.messageId] == active
    requires !Duplicate(t, b) && b.messageId !in t.alias && b.messageId !in t.history.Keys && b.upstream
    ensures StaleAlias(Enqueue(r, t, b, 0), c)
  {
    UpstreamIdTakesOver(r, t, b);
    assert active !in Enqueue(r, t, b, 0).history.Keys;
  }

  lemma MadeUpIdMapsToPlaceholder(r: Reducers, t: Turn, a: Chunk)
    requires !Duplicate(t, a) && a.messageId !in t.alias && a.messageId !in t.history && t.active in t.history && !a.upstream
    ensures
      var u := Enqueue(r, t, a, 0);
      u.alias == t.alias[a.messageId := t.active] && u.active == t.active && u.history.Keys == t.history.Keys
  {
    var u := Counted(t, a);
    CountedKeepsPlaces(t, a);
    assert Resolve(r, u, a, 0) == MapTo(u, a.messageId, u.active);
    MapToParts(u, a.messageId, u.active);
    AppendParts(r, u, a, 0);
  }

  lemma UpstreamIdTakesOver(r: Reducers, t: Turn, x: Chunk)
    requires !Duplicate(t, x) && x.messageId !in t.alias && x.messageId !in t.history && t.active in t.history && x.upstream
    ensures
      var u := Enqueue(r, t, x, 0);
      && u.alias == t.alias[x.messageId := x.messageId] && u.active == x.messageId
      && u.history.Keys == t.history.Keys - {t.active} + {x.messageId}
  {
    var u := Counted(t, x);
    CountedKeepsPlaces(t, x);
    assert Resolve(r, u, x, 0) == TakeOver(r, u, x.messageId);
    var f := Flush(r, u);
    MapToParts(f.(history := Renamed(f.history, u.active, x.messageId), activeIds := u.activeIds - {u.active}),
               x.messageId, x.messageId);
    AppendParts(r, u, x, 0);
  }

  // ---------------------------------------------------------------- the exact condition

  /** A reducer that adds a block for every chunk. */
  const COUNTING := Reducers(
    (blocks: Option<seq<Block>>, c: Chunk) => blocks.GetOr([]) + [Block("", "", "", true)],
    (blocks: Option<seq<Block>>) => "",
    (blocks: Option<seq<Block>>) => blocks,
    (i: RuntimeInterrupt) => "")

  lemma {:induction false} CountingFold(blocks: seq<Block>, chunks: seq<Chunk>)
    ensures FoldBlocks(COUNTING, Some(blocks), chunks).Some?
    ensures |FoldBlocks(COUNTING, Some(blocks), chunks).value| == |blocks| + |chunks|
  {
    if chunks != [] {
      CountingFold(blocks, chunks[..|chunks| - 1]);
    }
  }

  lemma CountingMessage(m: Message, chunks: seq<Chunk>)
    requires m.blocks.Some?
    ensures BlockCount(ApplyChunks(COUNTING, m, chunks)) == BlockCount(m) + |chunks|
  {
    CountingFold(m.blocks.value, chunks);
  }

  lemma RevivedMessage(r: Reducers, t: Turn, c: Chunk, now: int)
    requires !Duplicate(t, c) && Revives(t, c)
    ensures
      var h, h' := Settled(r, Enqueue(r, t, c, now)).history, EnqueueAtOnce(r, Settled(r, t), c, now).history;
      var m := NewAgentMessage(c.messageId, now);
      && c.messageId in h && h[c.messageId] == ApplyOne(r, ApplyChunks(r, m, t.buffer[c.messageId]), c)
      && c.messageId in h' && h'[c.messageId] == ApplyOne(r, m, c)
  {
    var s, m := Settled(r, t), NewAgentMessage(c.messageId, now);
    ChunkLandsUnlessStale(r, t, c, now);
    ResolveParts(r, t, c, now);
    DrainedWithNewMessage(r, t.history, t.buffer, c.messageId, m);
    CountedResolves(r, s, c, now);
    ResolveParts(r, s, c, now);
    assert EnqueueAtOnce(r, s, c, now) == Deliver(r, Counted(s, c), c, now);
  }

  /**
   * Buffering one chunk refines applying it at once, whatever the reducers do, exactly when it does
   * not give a new message the chunks of an old one.
   */
  lemma RefinedExactlyWithoutRevival(t: Turn, c: Chunk, now: int)
    ensures
      (forall r :: Settled(r, Enqueue(r, t, c, now)) == EnqueueAtOnce(r, Settled(r, t), c, now))
      <==> Duplicate(t, c) || !Revives(t, c)
  {
    if Duplicate(t, c) || !Revives(t, c) {
      forall r ensures Settled(r, Enqueue(r, t, c, now)) == EnqueueAtOnce(r, Settled(r, t), c, now) {
        EnqueueCommutes(r, t, c, now);
      }
    } else {
      var m, waiting := NewAgentMessage(c.messageId, now), t.buffer[c.messageId];
      RevivedMessage(COUNTING, t, c, now);
      CountingMessage(m, waiting);
      CountingOne(ApplyChunks(COUNTING, m, waiting), c);
      CountingOne(m, c);
    }
  }

  lemma CountingOne(m: Message, c: Chunk)
    ensures BlockCount(ApplyOne(COUNTING, m, c)) == BlockCount(m) + 1
  {
  }

  /**
   * Revivals do occur: after a made-up id went stale its chunk waits for the placeholder that is
   * gone, and a chunk that names the placeholder makes it anew within the same flush window.
   */
  lemma StaleChunkIsRevived(r: Reducers, t: Turn, a: Chunk, x: Chunk, again: Chunk, p: Chunk)
    requires t.active in t.history && a.messageId != x.messageId
    requires !Duplicate(t, a) && a.messageId !in t.alias && a.messageId !in t.history && !a.upstream
    requires x.weak && x.messageId !in t.alias && x.messageId !in t.history && x.upstream
    requires again.weak && again.messageId == a.messageId
    requires p.messageId == t.active && p.messageId !in t.alias
    ensures Revives(Enqueue(r, Enqueue(r, Enqueue(r, t, a, 0), x, 0), again, 0), p)
  {
    var t1 := Enqueue(r, t, a, 0);
    MadeUpIdMapsToPlaceholder(r, t, a);
    UpstreamIdTakesOver(r, t1, x);
    WaitsForPlaceholder(r, Enqueue(r, t1, x, 0), t.active, again, p);
  }

  lemma WaitsForPlaceholder(r: Reducers, t: Turn, placeholder: MessageId, again: Chunk, p: Chunk)
    requires !Duplicate(t, again) && again.messageId in t.alias && t.alias[again.messageId] == placeholder
    requires placeholder !in t.history.Keys && placeholder !in t.alias && p.messageId == placeholder
    ensures Revives(Enqueue(r, t, again, 0), p)
  {
    StaleChunkWaits(r, t, again);
  }

  /** A stale chunk waits for the message that is gone, which becomes the active one. */
  lemma StaleChunkWaits(r: Reducers, t: Turn, c: Chunk)
    requires !Duplicate(t, c) && StaleAlias(t, c)
    ensures
      var u, target := Enqueue(r, t, c, 0), t.alias[c.messageId];
      && u.alias == t.alias && u.active == target && u.history == t.history
      && WaitingFor(u, target) == WaitingFor(t, target) + [c]
  {
    var u := Counted(t, c);
    CountedKeepsPlaces(t, c);
    assert Resolve(r, u, c, 0) == MarkActive(u, t.alias[c.messageId]);
    assert !FlushesAtOnce(Buffered(Resolve(r, u, c, 0), t.alias[c.messageId], c), t.alias[c.messageId], c);
  }
}
