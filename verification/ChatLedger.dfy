/**
 * Where the accepted chunks of a conversation end up (frontend/store/chatRuntime.ts:450-617). The
 * ledger records every accepted chunk since the last send or retry, across interruptions and
 * resumes; the messages are at every moment the fold of exactly the chunks that landed in them.
 */
module ChatLedger {
  import opened Prelude
  import opened Text
  import opened Messages
  import opened Sessions
  import opened ChatTurn
  import opened Buffering
  import opened TurnFacts

  /** A chunk landed in its message, waits for a message that is gone, or was dropped with the flush. */
  datatype Fate = Landed | Waiting | Lost

  /** `stale` says that the alias was stale on arrival; `revived`, that the missing message was made anew in time. */
  datatype Entry = Entry(chunk: Chunk, target: MessageId, stale: bool, revived: bool, fate: Fate)

  /** The blocks that the messages started with, and the accepted chunks in order of arrival. */
  datatype Ledger = Ledger(base: map<string, Option<seq<Block>>>, entries: seq<Entry>)

  function ChunksOf(entries: seq<Entry>, id: MessageId, fate: Fate): seq<Chunk> {
    if entries == [] then []
    else
      var e := entries[|entries| - 1];
      ChunksOf(entries[..|entries| - 1], id, fate) + (if e.target == id && e.fate == fate then [e.chunk] else [])
  }

  // ---------------------------------------------------------------- what happens to entries

  function Dropped(e: Entry): Entry {
    if e.fate.Waiting? then e.(fate := Lost) else e
  }

  function Renewed(e: Entry, id: MessageId): Entry {
    if e.fate.Waiting? && e.target == id then e.(fate := Landed, revived := true) else e
  }

  function Moved(e: Entry, from: MessageId, to: MessageId): Entry {
    if e.fate.Landed? && e.target == from then e.(target := to) else e
  }

  function DropWaiting(entries: seq<Entry>): (es: seq<Entry>)
    ensures |es| == |entries| && forall i :: 0 <= i < |es| ==> es[i] == Dropped(entries[i])
  {
    seq(|entries|, i requires 0 <= i < |entries| => Dropped(entries[i]))
  }

  function Renew(entries: seq<Entry>, id: MessageId): (es: seq<Entry>)
    ensures |es| == |entries| && forall i :: 0 <= i < |es| ==> es[i] == Renewed(entries[i], id)
  {
    seq(|entries|, i requires 0 <= i < |entries| => Renewed(entries[i], id))
  }

  function Move(entries: seq<Entry>, from: MessageId, to: MessageId): (es: seq<Entry>)
    ensures |es| == |entries| && forall i :: 0 <= i < |es| ==> es[i] == Moved(entries[i], from, to)
  {
    seq(|entries|, i requires 0 <= i < |entries| => Moved(entries[i], from, to))
  }

  lemma LastChunk(entries: seq<Entry>, id: MessageId, fate: Fate)
    requires entries != []
    ensures
      var n := |entries| - 1;
      ChunksOf(entries, id, fate) ==
        ChunksOf(entries[..n], id, fate) + (if entries[n].target == id && entries[n].fate == fate then [entries[n].chunk] else [])
  {
  }

  lemma {:induction false} DropWaitingChunks(entries: seq<Entry>, id: MessageId)
    ensures ChunksOf(DropWaiting(entries), id, Landed) == ChunksOf(entries, id, Landed)
    ensures ChunksOf(DropWaiting(entries), id, Waiting) == []
  {
    if entries != [] {
      var n := |entries| - 1;
      DropWaitingChunks(entries[..n], id);
      assert DropWaiting(entries)[..n] == DropWaiting(entries[..n]);
    }
  }

  lemma {:induction false} RenewChunks(entries: seq<Entry>, made: MessageId, id: MessageId)
    requires ChunksOf(entries, made, Landed) == []
    ensures ChunksOf(Renew(entries, made), id, Landed) == ChunksOf(entries, id, if id == made then Waiting else Landed)
    ensures ChunksOf(Renew(entries, made), id, Waiting) == if id == made then [] else ChunksOf(entries, id, Waiting)
  {
    if entries != [] {
      var n := |entries| - 1;
      RenewChunks(entries[..n], made, id);
      assert Renew(entries, made)[..n] == Renew(entries[..n], made);
    }
  }

  lemma {:induction false} MoveLanded(entries: seq<Entry>, from: MessageId, to: MessageId, id: MessageId)
    requires from != to && ChunksOf(entries, to, Landed) == []
    ensures ChunksOf(Move(entries, from, to), id, Landed) ==
      if id == to then ChunksOf(entries, from, Landed) else if id == from then [] else ChunksOf(entries, id, Landed)
  {
    if entries != [] {
      var n := |entries| - 1;
      var moved := Move(entries, from, to);
      LastChunk(entries, to, Landed);
      MoveLanded(entries[..n], from, to, id);
      assert moved[..n] == Move(entries[..n], from, to);
      LastChunk(moved, id, Landed);
      LastChunk(entries, id, Landed);
      LastChunk(entries, from, Landed);
      assert moved[n] == Moved(entries[n], from, to);
    }
  }

  lemma {:induction false} MoveWaiting(entries: seq<Entry>, from: MessageId, to: MessageId, id: MessageId)
    ensures ChunksOf(Move(entries, from, to), id, Waiting) == ChunksOf(entries, id, Waiting)
  {
    if entries != [] {
      var n := |entries| - 1;
      var moved := Move(entries, from, to);
      MoveWaiting(entries[..n], from, to, id);
      assert moved[..n] == Move(entries[..n], from, to);
      LastChunk(moved, id, Waiting);
      LastChunk(entries, id, Waiting);
      assert moved[n] == Moved(entries[n], from, to);
    }
  }

  lemma AddedChunks(entries: seq<Entry>, e: Entry, id: MessageId, fate: Fate)
    ensures ChunksOf(entries + [e], id, fate) ==
      ChunksOf(entries, id, fate) + (if e.target == id && e.fate == fate then [e.chunk] else [])
  {
    assert (entries + [e])[..|entries|] == entries;
  }

  // ---------------------------------------------------------------- the ledger of a turn

  function Flushed(l: Ledger): Ledger {
    l.(entries := DropWaiting(l.entries))
  }

  /** Finding or making the target: a new message starts empty, a message taken over keeps its chunks. */
  function Routed(t: Turn, l: Ledger, c: Chunk): Ledger {
    if c.messageId in t.alias || c.messageId in t.history then l
    else if t.active !in t.history then Ledger(l.base[c.messageId := Some([])], Renew(l.entries, c.messageId))
    else if c.upstream && t.active in l.base then
      Ledger((l.base - {t.active})[c.messageId := l.base[t.active]], Move(DropWaiting(l.entries), t.active, c.messageId))
    else l
  }

  function Arrived(t: Turn, c: Chunk): Entry {
    var stale := StaleAlias(t, c);
    Entry(c, TargetOf(t, c), stale, false, if stale then Waiting else Landed)
  }

  function Recorded(r: Reducers, t: Turn, l: Ledger, c: Chunk, now: int): Ledger {
    if Duplicate(t, c) then l
    else
      var found := Routed(t, l, c);
      var more := found.(entries := found.entries + [Arrived(t, c)]);
      if Enqueue(r, t, c, now).buffer == map[] then Flushed(more) else more
  }

  /**
   * A message, with the buffer applied, holds the blocks it started with and then exactly the chunks
   * that landed in it; a message that is gone holds none, and those that wait for it are in the buffer.
   */
  predicate AccountedAt(r: Reducers, history: map<string, Message>, buffer: map<MessageId, seq<Chunk>>, l: Ledger, id: MessageId) {
    if id in history then
      && id in l.base
      && Drained(r, history, buffer)[id].blocks == FoldBlocks(r, l.base[id], ChunksOf(l.entries, id, Landed))
      && ChunksOf(l.entries, id, Waiting) == []
    else
      && ChunksOf(l.entries, id, Landed) == []
      && ChunksOf(l.entries, id, Waiting) == if id in buffer then buffer[id] else []
  }

  /** Only a stale chunk ever waits or is dropped, and one that landed nevertheless was revived. */
  predicate FateOk(e: Entry) {
    (e.revived ==> e.stale && e.fate.Landed?) && (e.fate.Landed? <==> !e.stale || e.revived)
  }

  predicate FatesOk(l: Ledger) {
    forall i :: 0 <= i < |l.entries| ==> FateOk(l.entries[i])
  }

  ghost predicate Accounted(r: Reducers, history: map<string, Message>, buffer: map<MessageId, seq<Chunk>>, l: Ledger) {
    (forall id: MessageId :: AccountedAt(r, history, buffer, l, id)) && FatesOk(l)
  }

  // ---------------------------------------------------------------- one chunk

  lemma FlushAccounts(r: Reducers, history: map<string, Message>, buffer: map<MessageId, seq<Chunk>>, l: Ledger, id: MessageId)
    requires AccountedAt(r, history, buffer, l, id)
    ensures AccountedAt(r, Drained(r, history, buffer), map[], Flushed(l), id)
  {
    DrainedNothing(r, Drained(r, history, buffer));
    DropWaitingChunks(l.entries, id);
  }

  lemma StartAccounts(r: Reducers, t: Turn, l: Ledger, made: MessageId, now: int, id: MessageId)
    requires made !in t.history
    requires AccountedAt(r, t.history, t.buffer, l, made) && AccountedAt(r, t.history, t.buffer, l, id)
    ensures
      AccountedAt(r, t.history[made := NewAgentMessage(made, now)], t.buffer,
                  Ledger(l.base[made := Some([])], Renew(l.entries, made)), id)
  {
    var m := NewAgentMessage(made, now);
    RenewChunks(l.entries, made, id);
    DrainedWithNewMessage(r, t.history, t.buffer, made, m);
    if id == made {
      var waiting := WaitingFor(t, made);
      assert ApplyChunks(r, m, waiting).blocks == FoldBlocks(r, Some([]), waiting);
    }
  }

  /** The account of a message while no chunk is buffered. */
  predicate SettledAt(r: Reducers, history: map<string, Message>, l: Ledger, id: MessageId) {
    && ChunksOf(l.entries, id, Waiting) == []
    && if id in history then
         id in l.base && history[id].blocks == FoldBlocks(r, l.base[id], ChunksOf(l.entries, id, Landed))
       else
         ChunksOf(l.entries, id, Landed) == []
  }

  lemma SettledIsAccounted(r: Reducers, history: map<string, Message>, l: Ledger, id: MessageId)
    ensures SettledAt(r, history, l, id) <==> AccountedAt(r, history, map[], l, id)
  {
    DrainedNothing(r, history);
  }

  lemma RenamedHistory(history: map<string, Message>, from: MessageId, to: MessageId, id: MessageId)
    requires to !in history && from in history
    ensures id in Renamed(history, from, to) <==> id == to || (id != from && id in history)
    ensures id in Renamed(history, from, to) ==>
      Renamed(history, from, to)[id].blocks == history[if id == to then from else id].blocks
  {
  }

  lemma RenameSettled(r: Reducers, history: map<string, Message>, l: Ledger, from: MessageId, to: MessageId, id: MessageId)
    requires to !in history && from in history
    requires SettledAt(r, history, l, to) && SettledAt(r, history, l, from) && SettledAt(r, history, l, id)
    ensures
      SettledAt(r, Renamed(history, from, to),
                Ledger((l.base - {from})[to := l.base[from]], Move(l.entries, from, to)), id)
  {
    RenamedHistory(history, from, to, id);
    MoveLanded(l.entries, from, to, id);
    MoveWaiting(l.entries, from, to, id);
  }

  /** A message that is taken over keeps its blocks and its chunks. */
  lemma RenameAccounts(r: Reducers, history: map<string, Message>, l: Ledger, from: MessageId, to: MessageId, id: MessageId)
    requires to !in history && from in history
    requires AccountedAt(r, history, map[], l, to) && AccountedAt(r, history, map[], l, from)
    requires AccountedAt(r, history, map[], l, id)
    ensures from in l.base
    ensures
      AccountedAt(r, Renamed(history, from, to), map[],
                  Ledger((l.base - {from})[to := l.base[from]], Move(l.entries, from, to)), id)
  {
    SettledIsAccounted(r, history, l, to);
    SettledIsAccounted(r, history, l, from);
    SettledIsAccounted(r, history, l, id);
    RenameSettled(r, history, l, from, to, id);
    SettledIsAccounted(r, Renamed(history, from, to),
                       Ledger((l.base - {from})[to := l.base[from]], Move(l.entries, from, to)), id);
  }

  lemma ResolveAccounts(r: Reducers, t: Turn, l: Ledger, c: Chunk, now: int, id: MessageId)
    requires AccountedAt(r, t.history, t.buffer, l, c.messageId) && AccountedAt(r, t.history, t.buffer, l, t.active)
    requires AccountedAt(r, t.history, t.buffer, l, id)
    ensures var u := Resolve(r, t, c, now); AccountedAt(r, u.history, u.buffer, Routed(t, l, c), id)
  {
    ResolveParts(r, t, c, now);
    if c.messageId in t.alias || c.messageId in t.history {
    } else if t.active !in t.history {
      StartAccounts(r, t, l, c.messageId, now, id);
    } else if c.upstream {
      FlushAccounts(r, t.history, t.buffer, l, c.messageId);
      FlushAccounts(r, t.history, t.buffer, l, t.active);
      FlushAccounts(r, t.history, t.buffer, l, id);
      RenameAccounts(r, Drained(r, t.history, t.buffer), Flushed(l), t.active, c.messageId, id);
    }
  }

  /** Buffering a chunk behind its target, and recording it as landed or waiting. */
  lemma BufferedAccounts(r: Reducers, history: map<string, Message>, buffer: map<MessageId, seq<Chunk>>, l: Ledger, e: Entry, target: MessageId, id: MessageId)
    requires AccountedAt(r, history, buffer, l, id)
    requires e.target == target && e.fate == (if target in history then Landed else Waiting)
    ensures
      var waiting := if target in buffer then buffer[target] else [];
      AccountedAt(r, history, buffer[target := waiting + [e.chunk]], l.(entries := l.entries + [e]), id)
  {
    AddedChunks(l.entries, e, id, Landed);
    AddedChunks(l.entries, e, id, Waiting);
    DrainedOneMore(r, history, buffer, target, e.chunk);
    var waiting := if target in buffer then buffer[target] else [];
    var m, h := l.(entries := l.entries + [e]), Drained(r, history, buffer[target := waiting + [e.chunk]]);
    if id in history {
      assert ChunksOf(m.entries, id, Landed) ==
        ChunksOf(l.entries, id, Landed) + (if id == target then [e.chunk] else []);
      if id == target {
        FoldMore(r, l.base[id], ChunksOf(l.entries, id, Landed), e.chunk);
        assert h[id].blocks == Some(r.apply(Drained(r, history, buffer)[id].blocks, e.chunk));
      } else {
        assert h[id] == Drained(r, history, buffer)[id];
        assert ChunksOf(m.entries, id, Landed) == ChunksOf(l.entries, id, Landed);
      }
    }
  }

  lemma FlushedFates(l: Ledger)
    requires FatesOk(l)
    ensures FatesOk(Flushed(l))
  {
  }

  lemma RoutedFates(t: Turn, l: Ledger, c: Chunk)
    requires FatesOk(l)
    ensures FatesOk(Routed(t, l, c))
  {
    var next := Routed(t, l, c).entries;
    forall i | 0 <= i < |next| ensures FateOk(next[i]) {
      assert FateOk(l.entries[i]);
    }
  }

  lemma AddedFates(l: Ledger, e: Entry)
    requires FatesOk(l) && FateOk(e)
    ensures var more := l.(entries := l.entries + [e]); FatesOk(more) && FatesOk(Flushed(more))
  {
    var more := l.(entries := l.entries + [e]);
    forall i | 0 <= i < |more.entries| ensures FateOk(more.entries[i]) {
      if i < |l.entries| {
        assert more.entries[i] == l.entries[i];
      }
    }
    FlushedFates(more);
  }

  lemma RecordedFates(r: Reducers, t: Turn, l: Ledger, c: Chunk, now: int)
    requires FatesOk(l)
    ensures FatesOk(Recorded(r, t, l, c, now))
  {
    if !Duplicate(t, c) {
      RoutedFates(t, l, c);
      AddedFates(Routed(t, l, c), Arrived(t, c));
    }
  }

  lemma AppendBuffer(r: Reducers, t: Turn, c: Chunk, now: int)
    ensures
      var u, target, a := Resolve(r, t, c, now), TargetOf(t, c), Append(r, t, c, now);
      var buffer := u.buffer[target := WaitingFor(u, target) + [c]];
      || (a.history == u.history && a.buffer == buffer && a.buffer != map[])
      || (a.history == Drained(r, u.history, buffer) && a.buffer == map[])
  {
    var u, target := Resolve(r, t, c, now), TargetOf(t, c);
    var b := Buffered(u, target, c);
    assert target in b.buffer;
    if FlushesAtOnce(b, target, c) {
      assert Append(r, t, c, now) == Flush(r, b);
    } else {
      assert Append(r, t, c, now) == b.(timer := true);
    }
  }

  /** The chunk stands behind its target, or everything was flushed. */
  lemma PlacedAccounts(r: Reducers, u: Turn, a: Turn, l: Ledger, e: Entry, id: MessageId)
    requires AccountedAt(r, u.history, u.buffer, l, id)
    requires e.fate == (if e.target in u.history then Landed else Waiting)
    requires
      var buffer := u.buffer[e.target := WaitingFor(u, e.target) + [e.chunk]];
      || (a.buffer == map[] && a.history == Drained(r, u.history, buffer))
      || (a.buffer == buffer && a.history == u.history)
    ensures
      var more := l.(entries := l.entries + [e]);
      AccountedAt(r, a.history, a.buffer, if a.buffer == map[] then Flushed(more) else more, id)
  {
    BufferedAccounts(r, u.history, u.buffer, l, e, e.target, id);
    var buffer := u.buffer[e.target := WaitingFor(u, e.target) + [e.chunk]];
    FlushAccounts(r, u.history, buffer, l.(entries := l.entries + [e]), id);
  }

  lemma EnqueueAccountsAt(r: Reducers, t: Turn, l: Ledger, c: Chunk, now: int, id: MessageId)
    requires AccountedAt(r, t.history, t.buffer, l, c.messageId) && AccountedAt(r, t.history, t.buffer, l, t.active)
    requires AccountedAt(r, t.history, t.buffer, l, id)
    ensures var u := Enqueue(r, t, c, now); AccountedAt(r, u.history, u.buffer, Recorded(r, t, l, c, now), id)
  {
    if !Duplicate(t, c) {
      var n := Counted(t, c);
      CountedKeepsPlaces(t, c);
      ResolveAccounts(r, n, l, c, now, id);
      assert TargetOf(n, c) == TargetOf(t, c) && StaleAlias(n, c) == StaleAlias(t, c) && Routed(n, l, c) == Routed(t, l, c);
      ResolveFindsTarget(r, n, c, now);
      AppendBuffer(r, n, c, now);
      PlacedAccounts(r, Resolve(r, n, c, now), Append(r, n, c, now), Routed(t, l, c), Arrived(t, c), id);
    }
  }

  /** Accepting a chunk keeps the account of every message. */
  lemma EnqueueAccounts(r: Reducers, t: Turn, l: Ledger, c: Chunk, now: int)
    requires Accounted(r, t.history, t.buffer, l)
    ensures var u := Enqueue(r, t, c, now); Accounted(r, u.history, u.buffer, Recorded(r, t, l, c, now))
  {
    var u := Enqueue(r, t, c, now);
    RecordedFates(r, t, l, c, now);
    forall id: MessageId ensures AccountedAt(r, u.history, u.buffer, Recorded(r, t, l, c, now), id) {
      EnqueueAccountsAt(r, t, l, c, now, id);
    }
  }

  // ---------------------------------------------------------------- nothing waits

  predicate NoneWaiting(l: Ledger) {
    forall i :: 0 <= i < |l.entries| ==> !l.entries[i].fate.Waiting?
  }

  lemma {:induction false} WaitingIsFound(entries: seq<Entry>, i: nat)
    requires i < |entries| && entries[i].fate.Waiting?
    ensures ChunksOf(entries, entries[i].target, Waiting) != []
  {
    if i < |entries| - 1 {
      WaitingIsFound(entries[..|entries| - 1], i);
    }
  }

  lemma {:induction false} LandedIsFound(entries: seq<Entry>, i: nat)
    requires i < |entries| && entries[i].fate.Landed?
    ensures entries[i].chunk in ChunksOf(entries, entries[i].target, Landed)
  {
    if i < |entries| - 1 {
      LandedIsFound(entries[..|entries| - 1], i);
    }
  }

  /** With an empty buffer no chunk waits. */
  lemma NothingWaits(r: Reducers, history: map<string, Message>, l: Ledger)
    requires Accounted(r, history, map[], l)
    ensures NoneWaiting(l)
  {
    forall i | 0 <= i < |l.entries| ensures !l.entries[i].fate.Waiting? {
      assert AccountedAt(r, history, map[], l, l.entries[i].target);
      if l.entries[i].fate.Waiting? {
        WaitingIsFound(l.entries, i);
      }
    }
  }

  lemma FlushAccountsAll(r: Reducers, t: Turn, l: Ledger)
    requires Accounted(r, t.history, t.buffer, l)
    ensures Accounted(r, Flush(r, t).history, map[], Flushed(l))
  {
    FlushedFates(l);
    forall id: MessageId ensures AccountedAt(r, Flush(r, t).history, map[], Flushed(l), id) {
      FlushAccounts(r, t.history, t.buffer, l, id);
    }
  }

  /** Writing anything but blocks keeps every account. */
  lemma SameBlocksAccount(r: Reducers, one: map<string, Message>, two: map<string, Message>, l: Ledger)
    requires Accounted(r, one, map[], l)
    requires one.Keys == two.Keys && forall id :: id in one ==> two[id].blocks == one[id].blocks
    ensures Accounted(r, two, map[], l)
  {
    DrainedNothing(r, one);
    DrainedNothing(r, two);
    forall id: MessageId ensures AccountedAt(r, two, map[], l, id) {
      assert AccountedAt(r, one, map[], l, id);
    }
  }
}
