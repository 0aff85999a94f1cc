/** Merging fetched messages into the local ones (frontend/lib/messageMerge.ts). */
module MessageMerge {
  import opened Prelude
  import opened Text
  import opened Messages
  import opened StableSort

  /** `{ ...existing, ...message }`: optional fields absent from `message` are kept. */
  function Overlay(existing: Message, message: Message): Message {
    Message(message.id, message.role, message.createdAt, message.content,
            OrElse(message.status, existing.status),
            OrElse(message.blocks, existing.blocks),
            existing.extras + message.extras)
  }

  predicate Protected(existing: Option<Message>, isActivelyStreaming: bool) {
    existing.Some? && existing.value.status == Some(Streaming) && isActivelyStreaming
  }

  function AbsorbIncoming(merged: seq<Message>, message: Message, isActivelyStreaming: bool): seq<Message> {
    var id := Trim(message.id);
    var existing := Find(merged, id);
    if id == "" || Protected(existing, isActivelyStreaming) then merged
    else Put(merged, (if existing.Some? then Overlay(existing.value, message) else message).(id := id))
  }

  function PutAll(merged: seq<Message>, current: seq<Message>): seq<Message>
    decreases current
  {
    if current == [] then merged else PutAll(Put(merged, current[0]), current[1..])
  }

  function AbsorbAll(merged: seq<Message>, incoming: seq<Message>, isActivelyStreaming: bool): seq<Message>
    decreases incoming
  {
    if incoming == [] then merged
    else AbsorbAll(AbsorbIncoming(merged, incoming[0], isActivelyStreaming), incoming[1..], isActivelyStreaming)
  }

  function Merged(current: seq<Message>, incoming: seq<Message>, isActivelyStreaming: bool): seq<Message> {
    Sort(AbsorbAll(PutAll([], current), incoming, isActivelyStreaming), CreatedAt)
  }

  method MergeChatMessagesByCanonicalId(current: seq<Message>, incoming: seq<Message>, isActivelyStreaming: bool)
    returns (result: seq<Message>)
    ensures result == Merged(current, incoming, isActivelyStreaming)
  {
    var merged := [];
    for i := 0 to |current|
      invariant PutAll(merged, current[i..]) == PutAll([], current)
    {
      assert current[i..][1..] == current[i + 1..];
      merged := Put(merged, current[i]);
    }
    ghost var started := merged;
    for i := 0 to |incoming|
      invariant AbsorbAll(merged, incoming[i..], isActivelyStreaming) == AbsorbAll(started, incoming, isActivelyStreaming)
    {
      assert incoming[i..][1..] == incoming[i + 1..];
      var message := incoming[i];
      var canonicalId := Trim(message.id);
      if canonicalId == "" {
        continue;
      }
      var existing := Find(merged, canonicalId);
      if existing.Some? && existing.value.status == Some(Streaming) && isActivelyStreaming {
        continue;
      }
      var next := if existing.Some? then Overlay(existing.value, message) else message;
      merged := Put(merged, next.(id := canonicalId));
    }
    result := Sort(merged, CreatedAt);
  }

  // ---------------------------------------------------------------- the value kept for one id

  /** The last message of `current` with this id. */
  function LastCopy(current: seq<Message>, id: string): Option<Message> {
    if current == [] then None
    else OrElse(LastCopy(current[1..], id), if current[0].id == id then Some(current[0]) else None)
  }

  function SettleOne(existing: Option<Message>, message: Message, id: string, isActivelyStreaming: bool): Option<Message> {
    if Trim(message.id) != id || Protected(existing, isActivelyStreaming) then existing
    else Some((if existing.Some? then Overlay(existing.value, message) else message).(id := id))
  }

  /** The incoming copies of one id laid over the existing one in order, until it is protected. */
  function Settle(existing: Option<Message>, incoming: seq<Message>, id: string, isActivelyStreaming: bool): Option<Message>
    decreases incoming
  {
    if incoming == [] then existing
    else Settle(SettleOne(existing, incoming[0], id, isActivelyStreaming), incoming[1..], id, isActivelyStreaming)
  }

  lemma {:induction false} PutAllFinds(merged: seq<Message>, current: seq<Message>, id: string)
    requires UniqueIds(merged)
    ensures UniqueIds(PutAll(merged, current))
    ensures Find(PutAll(merged, current), id) == OrElse(LastCopy(current, id), Find(merged, id))
    decreases current
  {
    if current != [] {
      PutKeepsUnique(merged, current[0]);
      PutAllFinds(Put(merged, current[0]), current[1..], id);
      PutFinds(merged, current[0], id);
    }
  }

  lemma {:induction false} AbsorbAllFinds(merged: seq<Message>, incoming: seq<Message>, a: bool, id: string)
    requires UniqueIds(merged)
    ensures UniqueIds(AbsorbAll(merged, incoming, a))
    ensures Find(AbsorbAll(merged, incoming, a), id) == if id == "" then Find(merged, id) else Settle(Find(merged, id), incoming, id, a)
    decreases incoming
  {
    if incoming != [] {
      var message := incoming[0];
      var own := Trim(message.id);
      var existing := Find(merged, own);
      var next := (if existing.Some? then Overlay(existing.value, message) else message).(id := own);
      PutKeepsUnique(merged, next);
      PutFinds(merged, next, id);
      AbsorbAllFinds(AbsorbIncoming(merged, message, a), incoming[1..], a, id);
    }
  }

  /** The merged list holds, for each id, the settled value. */
  lemma MergedFinds(current: seq<Message>, incoming: seq<Message>, a: bool, id: string)
    ensures UniqueIds(Merged(current, incoming, a))
    ensures Find(Merged(current, incoming, a), id) ==
      if id == "" then LastCopy(current, id) else Settle(LastCopy(current, id), incoming, id, a)
  {
    PutAllFinds([], current, id);
    AbsorbAllFinds(PutAll([], current), incoming, a, id);
    var s := AbsorbAll(PutAll([], current), incoming, a);
    UniqueAfterSort(s);
    assert id in ById(s) <==> id in ById(Sort(s, CreatedAt));
  }

  /** The ids of the result are those of `current` and the trimmed non-blank incoming ones; it is sorted by time. */
  lemma MergedIds(current: seq<Message>, incoming: seq<Message>, a: bool, id: string)
    ensures Sorted(Merged(current, incoming, a), CreatedAt) && UniqueIds(Merged(current, incoming, a))
    ensures id in Ids(Merged(current, incoming, a)) <==>
      (id in Ids(current) || (id != "" && exists m :: m in incoming && Trim(m.id) == id))
  {
    SortFacts(AbsorbAll(PutAll([], current), incoming, a), CreatedAt);
    MergedFinds(current, incoming, a, id);
    LastCopyExists(current, id);
    SettleExists(LastCopy(current, id), incoming, id, a);
    FindsItsIds(Merged(current, incoming, a), id);
  }

  lemma FindsItsIds(s: seq<Message>, id: string)
    ensures id in Ids(s) <==> Find(s, id).Some?
  {
    if id in Ids(s) {
      var i :| 0 <= i < |s| && Ids(s)[i] == id;
      assert s[i] in s;
    }
  }

  lemma {:induction false} LastCopyExists(current: seq<Message>, id: string)
    ensures LastCopy(current, id).Some? <==> id in Ids(current)
    ensures LastCopy(current, id).Some? ==> LastCopy(current, id).value.id == id
  {
    if current != [] {
      LastCopyExists(current[1..], id);
      assert Ids(current) == [current[0].id] + Ids(current[1..]);
    }
  }

  lemma {:induction false} SettleExists(existing: Option<Message>, incoming: seq<Message>, id: string, a: bool)
    ensures Settle(existing, incoming, id, a).Some? <==> existing.Some? || exists m :: m in incoming && Trim(m.id) == id
    decreases incoming
  {
    if incoming != [] {
      SettleExists(SettleOne(existing, incoming[0], id, a), incoming[1..], id, a);
      assert incoming == [incoming[0]] + incoming[1..];
    }
  }

  lemma {:induction false} ProtectedStays(existing: Option<Message>, incoming: seq<Message>, id: string, a: bool)
    requires Protected(existing, a)
    ensures Settle(existing, incoming, id, a) == existing
  {
    if incoming != [] {
      ProtectedStays(existing, incoming[1..], id, a);
    }
  }

  /** A message that is streaming locally is not touched while the stream is active. */
  lemma StreamingMessageIsKept(current: seq<Message>, incoming: seq<Message>, id: string)
    requires LastCopy(current, id).Some? && LastCopy(current, id).value.status == Some(Streaming)
    ensures Find(Merged(current, incoming, true), id) == LastCopy(current, id)
  {
    MergedFinds(current, incoming, true, id);
    ProtectedStays(LastCopy(current, id), incoming, id, true);
  }

  lemma {:induction false} SettleLast(existing: Option<Message>, front: seq<Message>, message: Message, id: string, a: bool)
    ensures Settle(existing, front + [message], id, a) == SettleOne(Settle(existing, front, id, a), message, id, a)
    decreases front
  {
    if front == [] {
      assert [] + [message] == [message];
    } else {
      assert (front + [message])[1..] == front[1..] + [message];
      SettleLast(SettleOne(existing, front[0], id, a), front[1..], message, id, a);
    }
  }

  /**
   * One more incoming copy decides field by field over what was there, an optional field that it lacks
   * stays; a message that streams while the stream is active is not touched.
   */
  lemma LastIncomingWins(current: seq<Message>, front: seq<Message>, message: Message, id: string, a: bool)
    requires id != "" && Trim(message.id) == id
    ensures
      var before, kept := Find(Merged(current, front, a), id), Find(Merged(current, front + [message], a), id);
      if a && before.Some? && before.value.status == Some(Streaming) then kept == before
      else
        && kept.Some? && kept.value.id == id
        && kept.value.content == message.content
        && kept.value.createdAt == message.createdAt
        && kept.value.role == message.role
        && kept.value.status ==
             (if message.status.Some? then message.status else if before.Some? then before.value.status else None)
        && kept.value.blocks ==
             (if message.blocks.Some? then message.blocks else if before.Some? then before.value.blocks else None)
        && kept.value.extras == (if before.Some? then before.value.extras else map[]) + message.extras
  {
    MergedFinds(current, front, a, id);
    MergedFinds(current, front + [message], a, id);
    SettleLast(LastCopy(current, id), front, message, id, a);
    assert map[] + message.extras == message.extras;
  }

  /** It touches no message of another id, and a copy with a blank id touches none. */
  lemma OtherIdsAreKept(current: seq<Message>, front: seq<Message>, message: Message, id: string, a: bool)
    requires id == "" || Trim(message.id) != id
    ensures Find(Merged(current, front + [message], a), id) == Find(Merged(current, front, a), id)
  {
    MergedFinds(current, front, a, id);
    MergedFinds(current, front + [message], a, id);
    SettleLast(LastCopy(current, id), front, message, id, a);
  }

  // ---------------------------------------------------------------- merging the same list again

  /** Laying one optional message over another. */
  function Join(first: Option<Message>, second: Option<Message>): Option<Message> {
    if first.Some? && second.Some? then Some(Overlay(first.value, second.value))
    else OrElse(second, first)
  }

  lemma JoinLaws(a: Option<Message>, b: Option<Message>, c: Option<Message>)
    ensures Join(Join(a, b), c) == Join(a, Join(b, c))
    ensures Join(a, a) == a
  {
    if a.Some? && b.Some? && c.Some? {
      assert (a.value.extras + b.value.extras) + c.value.extras == a.value.extras + (b.value.extras + c.value.extras);
    }
    if a.Some? {
      assert a.value.extras + a.value.extras == a.value.extras;
    }
  }

  function Own(message: Message, id: string): Option<Message> {
    if Trim(message.id) == id then Some(message.(id := id)) else None
  }

  /** All incoming copies of one id laid over each other. */
  function Combined(incoming: seq<Message>, id: string): Option<Message> {
    if incoming == [] then None else Join(Own(incoming[0], id), Combined(incoming[1..], id))
  }

  predicate NoneStreaming(incoming: seq<Message>, id: string) {
    forall m :: m in incoming && Trim(m.id) == id ==> m.status != Some(Streaming)
  }

  lemma {:induction false} SettleUnprotected(existing: Option<Message>, incoming: seq<Message>, id: string, a: bool)
    requires existing.Some? ==> existing.value.id == id
    requires !Protected(existing, a) && (a ==> NoneStreaming(incoming, id))
    ensures Settle(existing, incoming, id, a) == Join(existing, Combined(incoming, id))
    decreases incoming
  {
    if incoming != [] {
      assert incoming[0] in incoming;
      assert forall m :: m in incoming[1..] ==> m in incoming;
      var next := SettleOne(existing, incoming[0], id, a);
      assert next == Join(existing, Own(incoming[0], id));
      SettleUnprotected(next, incoming[1..], id, a);
      JoinLaws(existing, Own(incoming[0], id), Combined(incoming[1..], id));
    }
  }

  lemma {:induction false} UnprotectedMeansNoneStreaming(existing: Option<Message>, incoming: seq<Message>, id: string)
    requires !Protected(Settle(existing, incoming, id, true), true)
    ensures !Protected(existing, true) && NoneStreaming(incoming, id)
    decreases incoming
  {
    if Protected(existing, true) {
      ProtectedStays(existing, incoming, id, true);
    }
    if incoming != [] {
      UnprotectedMeansNoneStreaming(SettleOne(existing, incoming[0], id, true), incoming[1..], id);
      assert incoming == [incoming[0]] + incoming[1..];
    }
  }

  lemma SettleTwice(existing: Option<Message>, incoming: seq<Message>, id: string, a: bool)
    requires existing.Some? ==> existing.value.id == id
    ensures Settle(Settle(existing, incoming, id, a), incoming, id, a) == Settle(existing, incoming, id, a)
  {
    var once := Settle(existing, incoming, id, a);
    if Protected(once, a) {
      ProtectedStays(once, incoming, id, a);
    } else {
      if a {
        UnprotectedMeansNoneStreaming(existing, incoming, id);
      }
      SettleUnprotected(existing, incoming, id, a);
      CombinedId(incoming, id);
      SettleUnprotected(once, incoming, id, a);
      var all := Combined(incoming, id);
      JoinLaws(existing, all, all);
      JoinLaws(all, all, all);
    }
  }

  lemma {:induction false} CombinedId(incoming: seq<Message>, id: string)
    ensures Combined(incoming, id).Some? ==> Combined(incoming, id).value.id == id
  {
    if incoming != [] {
      CombinedId(incoming[1..], id);
    }
  }

  lemma {:induction false} AbsorbKeepsIds(merged: seq<Message>, incoming: seq<Message>, a: bool)
    requires forall m :: m in incoming && Trim(m.id) != "" ==> Trim(m.id) in Ids(merged)
    ensures Ids(AbsorbAll(merged, incoming, a)) == Ids(merged)
    decreases incoming
  {
    if incoming != [] {
      var message := incoming[0];
      assert message in incoming;
      var own := Trim(message.id);
      var existing := Find(merged, own);
      PutIds(merged, (if existing.Some? then Overlay(existing.value, message) else message).(id := own));
      AbsorbKeepsIds(AbsorbIncoming(merged, message, a), incoming[1..], a);
    }
  }

  lemma SameIdsSameValues(s: seq<Message>, t: seq<Message>)
    requires UniqueIds(s) && UniqueIds(t) && Ids(s) == Ids(t)
    requires forall id :: Find(s, id) == Find(t, id)
    ensures s == t
  {
    assert |Ids(s)| == |s| && |Ids(t)| == |t|;
    forall i | 0 <= i < |s| ensures s[i] == t[i] {
      assert Ids(s)[i] == s[i].id && Ids(t)[i] == t[i].id;
      FindUnique(s, s[i]);
      FindUnique(t, t[i]);
    }
  }

  lemma {:induction false} PutAllFixesUnique(merged: seq<Message>, s: seq<Message>)
    requires UniqueIds(merged + s)
    ensures PutAll(merged, s) == merged + s
    decreases s
  {
    if s == [] {
      assert merged + s == merged;
    } else {
      assert (merged + s)[|merged|] == s[0];
      assert forall i :: 0 <= i < |merged| ==> (merged + s)[i] == merged[i] && Ids(merged)[i] == merged[i].id;
      PutAtEnd(merged, s[0]);
      assert (merged + [s[0]]) + s[1..] == merged + s;
      PutAllFixesUnique(merged + [s[0]], s[1..]);
    }
  }

  lemma {:induction false} PutAtEnd(s: seq<Message>, m: Message)
    requires forall i :: 0 <= i < |s| ==> s[i].id != m.id
    ensures Put(s, m) == s + [m]
  {
    if s != [] {
      PutAtEnd(s[1..], m);
      assert s == [s[0]] + s[1..];
    }
  }

  /** Merging the same incoming list again changes nothing, duplicates and partial fields included. */
  lemma MergeTwiceIsMergeOnce(current: seq<Message>, incoming: seq<Message>, a: bool)
    ensures Merged(Merged(current, incoming, a), incoming, a) == Merged(current, incoming, a)
  {
    var once := Merged(current, incoming, a);
    MergedFinds(current, incoming, a, "");
    assert [] + once == once;
    PutAllFixesUnique([], once);
    var again := AbsorbAll(once, incoming, a);
    forall m | m in incoming && Trim(m.id) != "" ensures Trim(m.id) in Ids(once) {
      MergedIds(current, incoming, a, Trim(m.id));
    }
    AbsorbKeepsIds(once, incoming, a);
    forall id ensures Find(again, id) == Find(once, id) {
      AbsorbAllFinds(once, incoming, a, id);
      MergedFinds(current, incoming, a, id);
      LastCopyExists(current, id);
      SettleTwice(LastCopy(current, id), incoming, id, a);
    }
    AbsorbAllFinds(once, incoming, a, "");
    SameIdsSameValues(again, once);
    MergedIds(current, incoming, a, "");
    SortFixesSorted(once, CreatedAt);
  }
}
