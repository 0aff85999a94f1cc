/** Chat messages, and the insertion-ordered `Map` from id to message that the source builds. */
module Messages {
  import opened Prelude
  import opened StableSort

  datatype Role = User | Agent | System

  datatype Status = Streaming | Done | Error | Interrupted

  /** A rendered block. Only the number of blocks and the reducers' results matter to the callers. */
  datatype Block = Block(blockId: string, kind: string, content: string, isFinished: bool)

  /**
   * A message. `createdAt` is the time stamp as a number; `extras` holds the optional fields that
   * nothing here inspects (kind, operation id, error details): absent when not in the map, `None` when null.
   */
  datatype Message = Message(
    id: string,
    role: Role,
    createdAt: int,
    content: string,
    status: Option<Status>,
    blocks: Option<seq<Block>>,
    extras: map<string, Option<string>>)

  /** A `Partial<ChatMessage>` as the updaters return it: `None` is an absent key. */
  datatype Patch = Patch(
    createdAt: Option<int>,
    content: Option<string>,
    status: Option<Status>,
    blocks: Option<seq<Block>>,
    extras: map<string, Option<string>>)

  function CreatedAt(m: Message): int {
    m.createdAt
  }

  /** `{ ...message, ...patch }`, the id being kept. */
  function ApplyPatch(m: Message, p: Patch): Message {
    m.(createdAt := p.createdAt.GetOr(m.createdAt),
       content := p.content.GetOr(m.content),
       status := OrElse(p.status, m.status),
       blocks := OrElse(p.blocks, m.blocks),
       extras := m.extras + p.extras)
  }

  /** A patch decides the fields that it gives, and leaves every other one. */
  lemma PatchDecides(m: Message, p: Patch)
    ensures
      var n := ApplyPatch(m, p);
      && n.id == m.id && n.role == m.role
      && n.createdAt == (if p.createdAt.Some? then p.createdAt.value else m.createdAt)
      && n.content == (if p.content.Some? then p.content.value else m.content)
      && n.status == (if p.status.Some? then p.status else m.status)
      && n.blocks == (if p.blocks.Some? then p.blocks else m.blocks)
      && (forall k :: k in n.extras <==> k in m.extras || k in p.extras)
      && (forall k :: k in n.extras ==> n.extras[k] == if k in p.extras then p.extras[k] else m.extras[k])
  {
  }

  function Patching(updater: Message -> Patch): Message -> Message {
    (m: Message) => ApplyPatch(m, updater(m))
  }

  function Renaming(id: string): Message -> Message {
    (m: Message) => m.(id := id)
  }

  predicate UniqueIds(s: seq<Message>) {
    forall i, j :: 0 <= i < j < |s| ==> s[i].id != s[j].id
  }

  function Ids(s: seq<Message>): (r: seq<string>)
    ensures |r| == |s|
    ensures forall i :: 0 <= i < |s| ==> r[i] == s[i].id
  {
    seq(|s|, i requires 0 <= i < |s| => s[i].id)
  }

  /** `list.find((m) => m.id === id)`. */
  function Find(s: seq<Message>, id: string): (r: Option<Message>)
    ensures r.Some? ==> r.value in s && r.value.id == id
    ensures r.None? ==> forall m :: m in s ==> m.id != id
  {
    if s == [] then None
    else if s[0].id == id then Some(s[0])
    else Find(s[1..], id)
  }

  /** `map.set(m.id, m)`: an id already present keeps its place and takes the new value. */
  function Put(s: seq<Message>, m: Message): seq<Message> {
    if s == [] then [m]
    else if s[0].id == m.id then [m] + s[1..]
    else [s[0]] + Put(s[1..], m)
  }

  lemma {:induction false} PutFinds(s: seq<Message>, m: Message, id: string)
    ensures Find(Put(s, m), id) == if id == m.id then Some(m) else Find(s, id)
  {
    if s != [] && s[0].id != m.id {
      PutFinds(s[1..], m, id);
    }
  }

  lemma {:induction false} PutIds(s: seq<Message>, m: Message)
    ensures Ids(Put(s, m)) == if m.id in Ids(s) then Ids(s) else Ids(s) + [m.id]
  {
    if s != [] {
      assert Ids(s) == [s[0].id] + Ids(s[1..]);
      if s[0].id != m.id {
        PutIds(s[1..], m);
        assert Ids(Put(s, m)) == [s[0].id] + Ids(Put(s[1..], m));
      } else {
        assert Ids(Put(s, m)) == Ids(s);
      }
    }
  }

  lemma PutKeepsUnique(s: seq<Message>, m: Message)
    requires UniqueIds(s)
    ensures UniqueIds(Put(s, m))
  {
    PutIds(s, m);
    var r := Put(s, m);
    forall i, j | 0 <= i < j < |r| ensures r[i].id != r[j].id {
      assert Ids(r)[i] == r[i].id && Ids(r)[j] == r[j].id;
    }
  }

  lemma FindUnique(s: seq<Message>, m: Message)
    requires UniqueIds(s) && m in s
    ensures Find(s, m.id) == Some(m)
  {
  }

  /** The messages by id. */
  function ById(s: seq<Message>): (r: map<string, Message>)
    ensures forall id :: id in r <==> Find(s, id).Some?
    ensures forall id :: id in r ==> r[id] == Find(s, id).value
  {
    var ids := set m | m in s :: m.id;
    map id | id in ids && Find(s, id).Some? :: Find(s, id).value
  }

  /** With unique ids, the view by id depends only on which messages there are. */
  lemma ByIdOfSameElements(s: seq<Message>, t: seq<Message>)
    requires UniqueIds(s) && UniqueIds(t)
    requires forall m :: m in s <==> m in t
    ensures ById(s) == ById(t)
  {
    forall id ensures Find(s, id) == Find(t, id) {
      if Find(s, id).Some? {
        FindUnique(t, Find(s, id).value);
      }
    }
  }

  function MessageId(m: Message): string {
    m.id
  }

  /** Sorting by time keeps unique ids unique and the view by id as it is. */
  lemma UniqueAfterSort(s: seq<Message>)
    requires UniqueIds(s)
    ensures UniqueIds(Sort(s, CreatedAt))
    ensures ById(Sort(s, CreatedAt)) == ById(s)
  {
    assert Distinct(s, MessageId);
    SortKeepsDistinct(s, CreatedAt, MessageId);
    var t := Sort(s, CreatedAt);
    forall i, j | 0 <= i < j < |t| ensures t[i].id != t[j].id {
      assert MessageId(t[i]) != MessageId(t[j]);
    }
    forall m ensures m in t <==> m in s {
      SameElements(s, CreatedAt, m);
    }
    ByIdOfSameElements(t, s);
  }

  /** Replaces the messages of one id. */
  function Mapped(s: seq<Message>, id: string, f: Message -> Message): (r: seq<Message>)
    ensures |r| == |s|
    ensures forall i :: 0 <= i < |s| ==> r[i] == if s[i].id == id then f(s[i]) else s[i]
  {
    seq(|s|, i requires 0 <= i < |s| => if s[i].id == id then f(s[i]) else s[i])
  }
}
