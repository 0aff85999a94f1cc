/** The message history cache (frontend/lib/chatHistoryCache.ts). */
module HistoryCache {
  import opened Prelude
  import opened Text
  import opened Messages
  import opened StableSort

  datatype Page = Page(items: seq<Message>, nextPage: Option<nat>)

  /** What the query cache holds for one conversation: no entry, or its pages. */
  type Entry = Option<seq<Page>>

  // ---------------------------------------------------------------- normalisation

  function Absorb(acc: seq<Message>, item: Message): seq<Message> {
    var id := Trim(item.id);
    if id == "" then acc else Put(acc, item.(id := id))
  }

  function DedupeFrom(acc: seq<Message>, ordered: seq<Message>): seq<Message>
    decreases ordered
  {
    if ordered == [] then acc else DedupeFrom(Absorb(acc, ordered[0]), ordered[1..])
  }

  /** Stable sort by time, then a map whose ids keep their first place and take their last value. */
  function Normalize(items: seq<Message>): seq<Message> {
    DedupeFrom([], Sort(items, CreatedAt))
  }

  predicate AllCanonical(s: seq<Message>) {
    forall i :: 0 <= i < |s| ==> Canonical(s[i].id)
  }

  /** What a reader may rely on after any write. */
  predicate NormalForm(s: seq<Message>) {
    UniqueIds(s) && AllCanonical(s) && Sorted(s, CreatedAt)
  }

  predicate Matches(item: Message, id: string) {
    Trim(item.id) == id
  }

  function LastMatch(s: seq<Message>, id: string): (r: Option<Message>)
    ensures r.Some? ==> r.value in s && Matches(r.value, id)
    ensures r.None? ==> forall m :: m in s ==> !Matches(m, id)
  {
    if s == [] then None
    else OrElse(LastMatch(s[1..], id), if Matches(s[0], id) then Some(s[0]) else None)
  }

  /** The copy of `id` with the greatest pair of time and input position. */
  function Latest(items: seq<Message>, id: string): Option<Message> {
    if items == [] then None
    else LaterOf(items[0], Latest(items[1..], id), id)
  }

  function LaterOf(first: Message, rest: Option<Message>, id: string): Option<Message> {
    if !Matches(first, id) then rest
    else if rest.None? || rest.value.createdAt < first.createdAt then Some(first)
    else rest
  }

  /** Position `k` holds a copy of `id`, and every other copy is older, or as old and earlier. */
  predicate IsLatestAt(items: seq<Message>, id: string, k: nat) {
    && k < |items|
    && Matches(items[k], id)
    && forall j :: 0 <= j < |items| && Matches(items[j], id) ==>
         items[j].createdAt < items[k].createdAt || (items[j].createdAt == items[k].createdAt && j <= k)
  }

  lemma LatestStaysLater(items: seq<Message>, id: string, k: nat)
    requires items != [] && IsLatestAt(items[1..], id, k)
    requires Matches(items[0], id) ==> items[0].createdAt <= items[1..][k].createdAt
    ensures IsLatestAt(items, id, k + 1)
  {
    forall j | 0 <= j < |items| && Matches(items[j], id)
      ensures items[j].createdAt < items[k + 1].createdAt || (items[j].createdAt == items[k + 1].createdAt && j <= k + 1)
    {
      if j > 0 {
        assert items[j] == items[1..][j - 1];
      }
    }
  }

  lemma LatestBecomesFirst(items: seq<Message>, id: string, k: nat)
    requires items != [] && IsLatestAt(items[1..], id, k)
    requires Matches(items[0], id) && items[1..][k].createdAt < items[0].createdAt
    ensures IsLatestAt(items, id, 0)
  {
    forall j | 0 < j < |items| && Matches(items[j], id) ensures items[j].createdAt < items[0].createdAt {
      assert items[j] == items[1..][j - 1];
    }
  }

  /** `Latest` picks the copy that is greatest by time, then by input position. */
  lemma {:induction false} LatestIsGreatest(items: seq<Message>, id: string)
    ensures Latest(items, id).Some? ==> exists k: nat :: IsLatestAt(items, id, k) && Latest(items, id) == Some(items[k])
    ensures Latest(items, id).None? ==> forall m :: m in items ==> !Matches(m, id)
  {
    if items != [] {
      var rest := items[1..];
      LatestIsGreatest(rest, id);
      if Latest(rest, id).Some? {
        var k: nat :| IsLatestAt(rest, id, k) && Latest(rest, id) == Some(rest[k]);
        if Matches(items[0], id) && rest[k].createdAt < items[0].createdAt {
          LatestBecomesFirst(items, id, k);
        } else {
          LatestStaysLater(items, id, k);
        }
      } else if Matches(items[0], id) {
        assert forall j :: 0 < j < |items| ==> items[j] in rest;
        assert IsLatestAt(items, id, 0);
      }
    }
  }

  lemma {:induction false} LastOfInsert(x: Message, t: seq<Message>, id: string)
    requires Sorted(t, CreatedAt)
    ensures LastMatch(Insert(x, t, CreatedAt), id) == LaterOf(x, LastMatch(t, id), id)
  {
    if t == [] || x.createdAt <= t[0].createdAt {
      assert ([x] + t)[1..] == t;
    } else {
      LastOfInsert(x, t[1..], id);
      var u := Insert(x, t[1..], CreatedAt);
      assert ([t[0]] + u)[1..] == u;
    }
  }

  lemma {:induction false} LastOfSort(items: seq<Message>, id: string)
    ensures LastMatch(Sort(items, CreatedAt), id) == Latest(items, id)
  {
    if items != [] {
      LastOfSort(items[1..], id);
      SortFacts(items[1..], CreatedAt);
      LastOfInsert(items[0], Sort(items[1..], CreatedAt), id);
    }
  }

  lemma {:induction false} DedupeFinds(acc: seq<Message>, s: seq<Message>, id: string)
    requires id != ""
    ensures Find(DedupeFrom(acc, s), id) ==
      match LastMatch(s, id)
      case Some(m) => Some(m.(id := id))
      case None => Find(acc, id)
    decreases s
  {
    if s != [] {
      DedupeFinds(Absorb(acc, s[0]), s[1..], id);
      if Trim(s[0].id) != "" {
        PutFinds(acc, s[0].(id := Trim(s[0].id)), id);
      }
    }
  }

  /** The value kept for an id is its latest copy. */
  lemma NormalizeKeepsLatest(items: seq<Message>, id: string)
    requires id != ""
    ensures Find(Normalize(items), id) ==
      match Latest(items, id)
      case Some(m) => Some(m.(id := id))
      case None => None
  {
    DedupeFinds([], Sort(items, CreatedAt), id);
    LastOfSort(items, id);
  }

  lemma {:induction false} DedupeIsUnique(acc: seq<Message>, s: seq<Message>)
    requires UniqueIds(acc) && AllCanonical(acc)
    ensures UniqueIds(DedupeFrom(acc, s)) && AllCanonical(DedupeFrom(acc, s))
    decreases s
  {
    if s != [] {
      var id := Trim(s[0].id);
      if id != "" {
        var m := s[0].(id := id);
        TrimIsTrimmed(s[0].id);
        PutKeepsUnique(acc, m);
        PutIds(acc, m);
        forall i | 0 <= i < |Put(acc, m)| ensures Canonical(Put(acc, m)[i].id) {
          assert Ids(Put(acc, m))[i] == Put(acc, m)[i].id;
        }
      }
      DedupeIsUnique(Absorb(acc, s[0]), s[1..]);
    }
  }

  /** After one normalisation no id occurs twice, and every id is trimmed and not blank. */
  lemma NormalizeIsUnique(items: seq<Message>)
    ensures UniqueIds(Normalize(items)) && AllCanonical(Normalize(items))
  {
    DedupeIsUnique([], Sort(items, CreatedAt));
  }

  lemma {:induction false} PutAppends(acc: seq<Message>, m: Message)
    requires m.id !in Ids(acc)
    ensures Put(acc, m) == acc + [m]
  {
    if acc != [] {
      assert Ids(acc)[0] == acc[0].id;
      assert forall i :: 0 <= i < |acc| - 1 ==> Ids(acc[1..])[i] == Ids(acc)[i + 1];
      PutAppends(acc[1..], m);
      assert acc == [acc[0]] + acc[1..];
    }
  }

  lemma {:induction false} DedupeFixesUnique(acc: seq<Message>, s: seq<Message>)
    requires UniqueIds(acc + s) && AllCanonical(s)
    ensures DedupeFrom(acc, s) == acc + s
    decreases s
  {
    if s == [] {
      assert acc + s == acc;
    } else {
      TrimFixesTrimmed(s[0].id);
      assert (acc + s)[|acc|] == s[0];
      assert forall i :: 0 <= i < |acc| ==> (acc + s)[i] == acc[i];
      PutAppends(acc, s[0]);
      assert (acc + [s[0]]) + s[1..] == acc + s;
      DedupeFixesUnique(acc + [s[0]], s[1..]);
    }
  }

  lemma SortKeepsUnique(s: seq<Message>)
    requires UniqueIds(s) && AllCanonical(s)
    ensures NormalForm(Sort(s, CreatedAt))
  {
    SortFacts(s, CreatedAt);
    var t := Sort(s, CreatedAt);
    forall i | 0 <= i < |t| ensures Canonical(t[i].id) {
      SameElements(s, CreatedAt, t[i]);
    }
    UniqueAfterSort(s);
  }

  /** On unique canonical ids, normalising only sorts. */
  lemma NormalizeUnique(s: seq<Message>)
    requires UniqueIds(s) && AllCanonical(s)
    ensures Normalize(s) == Sort(s, CreatedAt) && NormalForm(Normalize(s))
  {
    SortKeepsUnique(s);
    assert [] + Sort(s, CreatedAt) == Sort(s, CreatedAt);
    DedupeFixesUnique([], Sort(s, CreatedAt));
  }

  /** The sort is stable: of messages with different ids, those of one time keep their order. */
  lemma EqualTimesKeepOrder(items: seq<Message>, time: int)
    requires UniqueIds(items) && AllCanonical(items)
    ensures Group(Normalize(items), CreatedAt, time) == Group(items, CreatedAt, time)
  {
    NormalizeUnique(items);
    SortIsStable(items, CreatedAt, time);
  }

  /** Normalising twice reaches the normal form whatever was stored. */
  lemma TwoPassesReachNormalForm(items: seq<Message>)
    ensures NormalForm(Normalize(Normalize(items)))
  {
    NormalizeIsUnique(items);
    NormalizeUnique(Normalize(items));
  }

  /** Exactly the normal forms are left unchanged. */
  lemma FixedExactlyOnNormalForm(s: seq<Message>)
    ensures Normalize(s) == s <==> NormalForm(s)
  {
    if NormalForm(s) {
      NormalizeUnique(s);
      SortFixesSorted(s, CreatedAt);
    }
    if Normalize(s) == s {
      NormalizeIsUnique(s);
      NormalizeUnique(s);
    }
  }

  /** Three normalisations equal two. */
  lemma ThreePassesEqualTwo(items: seq<Message>)
    ensures Normalize(Normalize(Normalize(items))) == Normalize(Normalize(items))
  {
    TwoPassesReachNormalForm(items);
    FixedExactlyOnNormalForm(Normalize(Normalize(items)));
  }

  /** One pass is not enough: an id keeps its first place while it takes its last value. */
  lemma OnePassMayBeUnsorted(a: Message, b: Message)
    requires a.id == "a" && b.id == "b" && a.createdAt < b.createdAt
    ensures
      var items := [a, b, a.(createdAt := b.createdAt + 1)];
      Normalize(items) == [items[2], b] && !Sorted(Normalize(items), CreatedAt)
  {
    var late := a.(createdAt := b.createdAt + 1);
    var items := [a, b, late];
    assert Sorted(items, CreatedAt);
    SortFixesSorted(items, CreatedAt);
    TrimFixesTrimmed("a");
    TrimFixesTrimmed("b");
    assert items[1..] == [b, late] && [b, late][1..] == [late];
    assert Absorb([], a) == [a];
    PutAppends([a], b);
    assert Absorb([a, b], late) == [late, b];
    calc {
      DedupeFrom([], items);
      DedupeFrom([a], [b, late]);
      DedupeFrom([a, b], [late]);
      DedupeFrom([late, b], []);
    }
    var r := [late, b];
    assert r[0].createdAt > r[1].createdAt;
  }

  // ---------------------------------------------------------------- reads and writes of one entry

  function Flatten(pages: seq<Page>): seq<Message> {
    if pages == [] then [] else pages[0].items + Flatten(pages[1..])
  }

  function Read(e: Entry): seq<Message> {
    if e.None? || e.value == [] then [] else Normalize(Flatten(e.value))
  }

  function LastNextPage(e: Entry): Option<nat> {
    if e.None? || e.value == [] then None else e.value[|e.value| - 1].nextPage
  }

  function Write(e: Entry, next: seq<Message>, preserved: Option<nat>): Entry {
    Some([Page(Normalize(next), OrElse(preserved, LastNextPage(e)))])
  }

  function Added(e: Entry, messages: seq<Message>): Entry {
    Write(e, Read(e) + messages, None)
  }

  function Updated(e: Entry, messageId: string, updater: Message -> Patch): Entry {
    var id := Trim(messageId);
    if id == "" then e
    else Write(e, Mapped(Read(e), id, Patching(updater)), None)
  }

  function Without(s: seq<Message>, id: string): seq<Message> {
    if s == [] then [] else (if s[0].id == id then [] else [s[0]]) + Without(s[1..], id)
  }

  function Removed(e: Entry, messageId: string): Entry {
    var id := Trim(messageId);
    if id == "" then e else Write(e, Without(Read(e), id), None)
  }

  function Rekeyed(e: Entry, fromMessageId: string, toMessageId: string): Entry {
    var fromId, toId := Trim(fromMessageId), Trim(toMessageId);
    if fromId == "" || toId == "" || fromId == toId then e
    else if Find(Read(e), fromId).None? then e
    else Write(e, Mapped(Read(e), fromId, Renaming(toId)), None)
  }

  /** The messages of an entry by id, as every reader that searches by id sees them. */
  function View(e: Entry): map<string, Message> {
    ById(Read(e))
  }

  // ---------------------------------------------------------------- reading several pages

  /** Item `i` of page `p` is a copy of `id`. */
  predicate CopyAt(pages: seq<Page>, id: string, p: nat, i: nat) {
    p < |pages| && i < |pages[p].items| && Trim(pages[p].items[i].id) == id
  }

  /** No copy in any page beats this one: by time, then by page, then by place in the page. */
  ghost predicate LatestCopyAt(pages: seq<Page>, id: string, p: nat, i: nat) {
    && CopyAt(pages, id, p, i)
    && forall q: nat, j: nat :: CopyAt(pages, id, q, j) ==>
         var one, other := pages[p].items[i], pages[q].items[j];
         other.createdAt < one.createdAt || (other.createdAt == one.createdAt && (q < p || (q == p && j <= i)))
  }

  /** Where a page begins in the flattened list. */
  function StartOf(pages: seq<Page>, p: nat): nat
    requires p <= |pages|
  {
    if p == 0 then 0 else |pages[0].items| + StartOf(pages[1..], p - 1)
  }

  lemma {:induction false} FlattenAt(pages: seq<Page>, p: nat, i: nat)
    requires p < |pages| && i < |pages[p].items|
    ensures StartOf(pages, p) + i < |Flatten(pages)| && Flatten(pages)[StartOf(pages, p) + i] == pages[p].items[i]
  {
    if p > 0 {
      FlattenAt(pages[1..], p - 1, i);
    }
  }

  lemma {:induction false} FlattenFrom(pages: seq<Page>, k: nat) returns (p: nat, i: nat)
    requires k < |Flatten(pages)|
    ensures p < |pages| && i < |pages[p].items| && k == StartOf(pages, p) + i
  {
    if k < |pages[0].items| {
      p, i := 0, k;
    } else {
      p, i := FlattenFrom(pages[1..], k - |pages[0].items|);
      p := p + 1;
    }
  }

  lemma {:induction false} PagesInOrder(pages: seq<Page>, q: nat, p: nat)
    requires q < p < |pages|
    ensures StartOf(pages, q) + |pages[q].items| <= StartOf(pages, p)
  {
    if q > 0 {
      PagesInOrder(pages[1..], q - 1, p - 1);
    }
  }

  /** Places in the flattened list are ordered by page, then by place in the page. */
  lemma PlacesInOrder(pages: seq<Page>, q: nat, j: nat, p: nat, i: nat)
    requires q < |pages| && j < |pages[q].items| && p < |pages| && i < |pages[p].items|
    ensures StartOf(pages, q) + j <= StartOf(pages, p) + i <==> q < p || (q == p && j <= i)
  {
    if q < p {
      PagesInOrder(pages, q, p);
    } else if p < q {
      PagesInOrder(pages, p, q);
    }
  }

  lemma LatestInPages(pages: seq<Page>, id: string, k: nat) returns (p: nat, i: nat)
    requires IsLatestAt(Flatten(pages), id, k)
    ensures LatestCopyAt(pages, id, p, i) && pages[p].items[i] == Flatten(pages)[k]
  {
    p, i := FlattenFrom(pages, k);
    FlattenAt(pages, p, i);
    forall q: nat, j: nat | CopyAt(pages, id, q, j)
      ensures
        var one, other := pages[p].items[i], pages[q].items[j];
        other.createdAt < one.createdAt || (other.createdAt == one.createdAt && (q < p || (q == p && j <= i)))
    {
      FlattenAt(pages, q, j);
      PlacesInOrder(pages, q, j, p, i);
    }
  }

  /**
   * A message is read if and only if some page holds a copy of it, and the copy that is read is the one
   * that no other beats.
   */
  lemma PagesAreRead(pages: seq<Page>, id: string)
    requires id != ""
    ensures id in View(Some(pages)) <==> exists p: nat, i: nat :: CopyAt(pages, id, p, i)
    ensures id in View(Some(pages)) ==>
      exists p: nat, i: nat :: LatestCopyAt(pages, id, p, i) && View(Some(pages))[id] == pages[p].items[i].(id := id)
  {
    var items := Flatten(pages);
    NormalizeKeepsLatest(items, id);
    LatestIsGreatest(items, id);
    assert pages == [] ==> items == [];
    if Latest(items, id).Some? {
      var k: nat :| IsLatestAt(items, id, k) && Latest(items, id) == Some(items[k]);
      var p, i := LatestInPages(pages, id, k);
      assert LatestCopyAt(pages, id, p, i) && CopyAt(pages, id, p, i);
    } else {
      forall p: nat, i: nat ensures !CopyAt(pages, id, p, i) {
        if CopyAt(pages, id, p, i) {
          FlattenAt(pages, p, i);
          assert Matches(items[StartOf(pages, p) + i], id);
        }
      }
    }
  }

  /** The cursor of the last page. */
  predicate Continues(e: Entry, nextPage: Option<nat>) {
    nextPage == if e.None? || |e.value| == 0 then None else e.value[|e.value| - 1].nextPage
  }

  /** A write leaves one page, with the cursor that is given or else that of the last page before. */
  lemma WriteKeepsCursor(e: Entry, next: seq<Message>, preserved: Option<nat>)
    ensures Write(e, next, preserved).Some? && |Write(e, next, preserved).value| == 1
    ensures
      var written := Write(e, next, preserved).value[0];
      if preserved.Some? then written.nextPage == preserved else Continues(e, written.nextPage)
  {
  }

  /** Every read after a write is sorted by time and free of duplicates. */
  lemma ReadAfterWrite(e: Entry, next: seq<Message>, preserved: Option<nat>)
    ensures Read(Write(e, next, preserved)) == Normalize(Normalize(next))
    ensures NormalForm(Read(Write(e, next, preserved)))
    ensures LastNextPage(Write(e, next, preserved)) == OrElse(preserved, LastNextPage(e))
  {
    var page := Page(Normalize(next), OrElse(preserved, LastNextPage(e)));
    assert Flatten([page]) == page.items + Flatten([page][1..]);
    assert page.items + [] == page.items;
    TwoPassesReachNormalForm(next);
  }

  /** Reads have unique canonical ids even before the first write, when pages overlap. */
  lemma ReadIsUnique(e: Entry)
    ensures UniqueIds(Read(e)) && AllCanonical(Read(e))
  {
    if e.Some? && e.value != [] {
      NormalizeIsUnique(Flatten(e.value));
    }
  }

  /** Writing a list already in normal form is read back unchanged. */
  lemma WriteNormalForm(e: Entry, next: seq<Message>, preserved: Option<nat>)
    requires NormalForm(next)
    ensures Read(Write(e, next, preserved)) == next
  {
    ReadAfterWrite(e, next, preserved);
    FixedExactlyOnNormalForm(next);
  }

  /** Writing back what was read changes no later read, and repeating it changes nothing stored. */
  lemma WriteBackIsNeutral(e: Entry, next: seq<Message>)
    ensures
      var written := Write(e, next, None);
      var back := Write(written, Read(written), None);
      Read(back) == Read(written) && LastNextPage(back) == LastNextPage(e) && Write(back, Read(back), None) == back
  {
    ReadAfterWrite(e, next, None);
    WriteNormalForm(Write(e, next, None), Read(Write(e, next, None)), None);
    FixedExactlyOnNormalForm(Read(Write(e, next, None)));
  }

  lemma MappedKeepsUnique(s: seq<Message>, id: string, f: Message -> Message, newId: string)
    requires UniqueIds(s)
    requires forall m: Message :: f(m).id == newId
    requires newId == id || Find(s, newId).None?
    ensures UniqueIds(Mapped(s, id, f))
  {
    forall i | 0 <= i < |s| ensures s[i].id == newId ==> newId == id {
      assert s[i] in s;
    }
  }

  /** An update that keeps the time of the message keeps every position and every other message. */
  lemma UpdateKeepsPlaces(e: Entry, messageId: string, updater: Message -> Patch)
    requires NormalForm(Read(e)) && Trim(messageId) != ""
    requires forall m :: updater(m).createdAt.None?
    ensures Read(Updated(e, messageId, updater)) == Mapped(Read(e), Trim(messageId), Patching(updater))
    ensures LastNextPage(Updated(e, messageId, updater)) == LastNextPage(e)
  {
    var next := Mapped(Read(e), Trim(messageId), Patching(updater));
    assert forall i :: 0 <= i < |next| ==> next[i].id == Read(e)[i].id && next[i].createdAt == Read(e)[i].createdAt;
    assert NormalForm(next);
    WriteNormalForm(e, next, None);
    ReadAfterWrite(e, next, None);
  }

  /** A rekey to an unused id keeps every position. */
  lemma RekeyKeepsPlaces(e: Entry, fromMessageId: string, toMessageId: string)
    requires NormalForm(Read(e))
    requires Trim(toMessageId) != "" && Find(Read(e), Trim(toMessageId)).None?
    ensures Read(Rekeyed(e, fromMessageId, toMessageId)) ==
      Mapped(Read(e), Trim(fromMessageId), Renaming(Trim(toMessageId)))
    ensures LastNextPage(Rekeyed(e, fromMessageId, toMessageId)) == LastNextPage(e)
  {
    var fromId, toId := Trim(fromMessageId), Trim(toMessageId);
    var next := Mapped(Read(e), fromId, Renaming(toId));
    if fromId == "" || Find(Read(e), fromId).None? {
      assert forall i :: 0 <= i < |Read(e)| ==> Read(e)[i] in Read(e) && Read(e)[i].id != "";
      assert next == Read(e);
    } else {
      MappedKeepsUnique(Read(e), fromId, Renaming(toId), toId);
      TrimIsTrimmed(toMessageId);
      assert NormalForm(next);
      WriteNormalForm(e, next, None);
      ReadAfterWrite(e, next, None);
    }
  }

  lemma AppendStaysNormal(s: seq<Message>, m: Message)
    requires NormalForm(s) && Canonical(m.id) && Find(s, m.id).None?
    requires forall x :: x in s ==> x.createdAt <= m.createdAt
    ensures NormalForm(s + [m])
  {
    var next := s + [m];
    forall i | 0 <= i < |s| ensures next[i].id != m.id && CreatedAt(next[i]) <= CreatedAt(m) && Canonical(next[i].id) {
      assert s[i] in s;
    }
  }

  /** A new message not older than any other goes to the end. */
  lemma AddAppends(e: Entry, m: Message)
    requires NormalForm(Read(e))
    requires Canonical(m.id) && Find(Read(e), m.id).None?
    requires forall x :: x in Read(e) ==> x.createdAt <= m.createdAt
    ensures Read(Added(e, [m])) == Read(e) + [m]
    ensures LastNextPage(Added(e, [m])) == LastNextPage(e)
  {
    var next := Read(e) + [m];
    AppendStaysNormal(Read(e), m);
    WriteNormalForm(e, next, None);
    ReadAfterWrite(e, next, None);
  }

  // ---------------------------------------------------------------- the effect on the view by id

  lemma SameView(s: seq<Message>, v: map<string, Message>)
    requires forall k :: k in v <==> Find(s, k).Some?
    requires forall k :: k in v ==> Find(s, k) == Some(v[k])
    ensures ById(s) == v
  {
  }

  lemma ViewAfterWrite(e: Entry, next: seq<Message>)
    requires UniqueIds(next) && AllCanonical(next)
    ensures View(Write(e, next, None)) == ById(next)
  {
    ReadAfterWrite(e, next, None);
    NormalizeUnique(next);
    FixedExactlyOnNormalForm(Normalize(next));
    UniqueAfterSort(next);
  }

  lemma UpdatedFinds(s: seq<Message>, id: string, updater: Message -> Patch, k: string)
    requires UniqueIds(s) && UniqueIds(Mapped(s, id, Patching(updater)))
    ensures
      var next := Mapped(s, id, Patching(updater));
      var v := if id in ById(s) then ById(s)[id := ApplyPatch(ById(s)[id], updater(ById(s)[id]))] else ById(s);
      (k in v <==> Find(next, k).Some?) && (k in v ==> Find(next, k) == Some(v[k]))
  {
    MappedFinds(s, id, Patching(updater), id, k);
  }

  /** An update changes the view at its own id only, wherever the write then sorts the message. */
  lemma UpdateView(e: Entry, messageId: string, updater: Message -> Patch)
    requires Trim(messageId) != ""
    ensures
      var id, v := Trim(messageId), View(e);
      View(Updated(e, messageId, updater)) == if id in v then v[id := ApplyPatch(v[id], updater(v[id]))] else v
  {
    ReadIsUnique(e);
    var id, s := Trim(messageId), Read(e);
    var next := Mapped(s, id, Patching(updater));
    assert forall i :: 0 <= i < |next| ==> next[i].id == s[i].id;
    ViewAfterWrite(e, next);
    var v := View(e);
    var v' := if id in v then v[id := ApplyPatch(v[id], updater(v[id]))] else v;
    forall k ensures (k in v' <==> Find(next, k).Some?) && (k in v' ==> Find(next, k) == Some(v'[k])) {
      UpdatedFinds(s, id, updater, k);
    }
    SameView(next, v');
  }

  lemma RekeyedFinds(s: seq<Message>, fromId: string, toId: string, k: string)
    requires UniqueIds(s) && UniqueIds(Mapped(s, fromId, Renaming(toId)))
    requires fromId in ById(s) && toId !in ById(s)
    ensures
      var next := Mapped(s, fromId, Renaming(toId));
      var v := (ById(s) - {fromId})[toId := ById(s)[fromId].(id := toId)];
      (k in v <==> Find(next, k).Some?) && (k in v ==> Find(next, k) == Some(v[k]))
  {
    MappedFinds(s, fromId, Renaming(toId), toId, k);
  }

  /** A rekey to an unused id moves the message in the view. */
  lemma RekeyView(e: Entry, fromMessageId: string, toMessageId: string)
    requires Trim(toMessageId) != "" && Trim(toMessageId) !in View(e) && Trim(fromMessageId) in View(e)
    ensures
      var fromId, toId, v := Trim(fromMessageId), Trim(toMessageId), View(e);
      View(Rekeyed(e, fromMessageId, toMessageId)) == (v - {fromId})[toId := v[fromId].(id := toId)]
  {
    ReadIsUnique(e);
    var fromId, toId, s := Trim(fromMessageId), Trim(toMessageId), Read(e);
    var next := Mapped(s, fromId, Renaming(toId));
    assert fromId != "" by {
      var i :| 0 <= i < |s| && s[i] == Find(s, fromId).value;
    }
    MappedKeepsUnique(s, fromId, Renaming(toId), toId);
    TrimIsTrimmed(toMessageId);
    ViewAfterWrite(e, next);
    var v := View(e);
    var v' := (v - {fromId})[toId := v[fromId].(id := toId)];
    forall k ensures (k in v' <==> Find(next, k).Some?) && (k in v' ==> Find(next, k) == Some(v'[k])) {
      RekeyedFinds(s, fromId, toId, k);
    }
    SameView(next, v');
  }

  /** Rekeying changes nothing when an id is blank, both are the same, or there is no message of the first. */
  lemma RekeyGuards(e: Entry, fromMessageId: string, toMessageId: string)
    requires
      || Trim(fromMessageId) == "" || Trim(toMessageId) == "" || Trim(fromMessageId) == Trim(toMessageId)
      || Trim(fromMessageId) !in View(e)
    ensures Rekeyed(e, fromMessageId, toMessageId) == e
  {
  }

  /** Of two messages with one id the later stays. */
  lemma {:induction false} LatestOfTwo(s: seq<Message>, id: string, one: Message, other: Message)
    requires one in s && other in s && Matches(one, id) && Matches(other, id) && one.createdAt < other.createdAt
    requires forall m :: m in s && Matches(m, id) ==> m == one || m == other
    ensures Latest(s, id) == Some(other)
  {
    LatestIsGreatest(s, id);
    var k: nat :| IsLatestAt(s, id, k) && Latest(s, id) == Some(s[k]);
    var j :| 0 <= j < |s| && s[j] == other;
    assert s[k] in s;
  }

  /** A rekey onto the id of another message: the later of the two stays, and every other message. */
  lemma RekeyOntoUsed(e: Entry, fromMessageId: string, toMessageId: string)
    requires Trim(fromMessageId) != Trim(toMessageId)
    requires Trim(fromMessageId) in View(e) && Trim(toMessageId) in View(e)
    requires View(e)[Trim(fromMessageId)].createdAt != View(e)[Trim(toMessageId)].createdAt
    ensures
      var fromId, toId, v, w := Trim(fromMessageId), Trim(toMessageId), View(e), View(Rekeyed(e, fromMessageId, toMessageId));
      && toId in w
      && w[toId] == (if v[fromId].createdAt < v[toId].createdAt then v[toId] else v[fromId].(id := toId))
      && fromId !in w
      && forall k :: k != fromId && k != toId ==> (k in w <==> k in v) && (k in v ==> w[k] == v[k])
  {
    ReadIsUnique(e);
    var fromId, toId, s := Trim(fromMessageId), Trim(toMessageId), Read(e);
    var next := Mapped(s, fromId, Renaming(toId));
    UsedIdsAreNotBlank(e, fromId);
    UsedIdsAreNotBlank(e, toId);
    forall k | k != "" ensures k in View(Write(e, next, None)) <==> Latest(next, k).Some?
                       ensures k in View(Write(e, next, None)) ==> Some(View(Write(e, next, None))[k]) == WithId(Latest(next, k), k) {
      WrittenView(e, next, k);
    }
    RenamedCopies(s, fromId, toId);
    forall k | k != fromId && k != toId
      ensures var w, v := View(Rekeyed(e, fromMessageId, toMessageId)), View(e);
        (k in w <==> k in v) && (k in v ==> w[k] == v[k])
    {
      if k == "" {
        BlankIsNotRead(e);
        BlankIsNotRead(Write(e, next, None));
      } else {
        OtherCopies(s, fromId, toId, k);
      }
    }
  }

  function WithId(m: Option<Message>, id: string): Option<Message> {
    if m.Some? then Some(m.value.(id := id)) else None
  }

  lemma UsedIdsAreNotBlank(e: Entry, id: string)
    requires id in View(e)
    ensures Canonical(id)
  {
    ReadIsUnique(e);
    var s := Read(e);
    var i :| 0 <= i < |s| && s[i] == Find(s, id).value;
  }

  lemma BlankIsNotRead(e: Entry)
    ensures "" !in View(e)
  {
    if "" in View(e) {
      UsedIdsAreNotBlank(e, "");
    }
  }

  /** What is read of one id after any list was written: its latest copy. */
  lemma WrittenView(e: Entry, next: seq<Message>, id: string)
    requires id != ""
    ensures id in View(Write(e, next, None)) <==> Latest(next, id).Some?
    ensures id in View(Write(e, next, None)) ==> Some(View(Write(e, next, None))[id]) == WithId(Latest(next, id), id)
  {
    ReadAfterWrite(e, next, None);
    NormalizeIsUnique(next);
    NormalizeUnique(Normalize(next));
    UniqueAfterSort(Normalize(next));
    NormalizeKeepsLatest(next, id);
    assert View(Write(e, next, None)) == ById(Normalize(next));
  }

  /** Merging a list in: of what is read and what is added, in this order, the copy that no other beats. */
  lemma MergeView(e: Entry, messages: seq<Message>, id: string)
    requires id != ""
    ensures
      var all, v := Read(e) + messages, View(Added(e, messages));
      && (id in v <==> id in View(e) || exists m :: m in messages && Trim(m.id) == id)
      && (id in v ==> exists k: nat :: IsLatestAt(all, id, k) && v[id] == all[k].(id := id))
  {
    var all := Read(e) + messages;
    WrittenView(e, all, id);
    LatestIsGreatest(all, id);
    ReadIsUnique(e);
    if id in View(e) {
      TrimFixesTrimmed(Find(Read(e), id).value.id);
      assert Find(Read(e), id).value in all;
    }
    if m :| m in messages && Trim(m.id) == id {
      assert m in all;
    }
    if Latest(all, id).Some? {
      var k: nat :| IsLatestAt(all, id, k) && Latest(all, id) == Some(all[k]);
      if k < |Read(e)| {
        TrimFixesTrimmed(Read(e)[k].id);
        FoundAt(Read(e), k);
      } else {
        assert all[k] in messages;
      }
    }
  }

  /** The copies of the two ids after a renaming onto a used id. */
  lemma RenamedCopies(s: seq<Message>, fromId: string, toId: string)
    requires UniqueIds(s) && AllCanonical(s) && Canonical(fromId) && Canonical(toId) && fromId != toId
    requires fromId in ById(s) && toId in ById(s) && ById(s)[fromId].createdAt != ById(s)[toId].createdAt
    ensures
      var next, v := Mapped(s, fromId, Renaming(toId)), ById(s);
      && Latest(next, fromId).None?
      && Latest(next, toId) == Some(if v[fromId].createdAt < v[toId].createdAt then v[toId] else v[fromId].(id := toId))
  {
    var next, v := Mapped(s, fromId, Renaming(toId)), ById(s);
    var i :| 0 <= i < |s| && s[i] == v[fromId];
    var j :| 0 <= j < |s| && s[j] == v[toId];
    forall k | 0 <= k < |s|
      ensures !Matches(next[k], fromId)
      ensures Matches(next[k], toId) ==> next[k] == v[fromId].(id := toId) || next[k] == v[toId]
    {
      TrimFixesTrimmed(s[k].id);
      TrimFixesTrimmed(toId);
      FoundAt(s, k);
    }
    LatestIsGreatest(next, fromId);
    TrimFixesTrimmed(toId);
    assert next[i] == v[fromId].(id := toId) && next[j] == v[toId];
    if v[fromId].createdAt < v[toId].createdAt {
      LatestOfTwo(next, toId, next[i], next[j]);
    } else {
      LatestOfTwo(next, toId, next[j], next[i]);
    }
  }

  lemma {:induction false} OtherCopies(s: seq<Message>, fromId: string, toId: string, k: string)
    requires UniqueIds(s) && AllCanonical(s) && Canonical(toId) && k != fromId && k != toId
    ensures Latest(Mapped(s, fromId, Renaming(toId)), k) == Find(s, k)
    ensures Find(s, k).Some? ==> Find(s, k).value.id == k
  {
    if s != [] {
      OtherCopies(s[1..], fromId, toId, k);
      TrimFixesTrimmed(s[0].id);
      TrimFixesTrimmed(toId);
      assert Mapped(s, fromId, Renaming(toId))[1..] == Mapped(s[1..], fromId, Renaming(toId));
      if s[0].id == k {
        assert forall i :: 0 <= i < |s[1..]| ==> s[1..][i].id != k;
        NotFoundAt(s[1..], k);
      }
    }
  }

  lemma {:induction false} WithoutAbsent(s: seq<Message>, id: string)
    requires forall i :: 0 <= i < |s| ==> s[i].id != id
    ensures Without(s, id) == s
  {
    if s != [] {
      WithoutAbsent(s[1..], id);
      assert s == [s[0]] + s[1..];
    }
  }

  lemma {:induction false} WithoutOne(s: seq<Message>, id: string, k: nat)
    requires UniqueIds(s) && k < |s| && s[k].id == id
    ensures Without(s, id) == s[..k] + s[k + 1..]
  {
    if k == 0 {
      WithoutAbsent(s[1..], id);
      assert s[..0] + s[0 + 1..] == s[1..];
    } else {
      WithoutOne(s[1..], id, k - 1);
      assert [s[0]] + (s[1..][..k - 1] + s[1..][k..]) == s[..k] + s[k + 1..];
    }
  }

  /** One message less. */
  function Cut(s: seq<Message>, k: nat): (r: seq<Message>)
    requires k < |s|
    ensures |r| == |s| - 1
    ensures forall i :: 0 <= i < |r| ==> r[i] == s[if i < k then i else i + 1]
  {
    s[..k] + s[k + 1..]
  }

  /** One removal cuts one message out, or nothing. */
  lemma WithoutCuts(s: seq<Message>, id: string) returns (k: nat)
    requires UniqueIds(s)
    ensures id in ById(s) ==> k < |s| && s[k].id == id && Without(s, id) == Cut(s, k)
    ensures id !in ById(s) ==> Without(s, id) == s
  {
    k := 0;
    if id in ById(s) {
      k :| k < |s| && s[k] == Find(s, id).value;
      WithoutOne(s, id, k);
    } else {
      assert forall i :: 0 <= i < |s| ==> s[i] in s;
      WithoutAbsent(s, id);
    }
  }

  lemma WithoutStaysUnique(s: seq<Message>, id: string)
    requires UniqueIds(s) && AllCanonical(s)
    ensures UniqueIds(Without(s, id)) && AllCanonical(Without(s, id))
    ensures Sorted(s, CreatedAt) ==> Sorted(Without(s, id), CreatedAt)
  {
    var k := WithoutCuts(s, id);
  }

  lemma CutFinds(s: seq<Message>, j: nat, k: string)
    requires UniqueIds(s) && j < |s|
    ensures Find(Cut(s, j), k) == if k == s[j].id then None else Find(s, k)
  {
    var t := Cut(s, j);
    if i :| 0 <= i < |t| && t[i].id == k {
      FoundAt(t, i);
      FoundAt(s, if i < j then i else i + 1);
    } else {
      NotFoundAt(t, k);
      if k != s[j].id {
        forall i | 0 <= i < |s| ensures s[i].id != k {
          assert i < j ==> t[i] == s[i];
          assert i > j ==> t[i - 1] == s[i];
        }
        NotFoundAt(s, k);
      }
    }
  }

  /** A removal takes the message out of the view and nothing else. */
  lemma RemoveView(e: Entry, messageId: string)
    ensures View(Removed(e, messageId)) == View(e) - {Trim(messageId)}
  {
    var id, s := Trim(messageId), Read(e);
    if id == "" {
      BlankIsNotRead(e);
    } else {
      ReadIsUnique(e);
      WithoutStaysUnique(s, id);
      ViewAfterWrite(e, Without(s, id));
      WithoutFinds(s, id);
    }
  }

  lemma OneEntryLess(s: seq<Message>, t: seq<Message>, id: string)
    requires forall k :: Find(t, k) == (if k == id then None else Find(s, k))
    ensures ById(t) == ById(s) - {id}
  {
    var v := ById(s) - {id};
    forall k ensures (k in v <==> Find(t, k).Some?) && (k in v ==> Find(t, k) == Some(v[k])) {
      assert k in v <==> k in ById(s) && k != id;
    }
    SameView(t, v);
  }

  lemma WithoutFinds(s: seq<Message>, id: string)
    requires UniqueIds(s)
    ensures ById(Without(s, id)) == ById(s) - {id}
  {
    var j := WithoutCuts(s, id);
    if id in ById(s) {
      var t := Cut(s, j);
      forall k ensures Find(t, k) == if k == id then None else Find(s, k) {
        CutFinds(s, j, k);
      }
      OneEntryLess(s, t, id);
    } else {
      assert ById(s) - {id} == ById(s);
    }
  }

  /** In a history in normal form the others keep their order, and the last page its cursor. */
  lemma RemoveKeepsPlaces(e: Entry, messageId: string)
    requires NormalForm(Read(e))
    ensures
      var before, after := Read(e), Read(Removed(e, messageId));
      if Trim(messageId) !in View(e) then after == before
      else exists k :: 0 <= k < |before| && before[k].id == Trim(messageId) && after == Cut(before, k)
    ensures LastNextPage(Removed(e, messageId)) == LastNextPage(e)
  {
    var id, s := Trim(messageId), Read(e);
    if id == "" {
      BlankIsNotRead(e);
    } else {
      var k := WithoutCuts(s, id);
      WithoutStaysUnique(s, id);
      WriteNormalForm(e, Without(s, id), None);
      ReadAfterWrite(e, Without(s, id), None);
    }
  }

  /** The latest copy, with one more message at the end of the list. */
  lemma {:induction false} LatestOfAppended(s: seq<Message>, m: Message, k: string)
    ensures
      var latest := Latest(s, k);
      Latest(s + [m], k) ==
        if !Matches(m, k) || (latest.Some? && m.createdAt < latest.value.createdAt) then latest else Some(m)
  {
    if s == [] {
      assert s + [m] == [m];
    } else {
      LatestOfAppended(s[1..], m, k);
      assert (s + [m])[1..] == s[1..] + [m];
    }
  }

  /** The view after a message was added: it counts unless a later copy of its id is there. */
  function ViewWith(v: map<string, Message>, m: Message): map<string, Message> {
    if m.id in v && m.createdAt < v[m.id].createdAt then v else v[m.id := m]
  }

  lemma {:induction false} LatestOfUnique(s: seq<Message>, k: string)
    requires UniqueIds(s) && AllCanonical(s)
    ensures Latest(s, k) == Find(s, k)
  {
    if s != [] {
      LatestOfUnique(s[1..], k);
      TrimFixesTrimmed(s[0].id);
      if s[0].id == k {
        assert forall i :: 0 <= i < |s[1..]| ==> s[1..][i].id != k;
        NotFoundAt(s[1..], k);
      }
    }
  }

  lemma AddedFinds(s: seq<Message>, m: Message, k: string)
    requires UniqueIds(s) && AllCanonical(s) && Canonical(m.id)
    ensures Find(Normalize(s + [m]), k) ==
      if k in ViewWith(ById(s), m) then Some(ViewWith(ById(s), m)[k]) else None
  {
    if k == "" {
      NormalizeIsUnique(s + [m]);
      NotFoundAt(Normalize(s + [m]), k);
      NotFoundAt(s, k);
    } else {
      NormalizeKeepsLatest(s + [m], k);
      LatestOfUnique(s, k);
      LatestOfAppended(s, m, k);
      TrimFixesTrimmed(m.id);
    }
  }

  /** A message is added to the view, unless a later copy with its id is there. */
  lemma AddView(e: Entry, m: Message)
    requires Canonical(m.id)
    ensures View(Added(e, [m])) == ViewWith(View(e), m)
  {
    var s := Read(e);
    ReadIsUnique(e);
    ReadAfterWrite(e, s + [m], None);
    var n := Normalize(s + [m]);
    NormalizeIsUnique(s + [m]);
    NormalizeUnique(n);
    UniqueAfterSort(n);
    forall k ensures Find(n, k) == if k in ViewWith(View(e), m) then Some(ViewWith(View(e), m)[k]) else None {
      AddedFinds(s, m, k);
    }
    SameView(n, ViewWith(View(e), m));
  }

  lemma NotFoundAt(s: seq<Message>, k: string)
    requires forall i :: 0 <= i < |s| ==> s[i].id != k
    ensures Find(s, k) == None
  {
  }

  lemma FoundAt(s: seq<Message>, i: nat)
    requires UniqueIds(s) && i < |s|
    ensures Find(s, s[i].id) == Some(s[i])
  {
    FindUnique(s, s[i]);
  }

  lemma MappedFinds(s: seq<Message>, id: string, f: Message -> Message, newId: string, k: string)
    requires UniqueIds(s) && UniqueIds(Mapped(s, id, f))
    requires Find(s, id).Some? ==> f(Find(s, id).value).id == newId
    requires newId == id || Find(s, newId).None?
    ensures Find(Mapped(s, id, f), k) == FindInMapped(s, id, f, newId, k)
  {
    var t := Mapped(s, id, f);
    forall i | 0 <= i < |s| ensures Find(s, s[i].id) == Some(s[i]) && Find(t, t[i].id) == Some(t[i]) {
      FoundAt(s, i);
      FoundAt(t, i);
    }
    if i :| 0 <= i < |s| && t[i].id == k {
    } else {
      NotFoundAt(t, k);
      MappedMisses(s, id, f, newId, k);
    }
  }

  lemma MappedMisses(s: seq<Message>, id: string, f: Message -> Message, newId: string, k: string)
    requires UniqueIds(s)
    requires Find(s, id).Some? ==> f(Find(s, id).value).id == newId
    requires forall i :: 0 <= i < |s| ==> Find(s, s[i].id) == Some(s[i]) && Mapped(s, id, f)[i].id != k
    ensures FindInMapped(s, id, f, newId, k) == None
  {
    var t := Mapped(s, id, f);
    if j :| 0 <= j < |s| && s[j].id == k {
      assert t[j].id != k;
    } else {
      NotFoundAt(s, k);
      if j :| 0 <= j < |s| && s[j].id == id {
        assert t[j].id == newId;
      } else {
        NotFoundAt(s, id);
      }
    }
  }

  function FindInMapped(s: seq<Message>, id: string, f: Message -> Message, newId: string, k: string): Option<Message> {
    if k == newId then (if Find(s, id).Some? then Some(f(Find(s, id).value)) else None)
    else if k == id then None
    else Find(s, k)
  }

  // ---------------------------------------------------------------- the cache object

  /** The shared query cache, with the history pages of each conversation. */
  class HistoryStore {
    var pages: map<string, seq<Page>>

    function EntryOf(conversationId: string): Entry
      reads this
    {
      if conversationId in pages then Some(pages[conversationId]) else None
    }

    constructor ()
      ensures pages == map[]
    {
      pages := map[];
    }

    method NormalizeMessages(items: seq<Message>) returns (deduped: seq<Message>)
      ensures deduped == Normalize(items)
    {
      var ordered := Sort(items, CreatedAt);
      deduped := [];
      for i := 0 to |ordered|
        invariant DedupeFrom(deduped, ordered[i..]) == Normalize(items)
      {
        var item := ordered[i];
        var id := Trim(item.id);
        assert ordered[i..][1..] == ordered[i + 1..];
        if id != "" {
          deduped := Put(deduped, item.(id := id));
        }
      }
    }

    method GetConversationMessages(conversationId: string) returns (messages: seq<Message>)
      ensures messages == Read(EntryOf(conversationId))
    {
      if conversationId !in pages || pages[conversationId] == [] {
        return [];
      }
      messages := NormalizeMessages(Flatten(pages[conversationId]));
    }

    method WriteMessages(conversationId: string, next: seq<Message>, preserveNextPage: Option<nat>)
      modifies this
      ensures pages.Keys == old(pages).Keys + {conversationId}
      ensures EntryOf(conversationId) == Write(old(EntryOf(conversationId)), next, preserveNextPage)
      ensures NormalForm(Read(EntryOf(conversationId)))
      ensures forall c :: c != conversationId ==> EntryOf(c) == old(EntryOf(c))
    {
      ReadAfterWrite(EntryOf(conversationId), next, preserveNextPage);
      var items := NormalizeMessages(next);
      var fallback := preserveNextPage;
      if preserveNextPage.None? && conversationId in pages && pages[conversationId] != [] {
        fallback := pages[conversationId][|pages[conversationId]| - 1].nextPage;
      }
      pages := pages[conversationId := [Page(items, fallback)]];
    }

    method SetConversationMessages(conversationId: string, messages: seq<Message>)
      modifies this
      ensures EntryOf(conversationId) == Write(old(EntryOf(conversationId)), messages, None)
      ensures forall c :: c != conversationId ==> EntryOf(c) == old(EntryOf(c))
    {
      WriteMessages(conversationId, messages, None);
    }

    method MergeConversationMessages(conversationId: string, messages: seq<Message>)
      modifies this
      ensures EntryOf(conversationId) == Added(old(EntryOf(conversationId)), messages)
      ensures forall c :: c != conversationId ==> EntryOf(c) == old(EntryOf(c))
    {
      var current := GetConversationMessages(conversationId);
      WriteMessages(conversationId, current + messages, None);
    }

    method AddConversationMessage(conversationId: string, message: Message)
      modifies this
      ensures EntryOf(conversationId) == Added(old(EntryOf(conversationId)), [message])
      ensures forall c :: c != conversationId ==> EntryOf(c) == old(EntryOf(c))
    {
      var current := GetConversationMessages(conversationId);
      WriteMessages(conversationId, current + [message], None);
    }

    method UpdateConversationMessageWithUpdater(conversationId: string, messageId: string, updater: Message -> Patch)
      modifies this
      ensures EntryOf(conversationId) == Updated(old(EntryOf(conversationId)), messageId, updater)
      ensures forall c :: c != conversationId ==> EntryOf(c) == old(EntryOf(c))
    {
      var targetId := Trim(messageId);
      if targetId == "" {
        return;
      }
      var current := GetConversationMessages(conversationId);
      WriteMessages(conversationId, Mapped(current, targetId, Patching(updater)), None);
    }

    method RemoveConversationMessage(conversationId: string, messageId: string)
      modifies this
      ensures EntryOf(conversationId) == Removed(old(EntryOf(conversationId)), messageId)
      ensures forall c :: c != conversationId ==> EntryOf(c) == old(EntryOf(c))
    {
      var targetId := Trim(messageId);
      if targetId == "" {
        return;
      }
      var current := GetConversationMessages(conversationId);
      WriteMessages(conversationId, Without(current, targetId), None);
    }

    method RekeyConversationMessage(conversationId: string, fromMessageId: string, toMessageId: string)
      modifies this
      ensures EntryOf(conversationId) == Rekeyed(old(EntryOf(conversationId)), fromMessageId, toMessageId)
      ensures forall c :: c != conversationId ==> EntryOf(c) == old(EntryOf(c))
    {
      var fromId, toId := Trim(fromMessageId), Trim(toMessageId);
      if fromId == "" || toId == "" || fromId == toId {
        return;
      }
      var current := GetConversationMessages(conversationId);
      if Find(current, fromId).None? {
        return;
      }
      WriteMessages(conversationId, Mapped(current, fromId, Renaming(toId)), None);
    }

    method RemoveConversationMessages(conversationId: string)
      modifies this
      ensures pages == old(pages) - {conversationId}
    {
      pages := pages - {conversationId};
    }
  }
}
