/** Writing a merged page into the history cache, seen by message id (frontend/store/chatRuntime.ts:364-378). */
module HistoryMerge {
  import opened Prelude
  import opened Text
  import opened Messages
  import opened HistoryCache
  import opened MessageMerge
  import opened ChatTurn

  lemma {:induction false} LastCopyOfUnique(s: seq<Message>, id: string)
    requires UniqueIds(s)
    ensures LastCopy(s, id) == Find(s, id)
  {
    if s != [] {
      LastCopyOfUnique(s[1..], id);
      if s[0].id == id {
        assert forall m :: m in s[1..] ==> m.id != id;
      }
    }
  }

  lemma MergedIsCanonical(current: seq<Message>, incoming: seq<Message>)
    requires AllCanonical(current)
    ensures AllCanonical(Merged(current, incoming, false))
  {
    var s := Merged(current, incoming, false);
    forall i | 0 <= i < |s| ensures Canonical(s[i].id) {
      MergedIds(current, incoming, false, s[i].id);
      assert Ids(s)[i] == s[i].id;
      if s[i].id in Ids(current) {
        var j :| 0 <= j < |current| && Ids(current)[j] == s[i].id;
        assert Canonical(current[j].id);
      } else {
        var m :| m in incoming && Trim(m.id) == s[i].id;
        TrimIsTrimmed(m.id);
      }
    }
  }

  /** The written merge is, by id, the settled value of every id on either side. */
  lemma MergedView(e: Entry, incoming: seq<Message>)
    ensures HistoryCache.View(Write(e, Merged(Read(e), incoming, false), None)) == MergedHistory(HistoryCache.View(e), incoming)
  {
    ReadIsUnique(e);
    var current := Read(e);
    var merged := Merged(current, incoming, false);
    MergedIsCanonical(current, incoming);
    MergedFinds(current, incoming, false, "");
    ViewAfterWrite(e, merged);
    var h := MergedHistory(HistoryCache.View(e), incoming);
    forall id ensures (id in h <==> Find(merged, id).Some?) && (id in h ==> Find(merged, id) == Some(h[id])) {
      MergedFinds(current, incoming, false, id);
      LastCopyOfUnique(current, id);
      SettleExists(Lookup(HistoryCache.View(e), id), incoming, id, false);
      assert Lookup(HistoryCache.View(e), id) == Find(current, id);
      if id == "" {
        assert forall i :: 0 <= i < |current| ==> current[i].id != "";
        NotFoundAt(current, "");
      }
    }
    SameView(merged, h);
  }
}
