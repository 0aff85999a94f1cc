/** What the cleanup plan and the list for storage guarantee. */
module SessionPlanFacts {
  import opened Prelude
  import opened Text
  import opened StableSort
  import opened Metadata
  import opened MetadataLenses
  import opened SessionPlans
  import Sessions
  import ChatRuns

  // ---------------------------------------------------------------- lists of entries

  lemma {:induction false} ExpiredMembers(entries: seq<Entry>, deadline: int, id: string)
    ensures
      id in Expired(entries, deadline) <==>
        exists i :: 0 <= i < |entries| && entries[i].id == id && entries[i].session.lastActiveAt < deadline
  {
    if entries != [] {
      ExpiredMembers(entries[1..], deadline, id);
      if i :| 0 <= i < |entries| && entries[i].id == id && entries[i].session.lastActiveAt < deadline {
        assert i == 0 || entries[1..][i - 1] == entries[i];
      }
    }
  }

  lemma {:induction false} KeepMembers(entries: seq<Entry>, dropped: seq<string>, e: Entry)
    ensures e in Keep(entries, dropped) <==> e in entries && e.id !in dropped
  {
    if entries != [] {
      KeepMembers(entries[1..], dropped, e);
      assert entries == [entries[0]] + entries[1..];
    }
  }

  lemma {:induction false} KeepStaysKeyed(entries: seq<Entry>, dropped: seq<string>)
    requires Keyed(entries)
    ensures Keyed(Keep(entries, dropped))
  {
    if entries != [] {
      assert Keyed(entries[1..]) by {
        forall i, j | 0 <= i < j < |entries[1..]| ensures IdOf(entries[1..][i]) != IdOf(entries[1..][j]) {
          assert IdOf(entries[i + 1]) != IdOf(entries[j + 1]);
        }
      }
      KeepStaysKeyed(entries[1..], dropped);
      var rest := Keep(entries[1..], dropped);
      forall i | 0 <= i < |rest| ensures IdOf(rest[i]) != IdOf(entries[0]) {
        KeepMembers(entries[1..], dropped, rest[i]);
        var k :| 0 <= k < |entries[1..]| && entries[1..][k] == rest[i];
        assert IdOf(entries[0]) != IdOf(entries[k + 1]);
      }
    }
  }

  lemma {:induction false} KeepTwice(entries: seq<Entry>, a: seq<string>, b: seq<string>)
    ensures Keep(Keep(entries, a), b) == Keep(entries, a + b)
  {
    if entries != [] {
      KeepTwice(entries[1..], a, b);
      var rest := Keep(entries[1..], a);
      assert ([entries[0]] + rest)[1..] == rest;
    }
  }

  lemma SameId(entries: seq<Entry>, a: Entry, b: Entry)
    requires Keyed(entries) && a in entries && b in entries && a.id == b.id
    ensures a == b
  {
    var i, j :| 0 <= i < |entries| && 0 <= j < |entries| && entries[i] == a && entries[j] == b;
    assert IdOf(entries[i]) == IdOf(entries[j]);
  }

  // ---------------------------------------------------------------- counting

  lemma {:induction false} WithoutAbsent(entries: seq<Entry>, id: string)
    requires !HasId(entries, id)
    ensures Without(entries, id) == entries
  {
    if entries != [] {
      assert entries[0].id != id;
      forall i | 0 <= i < |entries[1..]| ensures entries[1..][i].id != id {
        assert entries[1..][i] == entries[i + 1];
      }
      WithoutAbsent(entries[1..], id);
    }
  }

  lemma {:induction false} WithoutOne(entries: seq<Entry>, id: string)
    requires Keyed(entries) && HasId(entries, id)
    ensures |Without(entries, id)| == |entries| - 1
  {
    var i :| 0 <= i < |entries| && entries[i].id == id;
    if i == 0 {
      forall k | 0 <= k < |entries[1..]| ensures entries[1..][k].id != id {
        assert IdOf(entries[0]) != IdOf(entries[k + 1]);
      }
      WithoutAbsent(entries[1..], id);
    } else {
      assert IdOf(entries[0]) != IdOf(entries[i]);
      assert entries[1..][i - 1] == entries[i];
      assert Keyed(entries[1..]) by {
        forall a, b | 0 <= a < b < |entries[1..]| ensures IdOf(entries[1..][a]) != IdOf(entries[1..][b]) {
          assert IdOf(entries[a + 1]) != IdOf(entries[b + 1]);
        }
      }
      WithoutOne(entries[1..], id);
    }
  }

  lemma {:induction false} KeepCounts(entries: seq<Entry>, dropped: seq<string>)
    requires Keyed(entries) && NoRepeat(dropped)
    requires forall i :: 0 <= i < |dropped| ==> HasId(entries, dropped[i])
    ensures |Keep(entries, dropped)| == |entries| - |dropped|
  {
    if dropped == [] {
      KeepAll(entries, dropped);
    } else {
      var n := |dropped| - 1;
      var rest := dropped[..n];
      KeepCounts(entries, rest);
      assert rest + [dropped[n]] == dropped;
      KeepOneLess(entries, rest, dropped[n]);
      KeepStaysKeyed(entries, rest);
      var i :| 0 <= i < |entries| && entries[i].id == dropped[n];
      KeepMembers(entries, rest, entries[i]);
      var k :| 0 <= k < |Keep(entries, rest)| && Keep(entries, rest)[k] == entries[i];
      assert HasId(Keep(entries, rest), dropped[n]);
      WithoutOne(Keep(entries, rest), dropped[n]);
    }
  }

  // ---------------------------------------------------------------- the two reasons to drop a session

  lemma ExpiredExactly(entries: seq<Entry>, deadline: int, e: Entry)
    requires Keyed(entries) && e in entries
    ensures e.id in Expired(entries, deadline) <==> e.session.lastActiveAt < deadline
    ensures e in Keep(entries, Expired(entries, deadline)) <==> e.session.lastActiveAt >= deadline
  {
    ExpiredMembers(entries, deadline, e.id);
    KeepMembers(entries, Expired(entries, deadline), e);
    var k :| 0 <= k < |entries| && entries[k] == e;
    if e.id in Expired(entries, deadline) {
      var i :| 0 <= i < |entries| && entries[i].id == e.id && entries[i].session.lastActiveAt < deadline;
      SameId(entries, entries[i], e);
    }
  }

  /** An active entry is trimmed exactly when it stands beyond the limit in the order of recency. */
  lemma TrimmedExactly(active: seq<Entry>, limit: int, e: Entry)
    requires Keyed(active) && e in active
    ensures
      var sorted := Sort(active, Recency);
      e.id in BeyondLimit(active, limit) <==> 0 < limit < |active| && e in sorted[limit..]
  {
    var sorted := Sort(active, Recency);
    if 0 < limit < |active| && e.id in BeyondLimit(active, limit) {
      var tail := sorted[limit..];
      var i :| 0 <= i < |tail| && tail[i].id == e.id;
      SameElements(active, Recency, sorted[limit + i]);
      SameId(active, tail[i], e);
    }
    if 0 < limit < |active| && e in sorted[limit..] {
      var i :| 0 <= i < |sorted[limit..]| && sorted[limit..][i] == e;
      assert BeyondLimit(active, limit)[i] == e.id;
    }
  }

  lemma TrimmedFacts(active: seq<Entry>, limit: int)
    requires Keyed(active)
    ensures NoRepeat(BeyondLimit(active, limit))
    ensures forall i :: 0 <= i < |BeyondLimit(active, limit)| ==> HasId(active, BeyondLimit(active, limit)[i])
  {
    var sorted := Sort(active, Recency);
    SortKeepsDistinct(active, Recency, IdOf);
    var trimmed := BeyondLimit(active, limit);
    forall i | 0 <= i < |trimmed| ensures HasId(active, trimmed[i]) {
      SameElements(active, Recency, sorted[limit + i]);
      var k :| 0 <= k < |active| && active[k] == sorted[limit + i];
    }
    forall i, j | 0 <= i < j < |trimmed| ensures trimmed[i] != trimmed[j] {
      assert IdOf(sorted[limit + i]) != IdOf(sorted[limit + j]);
    }
  }

  /** Each kept entry is at least as recent as each trimmed one. */
  lemma KeptIsMoreRecent(active: seq<Entry>, limit: int, kept: Entry, gone: Entry)
    requires Keyed(active) && kept in active && gone in active
    requires kept.id !in BeyondLimit(active, limit) && gone.id in BeyondLimit(active, limit)
    ensures kept.session.lastActiveAt >= gone.session.lastActiveAt
  {
    var sorted := Sort(active, Recency);
    TrimmedExactly(active, limit, kept);
    TrimmedExactly(active, limit, gone);
    SameElements(active, Recency, kept);
    SortFacts(active, Recency);
    var i :| 0 <= i < |sorted| && sorted[i] == kept;
    var j :| 0 <= j < |sorted[limit..]| && sorted[limit..][j] == gone;
    forall k | limit <= k < |sorted| ensures sorted[k] in sorted[limit..] {
      assert sorted[limit..][k - limit] == sorted[k];
    }
    assert Recency(sorted[i]) <= Recency(sorted[limit + j]);
  }

  // ---------------------------------------------------------------- the plan as a whole

  /** Kept, expired and trimmed part the sessions; kept entries keep their place and their content. */
  lemma PlanParts(entries: seq<Entry>, messageIds: seq<string>, deadline: int, limit: int, e: Entry)
    requires Keyed(entries) && e in entries
    ensures
      var p := CleanupPlan(entries, messageIds, deadline, limit);
      && p.sessions == Keep(entries, p.expired + p.trimmed)
      && (e in p.sessions <==> e.id !in p.expired && e.id !in p.trimmed)
      && (e.id in p.expired <==> e.session.lastActiveAt < deadline)
      && !(e.id in p.expired && e.id in p.trimmed)
  {
    var p := CleanupPlan(entries, messageIds, deadline, limit);
    KeepMembers(entries, p.expired + p.trimmed, e);
    ExpiredExactly(entries, deadline, e);
    var active := Keep(entries, p.expired);
    KeepStaysKeyed(entries, p.expired);
    if e.id in p.trimmed {
      TrimmedFacts(active, limit);
      var i :| 0 <= i < |p.trimmed| && p.trimmed[i] == e.id;
      var k :| 0 <= k < |active| && active[k].id == p.trimmed[i];
      KeepMembers(entries, p.expired, active[k]);
      SameId(entries, active[k], e);
    }
  }

  /** A positive limit bounds the sessions kept, and no more are trimmed than it asks for. */
  lemma PlanMeetsLimit(entries: seq<Entry>, messageIds: seq<string>, deadline: int, limit: int)
    requires Keyed(entries)
    ensures
      var p := CleanupPlan(entries, messageIds, deadline, limit);
      var active := |Keep(entries, p.expired)|;
      |p.sessions| == (if 0 < limit < active then limit else active) && |p.trimmed| == active - |p.sessions|
  {
    var p := CleanupPlan(entries, messageIds, deadline, limit);
    var active := Keep(entries, p.expired);
    KeepStaysKeyed(entries, p.expired);
    TrimmedFacts(active, limit);
    KeepCounts(active, p.trimmed);
    KeepTwice(entries, p.expired, p.trimmed);
  }

  lemma PlanKeepsTheRecent(
      entries: seq<Entry>, messageIds: seq<string>, deadline: int, limit: int, kept: Entry, gone: Entry)
    requires Keyed(entries) && kept in CleanupPlan(entries, messageIds, deadline, limit).sessions
    requires gone in entries && gone !in CleanupPlan(entries, messageIds, deadline, limit).sessions
    ensures kept.session.lastActiveAt >= gone.session.lastActiveAt
  {
    var p := CleanupPlan(entries, messageIds, deadline, limit);
    KeepMembers(entries, p.expired + p.trimmed, kept);
    PlanParts(entries, messageIds, deadline, limit, kept);
    PlanParts(entries, messageIds, deadline, limit, gone);
    if gone.id in p.trimmed {
      var active := Keep(entries, p.expired);
      KeepStaysKeyed(entries, p.expired);
      KeepMembers(entries, p.expired, kept);
      KeepMembers(entries, p.expired, gone);
      KeptIsMoreRecent(active, limit, kept, gone);
    }
  }

  /** The histories to drop are those of the ids without a kept session. */
  lemma {:induction false} OrphanedExactly(messageIds: seq<string>, entries: seq<Entry>, id: string)
    ensures id in Orphaned(messageIds, entries) <==> id in messageIds && !HasId(entries, id)
  {
    if messageIds != [] {
      OrphanedExactly(messageIds[1..], entries, id);
      assert messageIds == [messageIds[0]] + messageIds[1..];
    }
  }

  /** A plan drops exactly the histories without a kept session, and reports a change exactly if it drops a session or a history. */
  lemma PlanReportsChange(entries: seq<Entry>, messageIds: seq<string>, deadline: int, limit: int)
    requires Keyed(entries)
    ensures
      var p := CleanupPlan(entries, messageIds, deadline, limit);
      && (forall id :: id in p.orphaned <==> id in messageIds && !HasId(p.sessions, id))
      && (p.changed <==> p.sessions != entries || exists id :: id in messageIds && !HasId(p.sessions, id))
  {
    var p := CleanupPlan(entries, messageIds, deadline, limit);
    var dropped := p.expired + p.trimmed;
    if dropped == [] {
      KeepAll(entries, dropped);
    } else {
      DroppedIsPresent(entries, deadline, limit, dropped[0]);
      var e :| e in entries && e.id == dropped[0];
      KeepMembers(entries, dropped, e);
    }
    forall id ensures id in p.orphaned <==> id in messageIds && !HasId(p.sessions, id) {
      OrphanedExactly(messageIds, p.sessions, id);
    }
    if p.orphaned != [] {
      assert p.orphaned[0] in p.orphaned;
    }
  }

  lemma DroppedIsPresent(entries: seq<Entry>, deadline: int, limit: int, id: string)
    requires Keyed(entries)
    requires id in Expired(entries, deadline) || id in BeyondLimit(Keep(entries, Expired(entries, deadline)), limit)
    ensures exists e :: e in entries && e.id == id
  {
    var expired := Expired(entries, deadline);
    if id in expired {
      ExpiredMembers(entries, deadline, id);
    } else {
      var active := Keep(entries, expired);
      var trimmed := BeyondLimit(active, limit);
      KeepStaysKeyed(entries, expired);
      TrimmedFacts(active, limit);
      var i :| 0 <= i < |trimmed| && trimmed[i] == id;
      var k :| 0 <= k < |active| && active[k].id == trimmed[i];
      KeepMembers(entries, expired, active[k]);
    }
  }

  /** A plan for what a plan left behind changes nothing. */
  lemma ReplanChangesNothing(
      entries: seq<Entry>, messageIds: seq<string>, remaining: seq<string>, deadline: int, limit: int)
    requires Keyed(entries)
    requires
      var p := CleanupPlan(entries, messageIds, deadline, limit);
      forall id :: id in remaining ==> id in messageIds && id !in p.orphaned
    ensures
      var p := CleanupPlan(entries, messageIds, deadline, limit);
      CleanupPlan(p.sessions, remaining, deadline, limit) == Plan(p.sessions, [], [], [], false)
  {
    var p := CleanupPlan(entries, messageIds, deadline, limit);
    NothingExpired(entries, p.expired + p.trimmed, deadline);
    PlanMeetsLimit(entries, messageIds, deadline, limit);
    KeepAll(p.sessions, []);
    assert Expired(p.sessions, deadline) == [] && BeyondLimit(p.sessions, limit) == [];
    var none: seq<string> := [];
    assert none + none == none;
    var orphaned := Orphaned(remaining, p.sessions);
    if orphaned != [] {
      OrphanedExactly(remaining, p.sessions, orphaned[0]);
      OrphanedExactly(messageIds, p.sessions, orphaned[0]);
    }
  }

  lemma NothingExpired(entries: seq<Entry>, dropped: seq<string>, deadline: int)
    requires forall id :: id in Expired(entries, deadline) ==> id in dropped
    ensures Expired(Keep(entries, dropped), deadline) == []
  {
    var kept := Keep(entries, dropped);
    forall i | 0 <= i < |kept| ensures kept[i].session.lastActiveAt >= deadline {
      KeepMembers(entries, dropped, kept[i]);
      ExpiredMembers(entries, deadline, kept[i].id);
      var k :| 0 <= k < |entries| && entries[k] == kept[i];
    }
    var expired := Expired(kept, deadline);
    if expired != [] {
      ExpiredMembers(kept, deadline, expired[0]);
    }
  }

  // ---------------------------------------------------------------- storage

  lemma SharedOfPersisted(m: Record)
    ensures !Nested(PersistedMetadata(m))
    ensures RecordOrEmpty(PersistedMetadata(m), SHARED) == PersistedShared(m)
  {
    assert METADATA != SHARED by { assert METADATA[0] != SHARED[0]; }
  }

  lemma PersistedSections(m: Record)
    ensures Section(PersistedMetadata(m), "model") == PersistedModel(m)
    ensures Section(PersistedMetadata(m), "stream") == PersistedStream(m)
    ensures Section(PersistedMetadata(m), "invoke") == PersistedInvoke(m)
  {
    SharedOfPersisted(m);
    assert "model" != "stream" && "stream" != "invoke" && "invoke" != "model" by {
      assert "model"[0] != "stream"[0] && "stream"[0] != "invoke"[0] && "invoke"[0] != "model"[0];
    }
  }

  /** A value that is packed is read back. */
  lemma PackedStreamIsRead(identity: StreamIdentity)
    requires identity == NormalIdentity(identity)
    ensures
      var stream := if Packed(StreamSection(map[], identity)).Some? then Some(StreamSection(map[], identity)) else None;
      StreamIdentity(PickString(stream, "threadId"), PickString(stream, "turnId")) == identity
  {
    var section := StreamSection(map[], identity);
    assert "threadId" != "turnId" by { assert "threadId"[1] != "turnId"[1]; }
    assert PickString(Some(section), "threadId") == NonBlank(identity.threadId);
    assert PickString(Some(section), "turnId") == NonBlank(identity.turnId);
  }

  lemma ReadIdentityIsNormal(m: Record)
    ensures ReadStreamIdentity(m) == NormalIdentity(ReadStreamIdentity(m))
  {
    var stream := SharedSection(m, "stream");
    PickedIsNormal(stream, "threadId");
    PickedIsNormal(stream, "turnId");
  }

  lemma PickedIsNormal(r: Option<Record>, key: string)
    ensures NonBlank(PickString(r, key)) == PickString(r, key)
  {
    if r.Some? && key in r.value && r.value[key].Str? {
      NonBlankTwice(Some(r.value[key].s));
    }
  }

  /** Storage keeps the model section, the stream identity and the invoke bindings as their readers see them. */
  lemma StorageKeepsWhatIsRead(m: Record)
    ensures SharedSection(PersistedMetadata(m), "model") == SharedSection(m, "model")
    ensures ReadStreamIdentity(PersistedMetadata(m)) == ReadStreamIdentity(m)
    ensures ReadBindings(PersistedMetadata(m)) == ReadBindings(m)
  {
    var p := PersistedMetadata(m);
    SharedOfPersisted(m);
    PersistedSections(m);
    ReadIdentityIsNormal(m);
    PackedStreamIsRead(ReadStreamIdentity(m));
    StoredBindings(m);
  }

  lemma SectionAsRecord(p: Record, name: string, bindings: map<string, string>)
    requires
      Section(p, name) == if bindings == map[] then None else Some(Rec(map["bindings" := Rec(AsRecord(bindings))]))
    ensures RecordOrEmpty(SectionRecord(p, name).GetOr(map[]), "bindings") == AsRecord(bindings)
  {
  }

  lemma StoredBindings(m: Record)
    ensures ReadBindings(PersistedMetadata(m)) == ReadBindings(m)
  {
    var bindings := ReadBindings(m);
    PersistedSections(m);
    ReadBindingsAreTrimmed(m);
    ReadableAsWritten(bindings);
    SectionAsRecord(PersistedMetadata(m), "invoke", bindings);
  }

  lemma ReadBindingsAreTrimmed(m: Record)
    ensures forall key :: key in ReadBindings(m) ==> Canonical(ReadBindings(m)[key])
  {
    var bindings := RecordOrEmpty(SectionRecord(m, "invoke").GetOr(map[]), "bindings");
    forall key | key in ReadBindings(m) ensures Canonical(ReadBindings(m)[key]) {
      TrimIsTrimmed(bindings[key].s);
    }
  }

  /** Nothing else of the metadata is stored, and no empty record. */
  lemma OnlyThreeSectionsStored(m: Record, name: string)
    ensures PersistedMetadata(m).Keys <= {"shared"}
    ensures PersistedMetadata(m) != map[] <==> PersistedShared(m) != map[]
    ensures Section(PersistedMetadata(m), name).Some? ==>
      name in {"model", "stream", "invoke"} && (name != "model" ==> Section(PersistedMetadata(m), name) != Some(Rec(map[])))
  {
    SharedOfPersisted(m);
    PersistedSections(m);
    assert "bindings" in map["bindings" := Rec(AsRecord(ReadBindings(m)))];
    assert Section(PersistedMetadata(m), name) == Get(PersistedShared(m), name);
  }

  /**
   * A stored session keeps its agent, its two times and its working directory; of the run nothing is
   * left, so that it is one from which a conversation can begin.
   */
  lemma StoredSessionIsAtRest(s: AgentSession)
    ensures
      var p := ForStorage(s);
      && p.chat.agentId == s.chat.agentId && p.lastActiveAt == s.lastActiveAt
      && p.createdAt == (if s.createdAt.Some? then s.createdAt else Some(s.lastActiveAt))
      && p.workingDirectory == NonBlank(s.workingDirectory)
      && p.source.None? && p.upstreamTaskId.None? && p.externalSessionRef.None?
      && ChatRuns.Restored(Some(p.chat)) && Sessions.QueueOk(p.chat)
      && Sessions.Queue(p.chat) == [] && p.chat.lastStreamError.None? && p.chat.lastResolved.None?
      && p.chat.runtimeStatus.None? && p.chat.lastUserMessageId.None? && p.chat.lastAgentMessageId.None?
  {
  }

  lemma PersistedMetadataTwice(m: Record)
    ensures PersistedMetadata(PersistedMetadata(m)) == PersistedMetadata(m)
  {
    StorageKeepsWhatIsRead(m);
  }

  lemma ForStorageTwice(s: AgentSession)
    ensures ForStorage(ForStorage(s)) == ForStorage(s)
  {
    PersistedMetadataTwice(s.metadata);
    NonBlankTwice(s.workingDirectory);
  }

  lemma StoredTwice(entries: seq<Entry>)
    ensures Stored(Stored(entries)) == Stored(entries)
  {
    forall i | 0 <= i < |entries| ensures Stored(Stored(entries))[i] == Stored(entries)[i] {
      ForStorageTwice(entries[i].session);
    }
  }

  lemma MostRecentIsSorted(entries: seq<Entry>, limit: int)
    ensures Sorted(MostRecent(entries, limit), Recency)
    ensures |MostRecent(entries, limit)| == if limit <= 0 then 0 else if limit < |entries| then limit else |entries|
  {
    SortFacts(entries, Recency);
  }

  lemma StoredIsSorted(entries: seq<Entry>)
    requires Sorted(entries, Recency)
    ensures Sorted(Stored(entries), Recency)
  {
    var p := Stored(entries);
    forall i, j | 0 <= i < j < |p| ensures Recency(p[i]) <= Recency(p[j]) {
      assert Recency(entries[i]) <= Recency(entries[j]);
    }
  }

  lemma PersistTwice(entries: seq<Entry>, maxPersisted: int)
    ensures
      PersistedSessions(PersistedSessions(entries, maxPersisted), maxPersisted) == PersistedSessions(entries, maxPersisted)
  {
    var recent := MostRecent(entries, maxPersisted);
    MostRecentIsSorted(entries, maxPersisted);
    StoredIsSorted(recent);
    SortFixesSorted(Stored(recent), Recency);
    assert MostRecent(Stored(recent), maxPersisted) == Stored(recent);
    StoredTwice(recent);
  }

  lemma MostRecentMember(entries: seq<Entry>, limit: int, e: Entry)
    requires e in MostRecent(entries, limit)
    ensures e in entries
  {
    var sorted := Sort(entries, Recency);
    var i :| 0 <= i < |MostRecent(entries, limit)| && MostRecent(entries, limit)[i] == e;
    assert sorted[i] == e;
    SameElements(entries, Recency, e);
  }

  /** The list for storage: a limit that is not positive admits none, and whatever is written is an entry in its storage form. */
  lemma PersistedExactly(entries: seq<Entry>, maxPersisted: int)
    ensures
      |PersistedSessions(entries, maxPersisted)|
      == if maxPersisted <= 0 then 0 else if maxPersisted < |entries| then maxPersisted else |entries|
    ensures forall i :: 0 <= i < |PersistedSessions(entries, maxPersisted)| ==>
      exists e :: e in entries && PersistedSessions(entries, maxPersisted)[i] == Entry(e.id, ForStorage(e.session))
  {
    var recent := MostRecent(entries, maxPersisted);
    MostRecentIsSorted(entries, maxPersisted);
    forall i | 0 <= i < |recent|
      ensures exists e :: e in entries && Stored(recent)[i] == Entry(e.id, ForStorage(e.session))
    {
      MostRecentMember(entries, maxPersisted, recent[i]);
    }
  }

  lemma LessRecent(entries: seq<Entry>, limit: int, kept: Entry, gone: Entry)
    requires kept in MostRecent(entries, limit) && gone in entries && gone !in MostRecent(entries, limit)
    ensures kept.session.lastActiveAt >= gone.session.lastActiveAt
  {
    var sorted, recent := Sort(entries, Recency), MostRecent(entries, limit);
    SameElements(entries, Recency, gone);
    SortFacts(entries, Recency);
    var i :| 0 <= i < |recent| && recent[i] == kept;
    var j :| 0 <= j < |sorted| && sorted[j] == gone;
    assert forall k :: 0 <= k < |recent| ==> recent[k] == sorted[k] && recent[k] in recent;
    assert i < |recent| <= j;
    assert Recency(sorted[i]) <= Recency(sorted[j]);
  }

  /** As many sessions are written as the limit admits, and none that is left out is more recent than one written. */
  lemma PersistKeepsTheRecent(entries: seq<Entry>, maxPersisted: int, i: nat, gone: Entry)
    requires i < |PersistedSessions(entries, maxPersisted)|
    requires gone in entries && Entry(gone.id, ForStorage(gone.session)) !in PersistedSessions(entries, maxPersisted)
    ensures |PersistedSessions(entries, maxPersisted)| == maxPersisted < |entries|
    ensures
      var written := PersistedSessions(entries, maxPersisted)[i];
      exists e :: e in entries && written == Entry(e.id, ForStorage(e.session))
                  && e.session.lastActiveAt >= gone.session.lastActiveAt
  {
    var recent := MostRecent(entries, maxPersisted);
    MostRecentIsSorted(entries, maxPersisted);
    MostRecentMember(entries, maxPersisted, recent[i]);
    forall k | 0 <= k < |recent| ensures recent[k] != gone {
      assert Stored(recent)[k] in PersistedSessions(entries, maxPersisted);
    }
    LessRecent(entries, maxPersisted, recent[i], gone);
    if |entries| <= maxPersisted {
      SameElements(entries, Recency, gone);
    }
  }
}
