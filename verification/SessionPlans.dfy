/**
 * Which sessions are kept in memory and which are written to storage (frontend/lib/chat-utils.ts).
 * The record of sessions is a list of entries in the order of `Object.entries`.
 */
module SessionPlans {
  import opened Prelude
  import opened Text
  import opened StableSort
  import opened Metadata
  import MetadataLenses
  import Sessions

  datatype ExternalSessionRef = ExternalSessionRef(provider: Option<string>, externalSessionId: Option<string>)

  datatype AgentSession = AgentSession(
    chat: Sessions.Session,
    createdAt: Option<int>,
    lastActiveAt: int,
    source: Option<string>,
    inputModes: seq<string>,
    outputModes: seq<string>,
    upstreamTaskId: Option<string>,
    metadata: Record,
    workingDirectory: Option<string>,
    externalSessionRef: Option<ExternalSessionRef>)

  datatype Entry = Entry(id: string, session: AgentSession)

  function IdOf(e: Entry): string {
    e.id
  }

  /** The most recently active entry sorts first. */
  function Recency(e: Entry): int {
    -e.session.lastActiveAt
  }

  ghost predicate Keyed(entries: seq<Entry>) {
    Distinct(entries, IdOf)
  }

  predicate HasId(entries: seq<Entry>, id: string) {
    exists i :: 0 <= i < |entries| && entries[i].id == id
  }

  /** `delete record[id]`. */
  function Without(entries: seq<Entry>, id: string): seq<Entry> {
    if entries == [] then []
    else if entries[0].id == id then Without(entries[1..], id)
    else [entries[0]] + Without(entries[1..], id)
  }

  function Ids(entries: seq<Entry>): (r: seq<string>)
    ensures |r| == |entries|
    ensures forall i :: 0 <= i < |r| ==> r[i] == entries[i].id
  {
    seq(|entries|, i requires 0 <= i < |entries| => entries[i].id)
  }

  // ---------------------------------------------------------------- the cleanup plan

  const CHAT_SESSION_TTL_MS := 14 * 24 * 60 * 60 * 1000

  datatype Plan = Plan(
    sessions: seq<Entry>,
    expired: seq<string>,
    trimmed: seq<string>,
    orphaned: seq<string>,
    changed: bool)

  function Expired(entries: seq<Entry>, deadline: int): seq<string> {
    if entries == [] then []
    else if entries[0].session.lastActiveAt < deadline then [entries[0].id] + Expired(entries[1..], deadline)
    else Expired(entries[1..], deadline)
  }

  /** The entries that remain when all these ids are deleted. */
  function Keep(entries: seq<Entry>, dropped: seq<string>): seq<Entry> {
    if entries == [] then []
    else if entries[0].id in dropped then Keep(entries[1..], dropped)
    else [entries[0]] + Keep(entries[1..], dropped)
  }

  /** The ids beyond the limit, the least recently active ones. */
  function BeyondLimit(active: seq<Entry>, limit: int): seq<string> {
    if 0 < limit < |active| then Ids(Sort(active, Recency)[limit..]) else []
  }

  function Orphaned(messageIds: seq<string>, entries: seq<Entry>): seq<string> {
    if messageIds == [] then []
    else if HasId(entries, messageIds[0]) then Orphaned(messageIds[1..], entries)
    else [messageIds[0]] + Orphaned(messageIds[1..], entries)
  }

  function CleanupPlan(entries: seq<Entry>, messageIds: seq<string>, deadline: int, limit: int): Plan {
    var expired := Expired(entries, deadline);
    var trimmed := BeyondLimit(Keep(entries, expired), limit);
    var kept := Keep(entries, expired + trimmed);
    var orphaned := Orphaned(messageIds, kept);
    Plan(kept, expired, trimmed, orphaned, expired != [] || trimmed != [] || orphaned != [])
  }

  lemma {:induction false} KeepOneLess(entries: seq<Entry>, dropped: seq<string>, id: string)
    ensures Without(Keep(entries, dropped), id) == Keep(entries, dropped + [id])
  {
    if entries != [] {
      KeepOneLess(entries[1..], dropped, id);
      var rest := Keep(entries[1..], dropped);
      assert ([entries[0]] + rest)[1..] == rest;
    }
  }

  lemma {:induction false} KeepAll(entries: seq<Entry>, dropped: seq<string>)
    requires forall i :: 0 <= i < |entries| ==> entries[i].id !in dropped
    ensures Keep(entries, dropped) == entries
  {
    if entries != [] {
      KeepAll(entries[1..], dropped);
      assert entries == [entries[0]] + entries[1..];
    }
  }

  lemma {:induction false} ExpiredSplit(entries: seq<Entry>, deadline: int, i: nat)
    requires i < |entries|
    ensures
      Expired(entries[..i + 1], deadline)
      == Expired(entries[..i], deadline) + (if entries[i].session.lastActiveAt < deadline then [entries[i].id] else [])
  {
    if i == 0 {
      assert entries[..1] == [entries[0]] && entries[..0] == [];
    } else {
      ExpiredSplit(entries[1..], deadline, i - 1);
      assert entries[..i + 1][1..] == entries[1..][..i] && entries[..i][1..] == entries[1..][..i - 1];
    }
  }

  /** The first loop: deletes the expired sessions from the copy. */
  method DropExpired(sessions: seq<Entry>, deadline: int) returns (nextSessions: seq<Entry>, expired: seq<string>)
    ensures expired == Expired(sessions, deadline) && nextSessions == Keep(sessions, expired)
  {
    nextSessions, expired := sessions, [];
    KeepAll(sessions, []);
    for i := 0 to |sessions|
      invariant expired == Expired(sessions[..i], deadline)
      invariant nextSessions == Keep(sessions, expired)
    {
      ExpiredSplit(sessions, deadline, i);
      if sessions[i].session.lastActiveAt < deadline {
        KeepOneLess(sessions, expired, sessions[i].id);
        nextSessions := Without(nextSessions, sessions[i].id);
        expired := expired + [sessions[i].id];
      }
    }
    assert sessions[..|sessions|] == sessions;
  }

  /** The second loop: deletes the active sessions beyond the limit. */
  method DropBeyondLimit(sessions: seq<Entry>, expired: seq<string>, maxActiveSessions: int)
    returns (nextSessions: seq<Entry>, trimmed: seq<string>)
    ensures trimmed == BeyondLimit(Keep(sessions, expired), maxActiveSessions)
    ensures nextSessions == Keep(sessions, expired + trimmed)
  {
    nextSessions, trimmed := Keep(sessions, expired), [];
    assert expired + [] == expired;
    var activeEntries := Sort(nextSessions, Recency);
    if maxActiveSessions <= 0 || |activeEntries| <= maxActiveSessions {
      return;
    }
    for i := maxActiveSessions to |activeEntries|
      invariant trimmed == Ids(activeEntries[maxActiveSessions..i])
      invariant nextSessions == Keep(sessions, expired + trimmed)
    {
      KeepOneLess(sessions, expired + trimmed, activeEntries[i].id);
      assert expired + trimmed + [activeEntries[i].id] == expired + (trimmed + [activeEntries[i].id]);
      nextSessions := Without(nextSessions, activeEntries[i].id);
      trimmed := trimmed + [activeEntries[i].id];
    }
    assert activeEntries[maxActiveSessions..|activeEntries|] == activeEntries[maxActiveSessions..];
  }

  /** The plan is computed by deleting from a copy of the record and pushing onto the lists of ids; sessions live 14 days. */
  method BuildSessionCleanupPlan(sessions: seq<Entry>, messageIds: seq<string>, now: int, maxActiveSessions: int)
    returns (plan: Plan)
    ensures plan == CleanupPlan(sessions, messageIds, now - 1_209_600_000, maxActiveSessions)
  {
    var activeSessions, expired := DropExpired(sessions, now - CHAT_SESSION_TTL_MS);
    var nextSessions, trimmed := DropBeyondLimit(sessions, expired, maxActiveSessions);
    var orphaned := Orphaned(messageIds, nextSessions);
    plan := Plan(nextSessions, expired, trimmed, orphaned, expired != [] || trimmed != [] || orphaned != []);
  }

  // ---------------------------------------------------------------- what is written to storage

  /** `pickSharedMetadataSections(metadata, ["model"])` as the value of one section. */
  function PersistedModel(metadata: Record): Option<Json> {
    var model := SharedSection(metadata, "model");
    if model.Some? then Some(Rec(model.value)) else None
  }

  function PersistedStream(metadata: Record): Option<Json> {
    var identity := ReadStreamIdentity(metadata);
    Packed(StreamSection(map[], identity))
  }

  function PersistedInvoke(metadata: Record): Option<Json> {
    var bindings := ReadBindings(metadata);
    if bindings == map[] then None else Some(Rec(map["bindings" := Rec(AsRecord(bindings))]))
  }

  function PersistedShared(metadata: Record): Record {
    Set(Set(Set(map[], "model", PersistedModel(metadata)), "stream", PersistedStream(metadata)),
        "invoke", PersistedInvoke(metadata))
  }

  function PersistedMetadata(metadata: Record): Record {
    Set(map[], SHARED, Packed(PersistedShared(metadata)))
  }

  function ForStorage(s: AgentSession): AgentSession {
    AgentSession(
      Sessions.CreateAgentSession(s.chat.agentId),
      Some(s.createdAt.GetOr(s.lastActiveAt)),
      s.lastActiveAt,
      None, ["text/plain"], ["text/plain"], None,
      PersistedMetadata(s.metadata),
      NonBlank(s.workingDirectory),
      None)
  }

  function Stored(entries: seq<Entry>): (r: seq<Entry>)
    ensures |r| == |entries|
    ensures forall i :: 0 <= i < |r| ==> r[i] == Entry(entries[i].id, ForStorage(entries[i].session))
  {
    seq(|entries|, i requires 0 <= i < |entries| => Entry(entries[i].id, ForStorage(entries[i].session)))
  }

  /** At most this many entries, the most recently active first. */
  function MostRecent(entries: seq<Entry>, limit: int): seq<Entry> {
    if limit <= 0 then []
    else
      var sorted := Sort(entries, Recency);
      if limit < |sorted| then sorted[..limit] else sorted
  }

  function PersistedSessions(entries: seq<Entry>, maxPersisted: int): seq<Entry> {
    Stored(MostRecent(entries, maxPersisted))
  }
}
