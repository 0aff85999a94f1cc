/**
 * The sections that the client keeps under `shared` in a metadata record
 * (frontend/lib/sharedMetadata.ts, frontend/lib/invokeMetadata.ts, frontend/lib/chat-utils.ts).
 */
module Metadata {
  import opened Prelude
  import opened Text

  datatype Json = Null | Bool(b: bool) | Num(n: int) | Str(s: string) | Arr(items: seq<Json>) | Rec(fields: map<string, Json>)

  type Record = map<string, Json>

  function Get(r: Record, key: string): Option<Json> {
    if key in r then Some(r[key]) else None
  }

  /** The record under a key; None when there is no value or another kind of value. */
  function RecordAt(r: Record, key: string): Option<Record> {
    if key in r && r[key].Rec? then Some(r[key].fields) else None
  }

  function RecordOrEmpty(r: Record, key: string): Record {
    RecordAt(r, key).GetOr(map[])
  }

  /** A value put at a key, or the key deleted. */
  function Set(r: Record, key: string, value: Option<Json>): Record {
    if value.Some? then r[key := value.value] else r - {key}
  }

  /** A record as a value, and no value when it is empty. */
  function Packed(r: Record): Option<Json> {
    if r == map[] then None else Some(Rec(r))
  }

  function PickString(r: Option<Record>, key: string): Option<string> {
    if r.Some? && key in r.value && r.value[key].Str? then NonBlank(Some(r.value[key].s)) else None
  }

  function AsJson(s: Option<string>): Option<Json> {
    if s.Some? then Some(Str(s.value)) else None
  }

  // ---------------------------------------------------------------- one section under `shared`

  const SHARED := "shared"
  const METADATA := "metadata"

  function Section(metadata: Record, name: string): Option<Json> {
    Get(RecordOrEmpty(metadata, SHARED), name)
  }

  function SectionRecord(metadata: Record, name: string): Option<Record> {
    RecordAt(RecordOrEmpty(metadata, SHARED), name)
  }

  /** The metadata with one section replaced or removed; an empty `shared` goes with it. */
  function WithSection(metadata: Record, name: string, section: Option<Json>): Record {
    Set(metadata, SHARED, Packed(Set(RecordOrEmpty(metadata, SHARED), name, section)))
  }

  /** A payload that holds a `metadata` record is read through that record. */
  predicate Nested(metadata: Record) {
    RecordAt(metadata, METADATA).Some?
  }

  function Effective(metadata: Record): Record {
    RecordAt(metadata, METADATA).GetOr(metadata)
  }

  function SharedSection(metadata: Record, name: string): Option<Record> {
    SectionRecord(Effective(metadata), name)
  }

  // ---------------------------------------------------------------- stream identity

  datatype StreamIdentity = StreamIdentity(threadId: Option<string>, turnId: Option<string>)

  function ReadStreamIdentity(metadata: Record): StreamIdentity {
    var stream := SharedSection(metadata, "stream");
    StreamIdentity(PickString(stream, "threadId"), PickString(stream, "turnId"))
  }

  function StreamSection(current: Record, identity: StreamIdentity): Record {
    Set(Set(current, "threadId", AsJson(NonBlank(identity.threadId))), "turnId", AsJson(NonBlank(identity.turnId)))
  }

  function PutStream(metadata: Record, identity: StreamIdentity): Record {
    var current := SectionRecord(metadata, "stream").GetOr(map[]);
    WithSection(metadata, "stream", Packed(StreamSection(current, identity)))
  }

  function NormalIdentity(identity: StreamIdentity): StreamIdentity {
    StreamIdentity(NonBlank(identity.threadId), NonBlank(identity.turnId))
  }

  // ---------------------------------------------------------------- session binding

  datatype SessionBinding = SessionBinding(provider: Option<string>, externalSessionId: Option<string>)

  function ReadSessionBinding(metadata: Record): SessionBinding {
    var session := SharedSection(metadata, "session");
    SessionBinding(PickString(session, "provider"), PickString(session, "id"))
  }

  function BindingSection(binding: SessionBinding): Record {
    Set(Set(map[], "id", AsJson(NonBlank(binding.externalSessionId))), "provider", AsJson(NonBlank(binding.provider)))
  }

  /** The keys of an older format, which every write of the binding removes. */
  const LEGACY_KEYS := {"externalSessionId", "provider"}

  /** The metadata without its session section, and without its stream section unless it is kept. */
  function Unbound(metadata: Record, keepSharedStream: bool): Record {
    var shared := RecordAt(metadata, SHARED);
    if shared.None? then metadata - LEGACY_KEYS
    else
      var rest := shared.value - (if keepSharedStream then {"session"} else {"session", "stream"});
      Set(metadata - LEGACY_KEYS, SHARED, Packed(rest))
  }

  function PutSession(metadata: Record, binding: SessionBinding): Record {
    WithSection(metadata - LEGACY_KEYS, "session", Packed(BindingSection(binding)))
  }

  function NormalBinding(binding: SessionBinding): SessionBinding {
    SessionBinding(NonBlank(binding.provider), NonBlank(binding.externalSessionId))
  }

  // ---------------------------------------------------------------- model selection

  datatype ModelSelection = ModelSelection(providerID: string, modelID: string)

  function ReadModel(metadata: Record): Option<ModelSelection> {
    var model := SectionRecord(metadata, "model");
    var providerID, modelID := PickString(model, "providerID"), PickString(model, "modelID");
    if providerID.Some? && modelID.Some? then Some(ModelSelection(providerID.value, modelID.value)) else None
  }

  function ModelSection(selection: ModelSelection): Json {
    Rec(map["providerID" := Str(selection.providerID), "modelID" := Str(selection.modelID)])
  }

  function PutModel(metadata: Record, selection: Option<ModelSelection>): Record {
    WithSection(metadata, "model", if selection.Some? then Some(ModelSection(selection.value)) else None)
  }

  function NormalSelection(selection: Option<ModelSelection>): Option<ModelSelection> {
    if selection.Some? && Trim(selection.value.providerID) != "" && Trim(selection.value.modelID) != "" then
      Some(ModelSelection(Trim(selection.value.providerID), Trim(selection.value.modelID)))
    else None
  }

  // ---------------------------------------------------------------- invoke bindings

  type Entries = seq<(string, string)>

  function BindingValue(value: Json): Option<string> {
    if value.Str? then NonBlank(Some(value.s)) else None
  }

  function Readable(bindings: Record): map<string, string> {
    map key | key in bindings && BindingValue(bindings[key]).Some? :: BindingValue(bindings[key]).value
  }

  function ReadBindings(metadata: Record): map<string, string> {
    var invoke := SectionRecord(metadata, "invoke").GetOr(map[]);
    Readable(RecordOrEmpty(invoke, "bindings"))
  }

  /** The reduction over the entries: a later entry with the same trimmed key overwrites. */
  function NormalEntries(entries: Entries): map<string, string> {
    if entries == [] then map[]
    else
      var before := NormalEntries(entries[..|entries| - 1]);
      var (key, value) := entries[|entries| - 1];
      if Trim(key) == "" || Trim(value) == "" then before else before[Trim(key) := Trim(value)]
  }

  function AsRecord(bindings: map<string, string>): (r: Record)
    ensures r.Keys == bindings.Keys
  {
    map key | key in bindings :: Str(bindings[key])
  }

  function InvokeSection(current: Record, bindings: map<string, string>): Record {
    Set(current, "bindings", Packed(AsRecord(bindings)))
  }

  function PutBindings(metadata: Record, entries: Entries): Record {
    var current := SectionRecord(metadata, "invoke").GetOr(map[]);
    WithSection(metadata, "invoke", Packed(InvokeSection(current, NormalEntries(entries))))
  }

  // ---------------------------------------------------------------- the writers, step by step

  /** Assigns the value, or deletes the key when `Object.keys` of the value is empty. */
  method SetOrDelete(r: Record, key: string, value: Record) returns (next: Record)
    ensures next == Set(r, key, Packed(value))
  {
    if |value| > 0 {
      next := r[key := Rec(value)];
    } else {
      next := r - {key};
    }
  }

  method WithSharedStreamIdentity(metadata: Record, identity: Option<StreamIdentity>) returns (nextMetadata: Record)
    ensures nextMetadata == PutStream(metadata, identity.GetOr(StreamIdentity(None, None)))
  {
    nextMetadata := metadata;
    var nextShared := RecordOrEmpty(nextMetadata, SHARED);
    var nextStream := RecordOrEmpty(nextShared, "stream");
    var threadId := if identity.Some? then Trim(identity.value.threadId.GetOr("")) else "";
    var turnId := if identity.Some? then Trim(identity.value.turnId.GetOr("")) else "";
    if threadId != "" {
      nextStream := nextStream["threadId" := Str(threadId)];
    } else {
      nextStream := nextStream - {"threadId"};
    }
    if turnId != "" {
      nextStream := nextStream["turnId" := Str(turnId)];
    } else {
      nextStream := nextStream - {"turnId"};
    }
    assert nextStream == StreamSection(RecordOrEmpty(nextShared, "stream"), identity.GetOr(StreamIdentity(None, None)));
    nextShared := SetOrDelete(nextShared, "stream", nextStream);
    nextMetadata := SetOrDelete(nextMetadata, SHARED, nextShared);
  }

  method WithoutSharedSessionBinding(metadata: Record, keepSharedStream: bool) returns (nextMetadata: Record)
    ensures nextMetadata == Unbound(metadata, keepSharedStream)
  {
    nextMetadata := metadata;
    if SHARED in nextMetadata && nextMetadata[SHARED].Rec? {
      var nextShared := nextMetadata[SHARED].fields;
      nextShared := nextShared - {"session"};
      if !keepSharedStream {
        nextShared := nextShared - {"stream"};
      }
      assert nextShared == metadata[SHARED].fields - (if keepSharedStream then {"session"} else {"session", "stream"});
      nextMetadata := SetOrDelete(nextMetadata, SHARED, nextShared);
    }
    nextMetadata := nextMetadata - {"externalSessionId"};
    nextMetadata := nextMetadata - {"provider"};
    assert SHARED !in LEGACY_KEYS;
    assert nextMetadata == Unbound(metadata, keepSharedStream);
  }

  lemma UnboundHasNoSession(metadata: Record)
    ensures RecordOrEmpty(Unbound(metadata, true), SHARED) == RecordOrEmpty(metadata, SHARED) - {"session"}
  {
  }

  lemma PutOnUnbound(metadata: Record, section: Option<Json>)
    ensures WithSection(Unbound(metadata, true), "session", section) == WithSection(metadata - LEGACY_KEYS, "session", section)
  {
    UnboundHasNoSession(metadata);
    var one, two := RecordOrEmpty(Unbound(metadata, true), SHARED), RecordOrEmpty(metadata - LEGACY_KEYS, SHARED);
    assert Set(one, "session", section) == Set(two, "session", section);
    var packed := Packed(Set(one, "session", section));
    assert Set(Unbound(metadata, true), SHARED, packed) == Set(metadata - LEGACY_KEYS, SHARED, packed);
  }

  method WithSharedSessionBinding(metadata: Record, binding: Option<SessionBinding>) returns (nextMetadata: Record)
    ensures nextMetadata == PutSession(metadata, binding.GetOr(SessionBinding(None, None)))
  {
    nextMetadata := WithoutSharedSessionBinding(metadata, true);
    var nextShared := RecordOrEmpty(nextMetadata, SHARED);
    var nextSession := RecordOrEmpty(nextShared, "session");
    var provider := if binding.Some? then Trim(binding.value.provider.GetOr("")) else "";
    var externalSessionId := if binding.Some? then Trim(binding.value.externalSessionId.GetOr("")) else "";
    if externalSessionId != "" {
      nextSession := nextSession["id" := Str(externalSessionId)];
    }
    if provider != "" {
      nextSession := nextSession["provider" := Str(provider)];
    }
    UnboundHasNoSession(metadata);
    assert nextSession == BindingSection(binding.GetOr(SessionBinding(None, None)));
    nextShared := SetOrDelete(nextShared, "session", nextSession);
    nextMetadata := SetOrDelete(nextMetadata, SHARED, nextShared);
    PutOnUnbound(metadata, Packed(nextSession));
  }

  method WithSharedModelSelection(metadata: Record, selection: Option<ModelSelection>) returns (nextMetadata: Record)
    ensures nextMetadata == PutModel(metadata, selection)
  {
    nextMetadata := metadata;
    var nextShared := RecordOrEmpty(nextMetadata, SHARED);
    if selection.Some? {
      nextShared := nextShared["model" := ModelSection(selection.value)];
      assert "model" in nextShared;
      nextMetadata := nextMetadata[SHARED := Rec(nextShared)];
      return;
    }
    nextShared := nextShared - {"model"};
    nextMetadata := SetOrDelete(nextMetadata, SHARED, nextShared);
  }

  method WithInvokeMetadataBindings(metadata: Record, bindings: Entries) returns (nextMetadata: Record)
    ensures nextMetadata == PutBindings(metadata, bindings)
  {
    nextMetadata := metadata;
    var nextShared := RecordOrEmpty(nextMetadata, SHARED);
    var nextInvoke := RecordOrEmpty(nextShared, "invoke");
    var normalizedBindings: map<string, string> := map[];
    var i := 0;
    while i < |bindings|
      invariant i <= |bindings|
      invariant normalizedBindings == NormalEntries(bindings[..i])
    {
      assert bindings[..i + 1][..i] == bindings[..i];
      var normalizedKey, normalizedValue := Trim(bindings[i].0), Trim(bindings[i].1);
      if normalizedKey != "" && normalizedValue != "" {
        normalizedBindings := normalizedBindings[normalizedKey := normalizedValue];
      }
      i := i + 1;
    }
    assert bindings[..i] == bindings;
    if |normalizedBindings| > 0 {
      nextInvoke := nextInvoke["bindings" := Rec(AsRecord(normalizedBindings))];
      nextShared := nextShared["invoke" := Rec(nextInvoke)];
      assert AsRecord(normalizedBindings) != map[] by { var key :| key in normalizedBindings; }
      assert "bindings" in nextInvoke && "invoke" in nextShared;
      nextMetadata := nextMetadata[SHARED := Rec(nextShared)];
      return;
    }
    nextInvoke := nextInvoke - {"bindings"};
    nextShared := SetOrDelete(nextShared, "invoke", nextInvoke);
    nextMetadata := SetOrDelete(nextMetadata, SHARED, nextShared);
  }
}
