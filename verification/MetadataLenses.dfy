/** The laws of the four sections: what is written is read back, and the sections do not disturb each other. */
module MetadataLenses {
  import opened Prelude
  import opened Text
  import opened Metadata

  // ---------------------------------------------------------------- one section

  lemma SectionIsLens(m: Record, a: string, v: Option<Json>, b: string)
    ensures Section(WithSection(m, a, v), b) == if a == b then v else Section(m, b)
  {
    var shared := Set(RecordOrEmpty(m, SHARED), a, v);
    assert RecordOrEmpty(WithSection(m, a, v), SHARED) == shared;
  }

  lemma SharedAfter(m: Record, a: string, v: Option<Json>)
    ensures RecordOrEmpty(WithSection(m, a, v), SHARED) == Set(RecordOrEmpty(m, SHARED), a, v)
  {
  }

  lemma SetTwice(r: Record, key: string, v: Option<Json>, w: Option<Json>)
    ensures Set(Set(r, key, v), key, w) == Set(r, key, w)
  {
  }

  lemma SetsCommute(r: Record, a: string, v: Option<Json>, b: string, w: Option<Json>)
    requires a != b
    ensures Set(Set(r, a, v), b, w) == Set(Set(r, b, w), a, v)
  {
  }

  lemma SectionTwice(m: Record, a: string, v: Option<Json>, w: Option<Json>)
    ensures WithSection(WithSection(m, a, v), a, w) == WithSection(m, a, w)
  {
    SharedAfter(m, a, v);
    var shared := RecordOrEmpty(m, SHARED);
    SetTwice(shared, a, v, w);
    SetTwice(m, SHARED, Packed(Set(shared, a, v)), Packed(Set(shared, a, w)));
  }

  lemma SectionsCommute(m: Record, a: string, v: Option<Json>, b: string, w: Option<Json>)
    requires a != b
    ensures WithSection(WithSection(m, a, v), b, w) == WithSection(WithSection(m, b, w), a, v)
  {
    SharedAfter(m, a, v);
    SharedAfter(m, b, w);
    var shared := RecordOrEmpty(m, SHARED);
    SetsCommute(shared, a, v, b, w);
    var both := Packed(Set(Set(shared, a, v), b, w));
    SetTwice(m, SHARED, Packed(Set(shared, a, v)), both);
    SetTwice(m, SHARED, Packed(Set(shared, b, w)), both);
  }

  /** Removing the keys of the older format does not touch the sections. */
  lemma LegacyKeysApart(m: Record, a: string, v: Option<Json>)
    ensures RecordOrEmpty(m - LEGACY_KEYS, SHARED) == RecordOrEmpty(m, SHARED)
    ensures WithSection(m, a, v) - LEGACY_KEYS == WithSection(m - LEGACY_KEYS, a, v)
  {
    assert SHARED !in LEGACY_KEYS;
  }

  // ---------------------------------------------------------------- the four writers

  datatype Put =
    | Stream(identity: StreamIdentity)
    | Session(binding: SessionBinding)
    | Model(selection: Option<ModelSelection>)
    | Invoke(entries: Entries)

  function Apply(put: Put, m: Record): Record {
    match put
    case Stream(identity) => PutStream(m, identity)
    case Session(binding) => PutSession(m, binding)
    case Model(selection) => PutModel(m, selection)
    case Invoke(entries) => PutBindings(m, entries)
  }

  function NameOf(put: Put): string {
    match put
    case Stream(_) => "stream"
    case Session(_) => "session"
    case Model(_) => "model"
    case Invoke(_) => "invoke"
  }

  function Fields(section: Option<Json>): Record {
    if section.Some? && section.value.Rec? then section.value.fields else map[]
  }

  /** The section that a writer leaves, given the section that it found. */
  function NewSection(put: Put, current: Option<Json>): Option<Json> {
    match put
    case Stream(identity) => Packed(StreamSection(Fields(current), identity))
    case Session(binding) => Packed(BindingSection(binding))
    case Model(selection) => if selection.Some? then Some(ModelSection(selection.value)) else None
    case Invoke(entries) => Packed(InvokeSection(Fields(current), NormalEntries(entries)))
  }

  function Base(put: Put, m: Record): Record {
    if put.Session? then m - LEGACY_KEYS else m
  }

  /** Every writer changes its own section according to that section alone. */
  lemma ApplyIsLocal(put: Put, m: Record)
    ensures Apply(put, m) == WithSection(Base(put, m), NameOf(put), NewSection(put, Section(m, NameOf(put))))
  {
  }

  lemma BaseKeepsSections(put: Put, m: Record, name: string)
    ensures Section(Base(put, m), name) == Section(m, name)
  {
    LegacyKeysApart(m, name, None);
  }

  /** A writer keeps every other section. */
  lemma OtherSectionsKept(put: Put, m: Record, name: string)
    ensures
      Section(Apply(put, m), name)
      == if name == NameOf(put) then NewSection(put, Section(m, name)) else Section(m, name)
  {
    ApplyIsLocal(put, m);
    BaseKeepsSections(put, m, name);
    SectionIsLens(Base(put, m), NameOf(put), NewSection(put, Section(m, NameOf(put))), name);
  }

  /** A writer keeps every other key of the metadata, but for the two keys of the older format. */
  lemma OtherKeysKept(put: Put, m: Record, key: string)
    requires key != SHARED
    ensures Get(Apply(put, m), key) == if put.Session? && key in {"externalSessionId", "provider"} then None else Get(m, key)
  {
    ApplyIsLocal(put, m);
  }

  /**
   * Within its section a writer keeps the fields that are not its own, but for the session section, which
   * is written anew.
   */
  lemma OtherFieldsKept(put: Put, m: Record, field: string)
    ensures
      var before, after := Fields(Section(m, NameOf(put))), Fields(Section(Apply(put, m), NameOf(put)));
      match put
      case Stream(_) => field !in {"threadId", "turnId"} ==> Get(after, field) == Get(before, field)
      case Invoke(_) => field != "bindings" ==> Get(after, field) == Get(before, field)
      case Session(_) => field in after ==> field in {"id", "provider"}
      case Model(_) => field in after ==> field in {"providerID", "modelID"}
  {
    OtherSectionsKept(put, m, NameOf(put));
  }

  /** No writer leaves its section, or the record of all sections, as an empty record. */
  lemma NoEmptyRecordLeft(put: Put, m: Record)
    ensures Section(Apply(put, m), NameOf(put)) != Some(Rec(map[]))
    ensures "shared" in Apply(put, m) <==> exists name :: Section(Apply(put, m), name).Some?
  {
    OtherSectionsKept(put, m, NameOf(put));
    ApplyIsLocal(put, m);
    SharedAfter(Base(put, m), NameOf(put), NewSection(put, Section(m, NameOf(put))));
    var shared := RecordOrEmpty(Apply(put, m), SHARED);
    if shared != map[] {
      var name :| name in shared;
      assert Section(Apply(put, m), name).Some?;
    }
    if put.Model? && put.selection.Some? {
      assert "modelID" in ModelSection(put.selection.value).fields;
    }
  }

  lemma WritersCommute(p: Put, q: Put, m: Record)
    requires NameOf(p) != NameOf(q)
    ensures Apply(p, Apply(q, m)) == Apply(q, Apply(p, m))
  {
    var v, w := NewSection(p, Section(m, NameOf(p))), NewSection(q, Section(m, NameOf(q)));
    OneAfterOther(p, q, m);
    OneAfterOther(q, p, m);
    var base := Base(p, Base(q, m));
    assert base == Base(q, Base(p, m));
    SectionsCommute(base, NameOf(q), w, NameOf(p), v);
  }

  lemma OneAfterOther(p: Put, q: Put, m: Record)
    requires NameOf(p) != NameOf(q)
    ensures
      Apply(p, Apply(q, m))
      == WithSection(WithSection(Base(p, Base(q, m)), NameOf(q), NewSection(q, Section(m, NameOf(q)))),
                     NameOf(p), NewSection(p, Section(m, NameOf(p))))
  {
    var w := NewSection(q, Section(m, NameOf(q)));
    ApplyIsLocal(q, m);
    ApplyIsLocal(p, Apply(q, m));
    OtherSectionsKept(q, m, NameOf(p));
    LegacyKeysApart(Base(q, m), NameOf(q), w);
  }

  /** The second of two writes of one section overrides the first. */
  lemma SecondWriteOverrides(p: Put, q: Put, m: Record)
    requires NameOf(p) == NameOf(q)
    ensures Apply(p, Apply(q, m)) == Apply(p, m)
  {
    var name := NameOf(p);
    var w := NewSection(q, Section(m, name));
    ApplyIsLocal(q, m);
    ApplyIsLocal(p, m);
    ApplyIsLocal(p, Apply(q, m));
    OtherSectionsKept(q, m, name);
    LegacyKeysApart(Base(q, m), name, w);
    assert Base(p, Base(q, m)) == Base(p, m);
    SectionOverrides(p, q, Section(m, name));
    SectionTwice(Base(p, m), name, w, NewSection(p, Section(m, name)));
  }

  lemma StreamOverrides(current: Record, one: StreamIdentity, two: StreamIdentity)
    ensures StreamSection(StreamSection(current, one), two) == StreamSection(current, two)
  {
    assert "threadId" != "turnId" by { assert "threadId"[1] != "turnId"[1]; }
    var thread, turn := AsJson(NonBlank(one.threadId)), AsJson(NonBlank(one.turnId));
    var nextThread, nextTurn := AsJson(NonBlank(two.threadId)), AsJson(NonBlank(two.turnId));
    var withThread := Set(current, "threadId", thread);
    SetsCommute(withThread, "turnId", turn, "threadId", nextThread);
    SetTwice(current, "threadId", thread, nextThread);
    SetTwice(Set(current, "threadId", nextThread), "turnId", turn, nextTurn);
  }

  lemma SectionOverrides(p: Put, q: Put, current: Option<Json>)
    requires NameOf(p) == NameOf(q)
    ensures NewSection(p, NewSection(q, current)) == NewSection(p, current)
  {
    match p {
      case Stream(second) =>
        StreamOverrides(Fields(current), q.identity, second);
        assert Fields(NewSection(q, current)) == StreamSection(Fields(current), q.identity);
      case Invoke(second) =>
        var one, two := Packed(AsRecord(NormalEntries(q.entries))), Packed(AsRecord(NormalEntries(second)));
        SetTwice(Fields(current), "bindings", one, two);
        assert Fields(NewSection(q, current)) == InvokeSection(Fields(current), NormalEntries(q.entries));
      case _ =>
    }
  }

  /** Removing the binding removes its section, the stream section unless it is kept, and no other. */
  lemma UnboundSections(m: Record, keepSharedStream: bool, name: string)
    ensures
      Section(Unbound(m, keepSharedStream), name)
      == if name == "session" || (name == "stream" && !keepSharedStream) then None else Section(m, name)
  {
    assert SHARED !in LEGACY_KEYS;
    LegacyKeysApart(m, name, None);
  }

  // ---------------------------------------------------------------- what is read back

  lemma NonBlankTwice(value: Option<string>)
    ensures NonBlank(NonBlank(value)) == NonBlank(value)
  {
    if value.Some? {
      TrimTwice(value.value);
    }
  }

  lemma NestedKept(put: Put, m: Record)
    ensures RecordAt(Apply(put, m), METADATA) == RecordAt(m, METADATA)
  {
    assert METADATA != SHARED by { assert METADATA[0] != SHARED[0]; }
    OtherKeysKept(put, m, METADATA);
    assert METADATA !in LEGACY_KEYS by { assert METADATA[0] != "provider"[0]; }
    assert Get(Apply(put, m), METADATA) == Get(m, METADATA);
  }

  /** The section that a reader sees after a write. */
  lemma SeenAfter(put: Put, m: Record, name: string)
    ensures SectionRecord(m, name) == if Section(m, name).Some? && Section(m, name).value.Rec? then Some(Fields(Section(m, name))) else None
    ensures
      SharedSection(Apply(put, m), name)
      == if Nested(m) then SharedSection(m, name) else SectionRecord(Apply(put, m), name)
  {
    NestedKept(put, m);
  }

  lemma StreamReadBack(m: Record, identity: StreamIdentity)
    ensures
      ReadStreamIdentity(PutStream(m, identity)) == if Nested(m) then ReadStreamIdentity(m) else NormalIdentity(identity)
  {
    SeenAfter(Stream(identity), m, "stream");
    OtherSectionsKept(Stream(identity), m, "stream");
    var section := StreamSection(Fields(Section(m, "stream")), identity);
    NonBlankTwice(identity.threadId);
    NonBlankTwice(identity.turnId);
    SeenAfter(Stream(identity), Apply(Stream(identity), m), "stream");
    assert PickString(Some(section), "threadId") == NonBlank(identity.threadId);
    assert PickString(Some(section), "turnId") == NonBlank(identity.turnId);
  }

  /** The stream identity is read back as written, for every identity, exactly when no `metadata` record hides it. */
  lemma StreamReadBackExactly(m: Record)
    ensures
      (forall identity :: ReadStreamIdentity(PutStream(m, identity)) == NormalIdentity(identity)) <==> !Nested(m)
  {
    forall identity
      ensures
        ReadStreamIdentity(PutStream(m, identity)) == if Nested(m) then ReadStreamIdentity(m) else NormalIdentity(identity)
    {
      StreamReadBack(m, identity);
    }
    if Nested(m) {
      var one, two := StreamIdentity(Some("a"), None), StreamIdentity(Some("b"), None);
      assert Trim("a") == "a" && Trim("b") == "b";
      assert NormalIdentity(one) != NormalIdentity(two);
      assert ReadStreamIdentity(PutStream(m, one)) == ReadStreamIdentity(PutStream(m, two));
    }
  }

  lemma SessionReadBack(m: Record, binding: SessionBinding)
    ensures
      ReadSessionBinding(PutSession(m, binding)) == if Nested(m) then ReadSessionBinding(m) else NormalBinding(binding)
  {
    SeenAfter(Session(binding), m, "session");
    OtherSectionsKept(Session(binding), m, "session");
    var section := BindingSection(binding);
    NonBlankTwice(binding.provider);
    NonBlankTwice(binding.externalSessionId);
    SeenAfter(Session(binding), Apply(Session(binding), m), "session");
    assert PickString(Some(section), "provider") == NonBlank(binding.provider);
    assert PickString(Some(section), "id") == NonBlank(binding.externalSessionId);
  }

  lemma SessionReadBackExactly(m: Record)
    ensures (forall binding :: ReadSessionBinding(PutSession(m, binding)) == NormalBinding(binding)) <==> !Nested(m)
  {
    forall binding
      ensures
        ReadSessionBinding(PutSession(m, binding)) == if Nested(m) then ReadSessionBinding(m) else NormalBinding(binding)
    {
      SessionReadBack(m, binding);
    }
    if Nested(m) {
      var one, two := SessionBinding(Some("a"), None), SessionBinding(Some("b"), None);
      assert Trim("a") == "a" && Trim("b") == "b";
      assert NormalBinding(one) != NormalBinding(two);
      assert ReadSessionBinding(PutSession(m, one)) == ReadSessionBinding(PutSession(m, two));
    }
  }

  /** The model is read from the metadata itself: a nested record does not hide it. */
  lemma ModelReadBack(m: Record, selection: Option<ModelSelection>)
    ensures ReadModel(PutModel(m, selection)) == NormalSelection(selection)
  {
    OtherSectionsKept(Model(selection), m, "model");
    SeenAfter(Model(selection), PutModel(m, selection), "model");
    assert "providerID" != "modelID" by { assert "providerID"[0] != "modelID"[0]; }
  }

  lemma BindingsReadBack(m: Record, entries: Entries)
    ensures ReadBindings(PutBindings(m, entries)) == NormalEntries(entries)
  {
    var bindings := NormalEntries(entries);
    OtherSectionsKept(Invoke(entries), m, "invoke");
    SeenAfter(Invoke(entries), PutBindings(m, entries), "invoke");
    BindingsOf(Fields(Section(m, "invoke")), bindings);
    NormalEntriesTrimmed(entries);
    ReadableAsWritten(bindings);
  }

  lemma BindingsOf(current: Record, bindings: map<string, string>)
    ensures RecordOrEmpty(Fields(Packed(InvokeSection(current, bindings))), "bindings") == AsRecord(bindings)
  {
    var section := InvokeSection(current, bindings);
    assert Fields(Packed(section)) == section;
  }

  lemma ReadableAsWritten(bindings: map<string, string>)
    requires forall key :: key in bindings ==> Canonical(bindings[key])
    ensures Readable(AsRecord(bindings)) == bindings
  {
    forall key | key in bindings ensures BindingValue(AsRecord(bindings)[key]) == Some(bindings[key]) {
      TrimFixesTrimmed(bindings[key]);
    }
  }

  lemma {:induction false} NormalEntriesTrimmed(entries: Entries)
    ensures forall key :: key in NormalEntries(entries) ==> Canonical(key) && Canonical(NormalEntries(entries)[key])
  {
    if entries != [] {
      NormalEntriesTrimmed(entries[..|entries| - 1]);
      TrimIsTrimmed(entries[|entries| - 1].0);
      TrimIsTrimmed(entries[|entries| - 1].1);
    }
  }

  /** Entry `i` is the last one that gives `key` a value. */
  predicate LastFor(entries: Entries, key: string, i: nat) {
    && i < |entries| && Trim(entries[i].0) == key && key != "" && Trim(entries[i].1) != ""
    && forall j :: i < j < |entries| && Trim(entries[j].0) == key ==> Trim(entries[j].1) == ""
  }

  /** A binding that is read back comes from the last entry with its trimmed key and a value that is not blank. */
  lemma {:induction false} LastEntryWins(entries: Entries, key: string, i: nat)
    requires LastFor(entries, key, i)
    ensures key in NormalEntries(entries) && NormalEntries(entries)[key] == Trim(entries[i].1)
  {
    var rest := entries[..|entries| - 1];
    if i < |rest| {
      assert LastFor(rest, key, i) by {
        assert forall j :: 0 <= j < |rest| ==> rest[j] == entries[j];
      }
      LastEntryWins(rest, key, i);
    }
  }

  lemma {:induction false} BoundKeyHasEntry(entries: Entries, key: string)
    ensures key in NormalEntries(entries) ==> exists i :: LastFor(entries, key, i)
  {
    if key in NormalEntries(entries) {
      var n := |entries| - 1;
      var rest := entries[..n];
      if Trim(entries[n].0) == key && Trim(entries[n].1) != "" && key != "" {
        assert LastFor(entries, key, n);
      } else {
        BoundKeyHasEntry(rest, key);
        var i :| LastFor(rest, key, i);
        assert LastFor(entries, key, i) by {
          assert forall j :: 0 <= j < |rest| ==> rest[j] == entries[j];
        }
      }
    }
  }

  // ---------------------------------------------------------------- any number of writes

  function ApplyAll(puts: seq<Put>, m: Record): Record {
    if puts == [] then m else Apply(puts[|puts| - 1], ApplyAll(puts[..|puts| - 1], m))
  }

  /** The last write of a section, if there is one. */
  function LastPut(puts: seq<Put>, name: string): Option<Put> {
    if puts == [] then None
    else if NameOf(puts[|puts| - 1]) == name then Some(puts[|puts| - 1])
    else LastPut(puts[..|puts| - 1], name)
  }

  /** After any writes each section is what its last write made of the section at the start. */
  lemma {:induction false} SectionAfterAll(puts: seq<Put>, m: Record, name: string)
    ensures
      Section(ApplyAll(puts, m), name)
      == match LastPut(puts, name) case None => Section(m, name) case Some(put) => NewSection(put, Section(m, name))
  {
    if puts != [] {
      var rest, put := puts[..|puts| - 1], puts[|puts| - 1];
      SectionAfterAll(rest, m, name);
      OtherSectionsKept(put, ApplyAll(rest, m), name);
      if NameOf(put) == name && LastPut(rest, name).Some? {
        LastPutIsNamed(rest, name);
        SectionOverrides(put, LastPut(rest, name).value, Section(m, name));
      }
    }
  }

  lemma {:induction false} LastPutIsNamed(puts: seq<Put>, name: string)
    ensures LastPut(puts, name).Some? ==> NameOf(LastPut(puts, name).value) == name
  {
    if puts != [] {
      LastPutIsNamed(puts[..|puts| - 1], name);
    }
  }
}
