/** Sessions and their queue of pending interrupts (frontend/lib/chat-utils.ts, frontend/store/chatRuntime.ts, frontend/store/chat.ts). */
module Sessions {
  import opened Prelude
  import opened Text

  datatype Source = FromStream | FromRecovery

  /** A pending interrupt; `details` is its JSON text, the form in which the source compares details. */
  datatype Interrupt = Interrupt(
    requestId: string,
    kind: string,
    source: Option<Source>,
    sessionId: Option<string>,
    details: string)

  datatype Resolution = Resolution(requestId: string, kind: string, outcome: string)

  datatype RuntimeInterrupt = Asked(interrupt: Interrupt) | Resolved(resolution: Resolution)

  datatype StreamState = Idle | InStream | Continuing | Recoverable | Failed

  datatype Session = Session(
    agentId: string,
    streamState: StreamState,
    lastStreamError: Option<string>,
    lastReceivedSequence: Option<int>,
    lastUserMessageId: Option<string>,
    lastAgentMessageId: Option<string>,
    runtimeStatus: Option<string>,
    transport: string,
    pendingInterrupts: seq<Interrupt>,
    pendingInterrupt: Option<Interrupt>,
    lastResolved: Option<Resolution>)

  function CreateAgentSession(agentId: string): Session {
    Session(agentId, Idle, None, None, None, None, None, "http_json", [], None, None)
  }

  function Queue(s: Session): seq<Interrupt> {
    if s.pendingInterrupts != [] then s.pendingInterrupts
    else if s.pendingInterrupt.Some? then [s.pendingInterrupt.value]
    else []
  }

  function Head(q: seq<Interrupt>): Option<Interrupt> {
    if q == [] then None else Some(q[0])
  }

  function WithQueue(s: Session, q: seq<Interrupt>): Session {
    s.(pendingInterrupts := q, pendingInterrupt := Head(q))
  }

  /** The comparison that decides whether an asked event changes the queue. */
  predicate SamePending(a: Interrupt, b: Interrupt) {
    a.requestId == b.requestId && a.kind == b.kind && a.details == b.details
  }

  predicate SameQueues(a: seq<Interrupt>, b: seq<Interrupt>) {
    |a| == |b| && forall i :: 0 <= i < |a| ==> SamePending(a[i], b[i])
  }

  function RequestIds(q: seq<Interrupt>): (r: seq<string>)
    ensures |r| == |q|
    ensures forall i :: 0 <= i < |q| ==> r[i] == q[i].requestId
  {
    seq(|q|, i requires 0 <= i < |q| => q[i].requestId)
  }

  /** Replaces the first interrupt with the same request id, or appends. */
  function PutInterrupt(q: seq<Interrupt>, asked: Interrupt): seq<Interrupt> {
    if q == [] then [asked]
    else if q[0].requestId == asked.requestId then [asked] + q[1..]
    else [q[0]] + PutInterrupt(q[1..], asked)
  }

  function DropRequest(q: seq<Interrupt>, requestId: string): seq<Interrupt> {
    if q == [] then []
    else if q[0].requestId == requestId then DropRequest(q[1..], requestId)
    else [q[0]] + DropRequest(q[1..], requestId)
  }

  function AskedIn(s: Session, asked: Interrupt): Session {
    var next := PutInterrupt(Queue(s), asked);
    if SameQueues(Queue(s), next) then s else WithQueue(s, next)
  }

  function ResolvedIn(s: Session, resolution: Resolution): Session {
    var t := s.(lastResolved := Some(resolution));
    var next := DropRequest(Queue(s), resolution.requestId);
    if SameQueues(Queue(s), next) then t else WithQueue(t, next)
  }

  function Observed(s: Session, event: RuntimeInterrupt): Session {
    match event
    case Asked(interrupt) => AskedIn(s, interrupt)
    case Resolved(resolution) => ResolvedIn(s, resolution)
  }

  /** `clearPendingInterrupt`: an absent or empty request id clears the whole queue. */
  function Cleared(s: Session, requestId: Option<string>): Session {
    var q := Queue(s);
    var next := if requestId.Some? && requestId.value != "" then DropRequest(q, requestId.value) else [];
    if |next| == |q| then s else WithQueue(s, next)
  }

  /** The interrupts a recovery keeps: all that did not come from recovery, and those of other sessions. */
  predicate Retained(i: Interrupt, target: Option<string>) {
    i.source != Some(FromRecovery) || (target.Some? && i.sessionId != target)
  }

  function RetainedQueue(q: seq<Interrupt>, target: Option<string>): seq<Interrupt> {
    if q == [] then []
    else if Retained(q[0], target) then [q[0]] + RetainedQueue(q[1..], target)
    else RetainedQueue(q[1..], target)
  }

  /** Appends each recovered interrupt whose request id has not been seen. */
  function AppendUnseen(q: seq<Interrupt>, recovered: seq<Interrupt>): seq<Interrupt>
    decreases recovered
  {
    if recovered == [] then q
    else if recovered[0].requestId in RequestIds(q) then AppendUnseen(q, recovered[1..])
    else AppendUnseen(q + [recovered[0]], recovered[1..])
  }

  function TargetSession(sessionId: Option<string>): Option<string> {
    if sessionId.Some? && Trim(sessionId.value) != "" then Some(Trim(sessionId.value)) else None
  }

  function Recovered(s: Session, recovered: seq<Interrupt>, sessionId: Option<string>, replaceAll: bool): Session {
    var kept := if replaceAll then [] else RetainedQueue(Queue(s), TargetSession(sessionId));
    var next := AppendUnseen(kept, recovered);
    if Queue(s) == next then s else WithQueue(s, next)
  }

  // ---------------------------------------------------------------- the queue invariant

  /** Request ids are pairwise distinct and the single pending interrupt is the head of the queue. */
  predicate QueueOk(s: Session) {
    NoRepeat(RequestIds(s.pendingInterrupts)) && s.pendingInterrupt == Head(s.pendingInterrupts)
  }

  /** Asking replaces in place or appends: the request ids keep their order. */
  lemma {:induction false} PutInterruptIds(q: seq<Interrupt>, asked: Interrupt)
    ensures RequestIds(PutInterrupt(q, asked)) ==
      if asked.requestId in RequestIds(q) then RequestIds(q) else RequestIds(q) + [asked.requestId]
    ensures asked in PutInterrupt(q, asked)
  {
    if q != [] {
      assert RequestIds(q) == [q[0].requestId] + RequestIds(q[1..]);
      if q[0].requestId == asked.requestId {
        assert RequestIds(PutInterrupt(q, asked)) == RequestIds(q);
      } else {
        PutInterruptIds(q[1..], asked);
        assert RequestIds(PutInterrupt(q, asked)) == [q[0].requestId] + RequestIds(PutInterrupt(q[1..], asked));
      }
    }
  }

  /** The survivors of a filter, in their order. */
  predicate SubsequenceAt(r: seq<Interrupt>, q: seq<Interrupt>, at: seq<nat>) {
    && |at| == |r|
    && (forall i :: 0 <= i < |at| ==> at[i] < |q| && r[i] == q[at[i]])
    && (forall i, j :: 0 <= i < j < |at| ==> at[i] < at[j])
  }

  ghost predicate Subsequence(r: seq<Interrupt>, q: seq<Interrupt>) {
    exists at :: SubsequenceAt(r, q, at)
  }

  function Shifted(at: seq<nat>): (r: seq<nat>)
    ensures |r| == |at|
    ensures forall i :: 0 <= i < |at| ==> r[i] == at[i] + 1
  {
    seq(|at|, i requires 0 <= i < |at| => at[i] + 1)
  }

  lemma SkipFirst(x: Interrupt, r: seq<Interrupt>, q: seq<Interrupt>)
    requires Subsequence(r, q)
    ensures Subsequence(r, [x] + q)
  {
    var at :| SubsequenceAt(r, q, at);
    assert SubsequenceAt(r, [x] + q, Shifted(at));
  }

  lemma KeepFirstAt(x: Interrupt, r: seq<Interrupt>, q: seq<Interrupt>, at: seq<nat>)
    requires SubsequenceAt(r, q, at)
    ensures SubsequenceAt([x] + r, [x] + q, [0] + Shifted(at))
  {
    var whole := [0] + Shifted(at);
    forall i | 0 <= i < |whole| ensures whole[i] < |[x] + q| && ([x] + r)[i] == ([x] + q)[whole[i]] {
      if i > 0 {
        assert whole[i] == at[i - 1] + 1;
      }
    }
  }

  lemma KeepFirst(x: Interrupt, r: seq<Interrupt>, q: seq<Interrupt>)
    requires Subsequence(r, q)
    ensures Subsequence([x] + r, [x] + q)
  {
    var at :| SubsequenceAt(r, q, at);
    KeepFirstAt(x, r, q, at);
  }

  /** Dropping a request keeps exactly the others, in order. */
  lemma {:induction false} DropRequestKeepsOthers(q: seq<Interrupt>, requestId: string)
    ensures Subsequence(DropRequest(q, requestId), q)
    ensures forall i :: i in DropRequest(q, requestId) <==> i in q && i.requestId != requestId
  {
    if q == [] {
      assert SubsequenceAt([], q, []);
    } else {
      DropRequestKeepsOthers(q[1..], requestId);
      assert q == [q[0]] + q[1..];
      if q[0].requestId == requestId {
        SkipFirst(q[0], DropRequest(q[1..], requestId), q[1..]);
      } else {
        KeepFirst(q[0], DropRequest(q[1..], requestId), q[1..]);
      }
    }
  }

  lemma {:induction false} RetainedKeepsOthers(q: seq<Interrupt>, target: Option<string>)
    ensures Subsequence(RetainedQueue(q, target), q)
    ensures forall i :: i in RetainedQueue(q, target) <==> i in q && Retained(i, target)
  {
    if q == [] {
      assert SubsequenceAt([], q, []);
    } else {
      RetainedKeepsOthers(q[1..], target);
      assert q == [q[0]] + q[1..];
      if Retained(q[0], target) {
        KeepFirst(q[0], RetainedQueue(q[1..], target), q[1..]);
      } else {
        SkipFirst(q[0], RetainedQueue(q[1..], target), q[1..]);
      }
    }
  }

  lemma SubsequenceIsDistinct(r: seq<Interrupt>, q: seq<Interrupt>)
    requires Subsequence(r, q) && NoRepeat(RequestIds(q))
    ensures NoRepeat(RequestIds(r))
  {
    var at :| SubsequenceAt(r, q, at);
    forall i, j | 0 <= i < j < |r| ensures RequestIds(r)[i] != RequestIds(r)[j] {
      assert RequestIds(q)[at[i]] != RequestIds(q)[at[j]];
    }
  }

  lemma {:induction false} AppendUnseenIsDistinct(q: seq<Interrupt>, recovered: seq<Interrupt>)
    requires NoRepeat(RequestIds(q))
    ensures NoRepeat(RequestIds(AppendUnseen(q, recovered)))
    decreases recovered
  {
    if recovered != [] {
      var longer := q + [recovered[0]];
      assert RequestIds(longer) == RequestIds(q) + [recovered[0].requestId];
      AppendUnseenIsDistinct(if recovered[0].requestId in RequestIds(q) then q else longer, recovered[1..]);
    }
  }

  datatype Writer =
    | Observe(event: RuntimeInterrupt)
    | Clear(requestId: Option<string>)
    | Recover(recovered: seq<Interrupt>, sessionId: Option<string>, replaceAll: bool)
    | Reset

  /** Every way the source writes the queue; `Reset` is a new turn, an idle or a failed session. */
  function Written(s: Session, w: Writer): Session {
    match w
    case Observe(event) => Observed(s, event)
    case Clear(requestId) => Cleared(s, requestId)
    case Recover(recovered, sessionId, replaceAll) => Recovered(s, recovered, sessionId, replaceAll)
    case Reset => WithQueue(s, [])
  }

  lemma WriterKeepsQueueOk(s: Session, w: Writer)
    requires QueueOk(s)
    ensures QueueOk(Written(s, w))
  {
    match w
    case Observe(Asked(asked)) =>
      PutInterruptIds(Queue(s), asked);
    case Observe(Resolved(resolution)) =>
      DropRequestKeepsOthers(Queue(s), resolution.requestId);
      SubsequenceIsDistinct(DropRequest(Queue(s), resolution.requestId), Queue(s));
    case Clear(requestId) =>
      if requestId.Some? {
        DropRequestKeepsOthers(Queue(s), requestId.value);
        SubsequenceIsDistinct(DropRequest(Queue(s), requestId.value), Queue(s));
      }
    case Recover(recovered, sessionId, replaceAll) =>
      RetainedKeepsOthers(Queue(s), TargetSession(sessionId));
      var kept := RetainedQueue(Queue(s), TargetSession(sessionId));
      SubsequenceIsDistinct(kept, Queue(s));
      AppendUnseenIsDistinct(if replaceAll then [] else kept, recovered);
    case Reset =>
  }

  function WrittenAll(s: Session, ws: seq<Writer>): Session
    decreases ws
  {
    if ws == [] then s else WrittenAll(Written(s, ws[0]), ws[1..])
  }

  /** Whatever writers run, in whatever order, a fresh session keeps its queue distinct and its head pending. */
  lemma {:induction false} QueueOkForEveryHistory(s: Session, ws: seq<Writer>)
    requires QueueOk(s)
    ensures QueueOk(WrittenAll(s, ws))
    decreases ws
  {
    if ws != [] {
      WriterKeepsQueueOk(s, ws[0]);
      QueueOkForEveryHistory(Written(s, ws[0]), ws[1..]);
    }
  }

  lemma {:induction false} PutInterruptKeepsOthers(q: seq<Interrupt>, asked: Interrupt, i: nat)
    requires i < |q| && q[i].requestId != asked.requestId
    ensures i < |PutInterrupt(q, asked)| && PutInterrupt(q, asked)[i] == q[i]
  {
    if i > 0 && q[0].requestId != asked.requestId {
      PutInterruptKeepsOthers(q[1..], asked, i - 1);
    }
  }

  /** A queued interrupt shows what was asked: the same request with the same type and details. */
  predicate Shows(queued: Interrupt, asked: Interrupt) {
    queued.requestId == asked.requestId && queued.kind == asked.kind && queued.details == asked.details
  }

  /** An asked interrupt ends up in the queue up to the compared fields; all others stay as and where they are. */
  lemma AskedKeepsOrder(s: Session, asked: Interrupt)
    requires QueueOk(s)
    ensures
      var before, after := RequestIds(Queue(s)), RequestIds(Queue(AskedIn(s, asked)));
      after == if asked.requestId in before then before else before + [asked.requestId]
    ensures exists i :: 0 <= i < |Queue(AskedIn(s, asked))| && Shows(Queue(AskedIn(s, asked))[i], asked)
    ensures forall i :: 0 <= i < |Queue(s)| && Queue(s)[i].requestId != asked.requestId ==>
      i < |Queue(AskedIn(s, asked))| && Queue(AskedIn(s, asked))[i] == Queue(s)[i]
  {
    var next := PutInterrupt(Queue(s), asked);
    PutInterruptIds(Queue(s), asked);
    WriterKeepsQueueOk(s, Observe(Asked(asked)));
    forall i | 0 <= i < |Queue(s)| && Queue(s)[i].requestId != asked.requestId
      ensures i < |next| && next[i] == Queue(s)[i]
    {
      PutInterruptKeepsOthers(Queue(s), asked, i);
    }
    var i :| 0 <= i < |next| && next[i] == asked;
    if SameQueues(Queue(s), next) {
      assert RequestIds(next) == RequestIds(Queue(s));
      assert SamePending(Queue(s)[i], next[i]) && Shows(Queue(s)[i], asked);
    } else {
      assert Queue(AskedIn(s, asked))[i] == asked && Shows(asked, asked);
    }
  }

  /** The second queue is the first without one request: nothing else is removed, added or moved. */
  ghost predicate WithoutOnly(next: seq<Interrupt>, q: seq<Interrupt>, requestId: string) {
    Subsequence(next, q) && forall i :: i in next <==> i in q && i.requestId != requestId
  }

  /** Resolving or clearing one request removes it and nothing else, in order; clearing without one empties the queue. */
  lemma ResolveAndClearKeepOrder(s: Session, resolution: Resolution)
    requires QueueOk(s)
    ensures WithoutOnly(Queue(ResolvedIn(s, resolution)), Queue(s), resolution.requestId)
    ensures ResolvedIn(s, resolution).lastResolved == Some(resolution)
    ensures resolution.requestId != "" ==>
      WithoutOnly(Queue(Cleared(s, Some(resolution.requestId))), Queue(s), resolution.requestId)
    ensures Queue(Cleared(s, None)) == [] == Queue(Cleared(s, Some("")))
  {
    DropRequestKeepsOthers(Queue(s), resolution.requestId);
    QueuesAfterDrop(s, resolution);
  }

  lemma QueuesAfterDrop(s: Session, resolution: Resolution)
    requires QueueOk(s)
    ensures Queue(ResolvedIn(s, resolution)) == DropRequest(Queue(s), resolution.requestId)
    ensures resolution.requestId != "" ==>
      Queue(Cleared(s, Some(resolution.requestId))) == DropRequest(Queue(s), resolution.requestId)
    ensures Queue(Cleared(s, None)) == [] == Queue(Cleared(s, Some("")))
  {
    DropSameLength(Queue(s), resolution.requestId);
  }

  lemma {:induction false} DropSameLength(q: seq<Interrupt>, requestId: string)
    ensures |DropRequest(q, requestId)| <= |q|
    ensures |DropRequest(q, requestId)| == |q| ==> DropRequest(q, requestId) == q
  {
    if q != [] {
      DropSameLength(q[1..], requestId);
    }
  }

  // ---------------------------------------------------------------- recovery

  predicate NotRecovery(i: Interrupt) {
    i.source != Some(FromRecovery)
  }

  function OnlyNotRecovery(q: seq<Interrupt>): seq<Interrupt> {
    if q == [] then []
    else if NotRecovery(q[0]) then [q[0]] + OnlyNotRecovery(q[1..])
    else OnlyNotRecovery(q[1..])
  }

  predicate AllRecovery(recovered: seq<Interrupt>, target: Option<string>) {
    forall i :: 0 <= i < |recovered| ==> recovered[i].source == Some(FromRecovery) && recovered[i].sessionId == target
  }

  lemma {:induction false} OnlyNotRecoveryOfRetained(q: seq<Interrupt>, target: Option<string>)
    ensures OnlyNotRecovery(RetainedQueue(q, target)) == OnlyNotRecovery(q)
  {
    if q != [] {
      OnlyNotRecoveryOfRetained(q[1..], target);
      var rest := RetainedQueue(q[1..], target);
      assert ([q[0]] + rest)[1..] == rest;
    }
  }

  lemma {:induction false} OnlyNotRecoveryAppend(q: seq<Interrupt>, x: Interrupt)
    requires !NotRecovery(x)
    ensures OnlyNotRecovery(q + [x]) == OnlyNotRecovery(q)
  {
    if q == [] {
      assert [] + [x] == [x];
    } else {
      assert (q + [x])[1..] == q[1..] + [x];
      OnlyNotRecoveryAppend(q[1..], x);
    }
  }

  lemma {:induction false} OnlyNotRecoveryOfAppend(q: seq<Interrupt>, recovered: seq<Interrupt>)
    requires forall i :: 0 <= i < |recovered| ==> !NotRecovery(recovered[i])
    ensures OnlyNotRecovery(AppendUnseen(q, recovered)) == OnlyNotRecovery(q)
    decreases recovered
  {
    if recovered != [] {
      OnlyNotRecoveryAppend(q, recovered[0]);
      OnlyNotRecoveryOfAppend(if recovered[0].requestId in RequestIds(q) then q else q + [recovered[0]], recovered[1..]);
    }
  }

  /** Recovery without replace-all keeps every interrupt that did not come from recovery, in order. */
  lemma RecoveryKeepsOthers(s: Session, recovered: seq<Interrupt>, sessionId: Option<string>)
    requires QueueOk(s)
    requires forall i :: 0 <= i < |recovered| ==> !NotRecovery(recovered[i])
    ensures OnlyNotRecovery(Queue(Recovered(s, recovered, sessionId, false))) == OnlyNotRecovery(Queue(s))
  {
    var target := TargetSession(sessionId);
    OnlyNotRecoveryOfRetained(Queue(s), target);
    OnlyNotRecoveryOfAppend(RetainedQueue(Queue(s), target), recovered);
    WriterKeepsQueueOk(s, Recover(recovered, sessionId, false));
  }

  /** The recovered interrupts that `AppendUnseen` takes. */
  function Unseen(seen: seq<string>, recovered: seq<Interrupt>): seq<Interrupt>
    decreases recovered
  {
    if recovered == [] then []
    else if recovered[0].requestId in seen then Unseen(seen, recovered[1..])
    else [recovered[0]] + Unseen(seen + [recovered[0].requestId], recovered[1..])
  }

  lemma {:induction false} AppendUnseenSplits(q: seq<Interrupt>, recovered: seq<Interrupt>)
    ensures AppendUnseen(q, recovered) == q + Unseen(RequestIds(q), recovered)
    decreases recovered
  {
    if recovered != [] && recovered[0].requestId !in RequestIds(q) {
      var longer := q + [recovered[0]];
      assert RequestIds(longer) == RequestIds(q) + [recovered[0].requestId];
      AppendUnseenSplits(longer, recovered[1..]);
    } else if recovered != [] {
      AppendUnseenSplits(q, recovered[1..]);
    }
  }

  lemma {:induction false} UnseenMembers(seen: seq<string>, recovered: seq<Interrupt>)
    ensures forall i :: i in Unseen(seen, recovered) ==> i in recovered
    decreases recovered
  {
    if recovered != [] {
      UnseenMembers(if recovered[0].requestId in seen then seen else seen + [recovered[0].requestId], recovered[1..]);
    }
  }

  lemma {:induction false} RetainedOfConcat(a: seq<Interrupt>, b: seq<Interrupt>, target: Option<string>)
    ensures RetainedQueue(a + b, target) == RetainedQueue(a, target) + RetainedQueue(b, target)
  {
    if a == [] {
      assert a + b == b;
    } else {
      assert (a + b)[1..] == a[1..] + b;
      RetainedOfConcat(a[1..], b, target);
    }
  }

  lemma {:induction false} RetainedAll(a: seq<Interrupt>, target: Option<string>)
    requires forall i :: i in a ==> Retained(i, target)
    ensures RetainedQueue(a, target) == a
  {
    if a != [] {
      assert forall i :: i in a[1..] ==> i in a;
      RetainedAll(a[1..], target);
    }
  }

  lemma {:induction false} RetainedNone(b: seq<Interrupt>, target: Option<string>)
    requires forall i :: i in b ==> !Retained(i, target)
    ensures RetainedQueue(b, target) == []
  {
    if b != [] {
      assert forall i :: i in b[1..] ==> i in b;
      RetainedNone(b[1..], target);
    }
  }

  /** Recovering the same interrupts of the target session again changes nothing. */
  lemma RecoveryTwiceIsOnce(s: Session, recovered: seq<Interrupt>, sessionId: Option<string>)
    requires QueueOk(s) && AllRecovery(recovered, TargetSession(sessionId))
    ensures
      var once := Recovered(s, recovered, sessionId, false);
      Recovered(once, recovered, sessionId, false) == once
  {
    var target := TargetSession(sessionId);
    var kept := RetainedQueue(Queue(s), target);
    var added := Unseen(RequestIds(kept), recovered);
    AppendUnseenSplits(kept, recovered);
    WriterKeepsQueueOk(s, Recover(recovered, sessionId, false));
    var once := Recovered(s, recovered, sessionId, false);
    assert Queue(once) == kept + added;
    RetainedKeepsOthers(Queue(s), target);
    UnseenMembers(RequestIds(kept), recovered);
    RetainedAll(kept, target);
    RetainedNone(added, target);
    RetainedOfConcat(kept, added, target);
    assert kept + [] == kept;
  }

  // ---------------------------------------------------------------- what a recovery leaves in the queue

  /** A queued interrupt survives a recovery of one session: it is not from recovery, or from another session. */
  predicate Survives(i: Interrupt, sessionId: Option<string>) {
    || i.source != Some(FromRecovery)
    || (sessionId.Some? && Trim(sessionId.value) != "" && i.sessionId != Some(Trim(sessionId.value)))
  }

  /** Position `j` is the first of its request id, and `kept` lacks that. */
  predicate FirstOfItsId(recovered: seq<Interrupt>, kept: seq<string>, j: nat)
    requires j < |recovered|
  {
    recovered[j].requestId !in kept && forall i :: 0 <= i < j ==> recovered[i].requestId != recovered[j].requestId
  }

  /** `added` are the interrupts at the positions `at`: the first of each request id that `kept` lacks. */
  predicate FirstOfEachAt(added: seq<Interrupt>, recovered: seq<Interrupt>, kept: seq<string>, at: seq<nat>) {
    && SubsequenceAt(added, recovered, at)
    && forall j :: 0 <= j < |recovered| ==>
         (j in at <==> FirstOfItsId(recovered, kept, j))
  }

  ghost predicate FirstOfEach(added: seq<Interrupt>, recovered: seq<Interrupt>, kept: seq<string>) {
    exists at :: FirstOfEachAt(added, recovered, kept, at)
  }

  lemma FirstAfterSeen(kept: seq<string>, recovered: seq<Interrupt>, j: nat)
    requires 0 < j < |recovered| && recovered[0].requestId in kept
    ensures FirstOfItsId(recovered, kept, j) <==> FirstOfItsId(recovered[1..], kept, j - 1)
  {
    assert recovered[1..][j - 1] == recovered[j];
    assert forall i :: 0 < i < j ==> recovered[i] == recovered[1..][i - 1];
  }

  lemma SkipSeen(kept: seq<string>, recovered: seq<Interrupt>, added: seq<Interrupt>)
    requires recovered != [] && recovered[0].requestId in kept && FirstOfEach(added, recovered[1..], kept)
    ensures FirstOfEach(added, recovered, kept)
  {
    var at :| FirstOfEachAt(added, recovered[1..], kept, at);
    var moved := Shifted(at);
    forall j | 0 <= j < |recovered| ensures j in moved <==> FirstOfItsId(recovered, kept, j) {
      ShiftedMember(at, j);
      if j > 0 {
        FirstAfterSeen(kept, recovered, j);
      }
    }
    assert FirstOfEachAt(added, recovered, kept, moved);
  }

  lemma ShiftedMember(at: seq<nat>, j: nat)
    ensures j in Shifted(at) <==> j > 0 && j - 1 in at
  {
    if j > 0 && j - 1 in at {
      var i :| 0 <= i < |at| && at[i] == j - 1;
      assert Shifted(at)[i] == j;
    }
  }

  lemma FirstAfterTaken(kept: seq<string>, recovered: seq<Interrupt>, j: nat)
    requires 0 < j < |recovered|
    ensures
      FirstOfItsId(recovered, kept, j) <==> FirstOfItsId(recovered[1..], kept + [recovered[0].requestId], j - 1)
  {
    assert recovered[1..][j - 1] == recovered[j];
    assert forall i :: 0 < i < j ==> recovered[i] == recovered[1..][i - 1];
    if FirstOfItsId(recovered, kept, j) {
      assert recovered[0].requestId != recovered[j].requestId;
    }
    if FirstOfItsId(recovered[1..], kept + [recovered[0].requestId], j - 1) {
      assert recovered[0].requestId in kept + [recovered[0].requestId];
    }
  }

  lemma TakeUnseen(kept: seq<string>, recovered: seq<Interrupt>, added: seq<Interrupt>)
    requires recovered != [] && recovered[0].requestId !in kept
    requires FirstOfEach(added, recovered[1..], kept + [recovered[0].requestId])
    ensures FirstOfEach([recovered[0]] + added, recovered, kept)
  {
    var at :| FirstOfEachAt(added, recovered[1..], kept + [recovered[0].requestId], at);
    var moved := [0] + Shifted(at);
    forall j | 0 <= j < |recovered| ensures j in moved <==> FirstOfItsId(recovered, kept, j) {
      ShiftedMember(at, j);
      assert j in moved <==> j == 0 || j in Shifted(at);
      if j > 0 {
        FirstAfterTaken(kept, recovered, j);
      }
    }
    KeepFirstAt(recovered[0], added, recovered[1..], at);
    assert [recovered[0]] + recovered[1..] == recovered;
    assert FirstOfEachAt([recovered[0]] + added, recovered, kept, moved);
  }

  lemma {:induction false} UnseenIsFirstOfEach(kept: seq<string>, recovered: seq<Interrupt>)
    ensures FirstOfEach(Unseen(kept, recovered), recovered, kept)
    decreases recovered
  {
    if recovered == [] {
      assert FirstOfEachAt([], recovered, kept, []);
    } else if recovered[0].requestId in kept {
      UnseenIsFirstOfEach(kept, recovered[1..]);
      SkipSeen(kept, recovered, Unseen(kept, recovered[1..]));
    } else {
      var longer := kept + [recovered[0].requestId];
      UnseenIsFirstOfEach(longer, recovered[1..]);
      TakeUnseen(kept, recovered, Unseen(longer, recovered[1..]));
    }
  }

  lemma {:induction false} EveryRecoveredIsQueued(q: seq<Interrupt>, recovered: seq<Interrupt>)
    ensures forall i :: 0 <= i < |q| ==> q[i].requestId in RequestIds(AppendUnseen(q, recovered))
    ensures forall j :: 0 <= j < |recovered| ==> recovered[j].requestId in RequestIds(AppendUnseen(q, recovered))
    decreases recovered
  {
    if recovered == [] {
      assert forall i :: 0 <= i < |q| ==> RequestIds(q)[i] == q[i].requestId;
    } else {
      var next := if recovered[0].requestId in RequestIds(q) then q else q + [recovered[0]];
      EveryRecoveredIsQueued(next, recovered[1..]);
      assert forall i :: 0 <= i < |q| ==> next[i] == q[i];
      assert exists i :: 0 <= i < |next| && next[i].requestId == recovered[0].requestId by {
        if next == q {
          var i :| 0 <= i < |q| && RequestIds(q)[i] == recovered[0].requestId;
          assert next[i].requestId == recovered[0].requestId;
        } else {
          assert next[|q|] == recovered[0];
        }
      }
      assert forall j :: 0 < j < |recovered| ==> recovered[j] == recovered[1..][j - 1];
    }
  }

  /** The first `n` interrupts are what survived, in order, the others the first recovered ones of each new request id. */
  ghost predicate RecoveredFrom(
    after: seq<Interrupt>, before: seq<Interrupt>, recovered: seq<Interrupt>, sessionId: Option<string>, replaceAll: bool, n: nat)
  {
    && n <= |after|
    && Subsequence(after[..n], before)
    && (forall i :: i in after[..n] <==> i in before && !replaceAll && Survives(i, sessionId))
    && FirstOfEach(after[n..], recovered, RequestIds(after[..n]))
  }

  lemma SurvivorsAreKept(q: seq<Interrupt>, sessionId: Option<string>, replaceAll: bool)
    ensures
      var kept := if replaceAll then [] else RetainedQueue(q, TargetSession(sessionId));
      Subsequence(kept, q) && forall i :: i in kept <==> i in q && !replaceAll && Survives(i, sessionId)
  {
    RetainedKeepsOthers(q, TargetSession(sessionId));
    assert SubsequenceAt([], q, []);
  }

  lemma QueueAfterRecovery(s: Session, recovered: seq<Interrupt>, sessionId: Option<string>, replaceAll: bool)
    ensures
      var kept := if replaceAll then [] else RetainedQueue(Queue(s), TargetSession(sessionId));
      Queue(Recovered(s, recovered, sessionId, replaceAll)) == AppendUnseen(kept, recovered)
  {
  }

  /**
   * After a recovery the queue is what survived of it, in order, and then the first recovered
   * interrupt of each request id that is not among these, in order. Every recovered request is in
   * it; a recovery that replaces everything keeps nothing else.
   */
  lemma RecoveryFillsTheQueue(s: Session, recovered: seq<Interrupt>, sessionId: Option<string>, replaceAll: bool)
    ensures
      var before, after := Queue(s), Queue(Recovered(s, recovered, sessionId, replaceAll));
      && (exists n :: RecoveredFrom(after, before, recovered, sessionId, replaceAll, n))
      && (forall j :: 0 <= j < |recovered| ==> recovered[j].requestId in RequestIds(after))
  {
    var kept := if replaceAll then [] else RetainedQueue(Queue(s), TargetSession(sessionId));
    var added := Unseen(RequestIds(kept), recovered);
    QueueAfterRecovery(s, recovered, sessionId, replaceAll);
    SurvivorsAreKept(Queue(s), sessionId, replaceAll);
    AppendUnseenSplits(kept, recovered);
    UnseenIsFirstOfEach(RequestIds(kept), recovered);
    EveryRecoveredIsQueued(kept, recovered);
    var after := kept + added;
    assert after[..|kept|] == kept && after[|kept|..] == added;
    assert RecoveredFrom(after, Queue(s), recovered, sessionId, replaceAll, |kept|);
  }
}
