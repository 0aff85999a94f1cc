/** The debounce of remote cancel requests (frontend/store/chat.ts:45-92). */
module CancelDebounce {
  import opened Text

  const DEBOUNCE_MS := 500
  const HISTORY_TTL_MS := DEBOUNCE_MS * 4

  /** When each conversation was last cancelled, and the conversations whose cancel is in flight. */
  datatype State = State(recent: map<string, int>, pending: set<string>)

  datatype Event = Request(conversationId: string, now: int) | Finish(conversationId: string)

  /** What leaves the client: cancels issued, and their completions. */
  datatype Act = Issued(conversationId: string, at: int) | Finished(conversationId: string)

  function Pruned(recent: map<string, int>, now: int): map<string, int> {
    map c | c in recent && now - recent[c] <= HISTORY_TTL_MS :: recent[c]
  }

  predicate Debounced(recent: map<string, int>, c: string, now: int) {
    c in recent && now - recent[c] < DEBOUNCE_MS
  }

  /** Issues a cancel unless the id is blank, one is in flight, or the last one is too recent. */
  function OnRequest(s: State, id: string, now: int, prune: bool): State {
    var c := Trim(id);
    if c == "" || c in s.pending then s
    else
      var recent := if prune then Pruned(s.recent, now) else s.recent;
      if Debounced(recent, c, now) then s.(recent := recent)
      else State(recent[c := now], s.pending + {c})
  }

  function ActsOf(s: State, e: Event, prune: bool): seq<Act> {
    match e
    case Request(id, now) =>
      var c := Trim(id);
      if c == "" || c in s.pending || Debounced(if prune then Pruned(s.recent, now) else s.recent, c, now) then []
      else [Issued(c, now)]
    case Finish(c) => if c in s.pending then [Finished(c)] else []
  }

  function Step(s: State, e: Event, prune: bool): State {
    match e
    case Request(id, now) => OnRequest(s, id, now, prune)
    case Finish(c) => s.(pending := s.pending - {c})
  }

  function Trace(s: State, events: seq<Event>, prune: bool): seq<Act>
    decreases events
  {
    if events == [] then [] else ActsOf(s, events[0], prune) + Trace(Step(s, events[0], prune), events[1..], prune)
  }

  /** The clock of the requests never goes back, from `since` on. */
  predicate ClockForward(events: seq<Event>, since: int)
    decreases events
  {
    events != [] ==>
      match events[0]
      case Request(_, now) => since <= now && ClockForward(events[1..], now)
      case Finish(_) => ClockForward(events[1..], since)
  }

  // ---------------------------------------------------------------- pruning changes no decision

  /** The pruned map holds what the full one holds, except entries too old to matter. */
  predicate Agree(s: State, full: State, since: int) {
    && s.pending == full.pending
    && (forall c :: c in s.recent ==> c in full.recent && full.recent[c] == s.recent[c])
    && (forall c :: c in full.recent && c !in s.recent ==> since - full.recent[c] > HISTORY_TTL_MS)
  }

  lemma SameDecision(s: State, full: State, c: string, now: int, since: int)
    requires Agree(s, full, since) && since <= now
    ensures Debounced(Pruned(s.recent, now), c, now) <==> Debounced(full.recent, c, now)
  {
  }

  /** With a clock that never goes back, the pruned map decides as the full history does, in every run. */
  lemma {:induction false} PruningIsInvisible(s: State, full: State, since: int, events: seq<Event>)
    requires Agree(s, full, since) && ClockForward(events, since)
    ensures Trace(s, events, true) == Trace(full, events, false)
    decreases events
  {
    if events != [] {
      match events[0]
      case Request(id, now) =>
        SameDecision(s, full, Trim(id), now, since);
        PruningIsInvisible(Step(s, events[0], true), Step(full, events[0], false), now, events[1..]);
      case Finish(c) =>
        PruningIsInvisible(Step(s, events[0], true), Step(full, events[0], false), since, events[1..]);
    }
  }

  /** Without the clock assumption pruning does matter: a jump forward and back forgets a recent cancel. */
  lemma ClockGoingBackIsSeen(c: string, other: string)
    requires Canonical(c) && Canonical(other) && c != other
    ensures
      var start := State(map[c := 1000], {});
      var jump, back := Step(start, Request(other, 9000), true), Request(c, 1100);
      ActsOf(start, back, true) == [] && ActsOf(jump, back, true) == [Issued(c, 1100)]
  {
    TrimFixesTrimmed(c);
    TrimFixesTrimmed(other);
    assert Pruned(map[c := 1000], 9000) == map[];
  }

  // ---------------------------------------------------------------- spacing and overlap

  /** Two cancels of one conversation are at least 500 ms apart, and the earlier one has finished. */
  predicate Spaced(acts: seq<Act>) {
    forall i, j :: 0 <= i < j < |acts| && acts[i].Issued? && acts[j].Issued? && acts[i].conversationId == acts[j].conversationId ==>
      && acts[j].at - acts[i].at >= 500
      && exists k :: i < k < j && acts[k] == Finished(acts[i].conversationId)
  }

  /** The full history records the last cancel of each conversation and which are unfinished. */
  predicate Records(full: State, done: seq<Act>, since: int) {
    && Spaced(done)
    && (forall i :: 0 <= i < |done| && done[i].Issued? ==>
          && done[i].conversationId in full.recent
          && done[i].at <= full.recent[done[i].conversationId] <= since
          && (done[i].conversationId !in full.pending ==>
                exists k :: i < k < |done| && done[k] == Finished(done[i].conversationId)))
  }

  lemma IssueKeepsRecords(full: State, done: seq<Act>, since: int, c: string, now: int)
    requires Records(full, done, since) && since <= now && c !in full.pending && !Debounced(full.recent, c, now)
    ensures Records(State(full.recent[c := now], full.pending + {c}), done + [Issued(c, now)], now)
  {
    var next := done + [Issued(c, now)];
    forall i, j | 0 <= i < j < |next| && next[i].Issued? && next[j].Issued? && next[i].conversationId == next[j].conversationId
      ensures next[j].at - next[i].at >= 500
      ensures exists k :: i < k < j && next[k] == Finished(next[i].conversationId)
    {
      if j < |done| {
        assert next[i] == done[i] && next[j] == done[j];
        var k :| i < k < j && done[k] == Finished(done[i].conversationId);
        assert next[k] == Finished(next[i].conversationId);
      } else {
        assert next[i] == done[i];
        var k :| i < k < |done| && done[k] == Finished(done[i].conversationId);
        assert next[k] == Finished(next[i].conversationId);
      }
    }
    FinishedStays(full, done, [Issued(c, now)]);
  }

  lemma FinishedStays(full: State, done: seq<Act>, more: seq<Act>)
    requires forall i :: 0 <= i < |done| && done[i].Issued? && done[i].conversationId !in full.pending ==>
      exists k :: i < k < |done| && done[k] == Finished(done[i].conversationId)
    ensures forall i :: 0 <= i < |done| && done[i].Issued? && done[i].conversationId !in full.pending ==>
      exists k :: i < k < |done + more| && (done + more)[k] == Finished(done[i].conversationId)
  {
    forall i | 0 <= i < |done| && done[i].Issued? && done[i].conversationId !in full.pending
      ensures exists k :: i < k < |done + more| && (done + more)[k] == Finished(done[i].conversationId)
    {
      var k :| i < k < |done| && done[k] == Finished(done[i].conversationId);
      assert (done + more)[k] == done[k];
    }
  }

  lemma SpacedAfterFinish(done: seq<Act>, c: string)
    requires Spaced(done)
    ensures Spaced(done + [Finished(c)])
  {
    var next := done + [Finished(c)];
    forall i, j | 0 <= i < j < |next| && next[i].Issued? && next[j].Issued? && next[i].conversationId == next[j].conversationId
      ensures next[j].at - next[i].at >= 500
      ensures exists k :: i < k < j && next[k] == Finished(next[i].conversationId)
    {
      assert next[i] == done[i] && next[j] == done[j];
      var k :| i < k < j && done[k] == Finished(done[i].conversationId);
      assert next[k] == done[k];
    }
  }

  lemma FinishKeepsRecords(full: State, done: seq<Act>, since: int, c: string)
    requires Records(full, done, since) && c in full.pending
    ensures Records(full.(pending := full.pending - {c}), done + [Finished(c)], since)
  {
    var next := done + [Finished(c)];
    SpacedAfterFinish(done, c);
    FinishedStays(full, done, [Finished(c)]);
    forall i | 0 <= i < |next| && next[i].Issued? && next[i].conversationId !in full.pending - {c}
      ensures exists k :: i < k < |next| && next[k] == Finished(next[i].conversationId)
    {
      assert next[i] == done[i];
      if next[i].conversationId == c {
        assert next[|done|] == Finished(next[i].conversationId);
      }
    }
  }

  lemma {:induction false} TraceIsSpaced(full: State, done: seq<Act>, since: int, events: seq<Event>)
    requires Records(full, done, since) && ClockForward(events, since)
    ensures Spaced(done + Trace(full, events, false))
    decreases events
  {
    if events == [] {
      assert done + [] == done;
    } else {
      var acts := ActsOf(full, events[0], false);
      var next := Step(full, events[0], false);
      var rest := Trace(next, events[1..], false);
      assert (done + acts) + rest == done + (acts + rest);
      match events[0]
      case Request(id, now) =>
        if acts != [] {
          IssueKeepsRecords(full, done, since, Trim(id), now);
        } else {
          assert done + acts == done;
        }
        TraceIsSpaced(next, done + acts, now, events[1..]);
      case Finish(c) =>
        if acts != [] {
          FinishKeepsRecords(full, done, since, c);
        } else {
          assert done + acts == done;
        }
        TraceIsSpaced(next, done + acts, since, events[1..]);
    }
  }

  /**
   * In every run with a clock that never goes back, the cancels issued for one conversation are at
   * least 500 ms apart and never overlap in flight.
   */
  lemma CancelsAreSpaced(since: int, events: seq<Event>)
    requires ClockForward(events, since)
    ensures Spaced(Trace(State(map[], {}), events, true))
  {
    PruningIsInvisible(State(map[], {}), State(map[], {}), since, events);
    TraceIsSpaced(State(map[], {}), [], since, events);
    var acts := Trace(State(map[], {}), events, false);
    assert [] + acts == acts;
  }

  // ---------------------------------------------------------------- when a cancel is issued

  /** Cancel `i` was issued for this conversation and has not finished. */
  predicate InFlight(acts: seq<Act>, c: string, i: nat) {
    && i < |acts| && acts[i].Issued? && acts[i].conversationId == c
    && forall k :: i < k < |acts| ==> acts[k] != Finished(c)
  }

  /** Every cancel of the conversation has finished, and was issued at least 500 ms ago. */
  predicate MayIssue(acts: seq<Act>, c: string, now: int) {
    forall i :: 0 <= i < |acts| && acts[i].Issued? && acts[i].conversationId == c ==>
      !InFlight(acts, c, i) && now - acts[i].at >= 500
  }

  /** Whatever the maps hold was issued. */
  ghost predicate Traced(full: State, done: seq<Act>) {
    && (forall c :: c in full.recent ==> exists i :: 0 <= i < |done| && done[i] == Issued(c, full.recent[c]))
    && (forall c :: c in full.pending ==> exists i :: InFlight(done, c, i))
  }

  lemma IssueKeepsTraced(full: State, done: seq<Act>, c: string, now: int)
    requires Traced(full, done)
    ensures Traced(State(full.recent[c := now], full.pending + {c}), done + [Issued(c, now)])
  {
    var next := done + [Issued(c, now)];
    var recent := full.recent[c := now];
    forall d | d in recent ensures exists i :: 0 <= i < |next| && next[i] == Issued(d, recent[d]) {
      if d == c {
        assert next[|done|] == Issued(d, recent[d]);
      } else {
        var i :| 0 <= i < |done| && done[i] == Issued(d, full.recent[d]);
        assert next[i] == Issued(d, recent[d]);
      }
    }
    forall d | d in full.pending + {c} ensures exists i :: InFlight(next, d, i) {
      if d == c {
        assert InFlight(next, c, |done|);
      } else {
        var i :| InFlight(done, d, i);
        assert InFlight(next, d, i);
      }
    }
  }

  lemma FinishKeepsTraced(full: State, done: seq<Act>, c: string)
    requires Traced(full, done)
    ensures Traced(full.(pending := full.pending - {c}), done + [Finished(c)])
  {
    var next := done + [Finished(c)];
    forall d | d in full.recent ensures exists i :: 0 <= i < |next| && next[i] == Issued(d, full.recent[d]) {
      var i :| 0 <= i < |done| && done[i] == Issued(d, full.recent[d]);
      assert next[i] == Issued(d, full.recent[d]);
    }
    forall d | d in full.pending - {c} ensures exists i :: InFlight(next, d, i) {
      var i :| InFlight(done, d, i);
      assert InFlight(next, d, i);
    }
  }

  /** The two maps decide as the record of all cancels does. */
  lemma DecidesByRecord(full: State, done: seq<Act>, since: int, c: string, now: int)
    requires Booked(full, done, since)
    ensures MayIssue(done, c, now) <==> c !in full.pending && !Debounced(full.recent, c, now)
  {
    if c !in full.pending && !Debounced(full.recent, c, now) {
      forall i | 0 <= i < |done| && done[i].Issued? && done[i].conversationId == c
        ensures !InFlight(done, c, i) && now - done[i].at >= 500
      {
        var k :| i < k < |done| && done[k] == Finished(done[i].conversationId);
      }
    } else if c in full.pending {
      var i :| InFlight(done, c, i);
    } else {
      var i :| 0 <= i < |done| && done[i] == Issued(c, full.recent[c]);
    }
  }

  function ClockAfter(e: Event, since: int): int {
    if e.Request? then e.now else since
  }

  /** The record of all cancels and the two maps agree. */
  ghost predicate Booked(full: State, done: seq<Act>, since: int) {
    Records(full, done, since) && Traced(full, done)
  }

  lemma LaterIsBooked(full: State, done: seq<Act>, since: int, now: int)
    requires Booked(full, done, since) && since <= now
    ensures Booked(full, done + [], now)
  {
    assert done + [] == done;
  }

  lemma IssueIsBooked(full: State, done: seq<Act>, since: int, c: string, now: int)
    requires Booked(full, done, since) && since <= now && c !in full.pending && !Debounced(full.recent, c, now)
    ensures Booked(State(full.recent[c := now], full.pending + {c}), done + [Issued(c, now)], now)
  {
    IssueKeepsRecords(full, done, since, c, now);
    IssueKeepsTraced(full, done, c, now);
  }

  lemma FinishIsBooked(full: State, done: seq<Act>, since: int, c: string)
    requires Booked(full, done, since) && c in full.pending
    ensures Booked(full.(pending := full.pending - {c}), done + [Finished(c)], since)
  {
    FinishKeepsRecords(full, done, since, c);
    FinishKeepsTraced(full, done, c);
  }

  lemma StepIsBooked(full: State, done: seq<Act>, since: int, e: Event)
    requires Booked(full, done, since) && since <= ClockAfter(e, since)
    ensures Booked(Step(full, e, false), done + ActsOf(full, e, false), ClockAfter(e, since))
  {
    match e
    case Request(id, now) =>
      var c := Trim(id);
      if c == "" || c in full.pending || Debounced(full.recent, c, now) {
        LaterIsBooked(full, done, since, now);
      } else {
        IssueIsBooked(full, done, since, c, now);
      }
    case Finish(c) =>
      if c in full.pending {
        FinishIsBooked(full, done, since, c);
      } else {
        LaterIsBooked(full, done, since, since);
        assert full.pending - {c} == full.pending;
      }
  }

  /** What a request leads to, given what was issued before it. */
  function Decision(acts: seq<Act>, id: string, now: int): seq<Act> {
    if Trim(id) != "" && MayIssue(acts, Trim(id), now) then [Issued(Trim(id), now)] else []
  }

  lemma RequestDecision(full: State, done: seq<Act>, since: int, id: string, now: int)
    requires Booked(full, done, since)
    ensures
      Trace(full, [Request(id, now)], false) == Decision(done, id, now)
  {
    DecidesByRecord(full, done, since, Trim(id), now);
    assert [Request(id, now)][1..] == [];
  }

  function StateAfter(s: State, events: seq<Event>): State
    decreases events
  {
    if events == [] then s else StateAfter(Step(s, events[0], false), events[1..])
  }

  lemma {:induction false} TraceConcat(full: State, events: seq<Event>, more: seq<Event>)
    ensures Trace(full, events + more, false) == Trace(full, events, false) + Trace(StateAfter(full, events), more, false)
    decreases events
  {
    if events == [] {
      assert events + more == more;
    } else {
      assert (events + more)[0] == events[0] && (events + more)[1..] == events[1..] + more;
      TraceConcat(Step(full, events[0], false), events[1..], more);
    }
  }

  lemma TraceStep(full: State, done: seq<Act>, events: seq<Event>)
    requires events != []
    ensures
      var acts, next := ActsOf(full, events[0], false), Step(full, events[0], false);
      (done + acts) + Trace(next, events[1..], false) == done + Trace(full, events, false)
  {
  }

  lemma {:induction false} RunIsBooked(full: State, done: seq<Act>, all: seq<Act>, since: int, events: seq<Event>) returns (later: int)
    requires Booked(full, done, since) && ClockForward(events, since) && all == done + Trace(full, events, false)
    ensures Booked(StateAfter(full, events), all, later)
    decreases events
  {
    if events == [] {
      assert all == done;
      later := since;
    } else {
      TraceStep(full, done, events);
      StepIsBooked(full, done, since, events[0]);
      later := RunIsBooked(Step(full, events[0], false), done + ActsOf(full, events[0], false), all,
                           ClockAfter(events[0], since), events[1..]);
    }
  }

  /**
   * In every run with a clock that never goes back a request issues a cancel exactly if its id is not
   * blank, every cancel issued for this conversation has finished, and the last is at least 500 ms ago.
   */
  lemma CancelIssuedExactly(since: int, events: seq<Event>, id: string, now: int)
    requires ClockForward(events + [Request(id, now)], since)
    ensures
      var acts := Trace(State(map[], {}), events, true);
      Trace(State(map[], {}), events + [Request(id, now)], true)
      == acts + Decision(acts, id, now)
  {
    var start := State(map[], {});
    PrefixForward(events, Request(id, now), since);
    PruningIsInvisible(start, start, since, events);
    PruningIsInvisible(start, start, since, events + [Request(id, now)]);
    assert [] + Trace(start, events, false) == Trace(start, events, false);
    var later := RunIsBooked(start, [], Trace(start, events, false), since, events);
    TraceConcat(start, events, [Request(id, now)]);
    RequestDecision(StateAfter(start, events), Trace(start, events, false), later, id, now);
  }

  lemma {:induction false} PrefixForward(events: seq<Event>, last: Event, since: int)
    requires ClockForward(events + [last], since)
    ensures ClockForward(events, since)
    decreases events
  {
    if events != [] {
      assert (events + [last])[0] == events[0] && (events + [last])[1..] == events[1..] + [last];
      PrefixForward(events[1..], last, ClockAfter(events[0], since));
    }
  }

  /** After a request was looked up no entry is older than two seconds, and no younger one of another conversation is lost. */
  lemma OnlyYoungEntriesStay(s: State, id: string, now: int)
    requires Trim(id) != "" && Trim(id) !in s.pending
    ensures
      var recent := Step(s, Request(id, now), true).recent;
      && (forall c :: c in recent ==> now - recent[c] <= 2000)
      && (forall c :: c in s.recent && now - s.recent[c] <= 2000 && c != Trim(id) ==> c in recent && recent[c] == s.recent[c])
  {
  }

  // ---------------------------------------------------------------- the module's maps

  /** The two module-level maps of the chat store. */
  class CancelRequests {
    var recentCancelRequestAt: map<string, int>
    var pendingCancelRequests: set<string>

    function Value(): State
      reads this
    {
      State(recentCancelRequestAt, pendingCancelRequests)
    }

    constructor ()
      ensures Value() == State(map[], {})
    {
      recentCancelRequestAt := map[];
      pendingCancelRequests := {};
    }

    method PruneRecentCancelRequestAt(now: int)
      modifies this`recentCancelRequestAt
      ensures recentCancelRequestAt == Pruned(old(recentCancelRequestAt), now)
    {
      ghost var before := recentCancelRequestAt;
      var todo := recentCancelRequestAt.Keys;
      while todo != {}
        invariant todo <= recentCancelRequestAt.Keys <= before.Keys
        invariant forall c :: c in recentCancelRequestAt ==> recentCancelRequestAt[c] == before[c]
        invariant forall c :: c in before && c !in todo ==>
          (c in recentCancelRequestAt <==> now - before[c] <= HISTORY_TTL_MS)
        decreases todo
      {
        var conversationId :| conversationId in todo;
        if now - recentCancelRequestAt[conversationId] > HISTORY_TTL_MS {
          recentCancelRequestAt := recentCancelRequestAt - {conversationId};
        }
        todo := todo - {conversationId};
      }
    }

    /** True when a cancel is sent to the server. */
    method RequestSessionCancel(conversationId: string, now: int) returns (issued: bool)
      modifies this
      ensures Value() == Step(old(Value()), Request(conversationId, now), true)
      ensures issued <==> ActsOf(old(Value()), Request(conversationId, now), true) != []
    {
      var normalizedConversationId := Trim(conversationId);
      if normalizedConversationId == "" || normalizedConversationId in pendingCancelRequests {
        return false;
      }
      PruneRecentCancelRequestAt(now);
      if normalizedConversationId in recentCancelRequestAt
         && now - recentCancelRequestAt[normalizedConversationId] < DEBOUNCE_MS {
        return false;
      }
      recentCancelRequestAt := recentCancelRequestAt[normalizedConversationId := now];
      pendingCancelRequests := pendingCancelRequests + {normalizedConversationId};
      return true;
    }

    /** The `finally` of the cancel promise. */
    method OnCancelSettled(conversationId: string)
      modifies this
      ensures Value() == Step(old(Value()), Finish(conversationId), true)
    {
      pendingCancelRequests := pendingCancelRequests - {conversationId};
    }
  }
}
