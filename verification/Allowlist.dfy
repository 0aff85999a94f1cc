/**
 * The cache of allowed proxy hosts (backend/app/runtime/a2a_proxy_service.py). Tasks interleave at their awaits:
 * while a task waits for the lock and while it waits for the database. Times are the readings of `time.time()`.
 */
module Allowlist {
  import opened Prelude

  const TTL := 60

  type Hosts = seq<string>

  /** `list(dict.fromkeys(hosts))`. */
  function Dedupe(hosts: Hosts): Hosts {
    if hosts == [] then []
    else
      var before := Dedupe(hosts[..|hosts| - 1]);
      if hosts[|hosts| - 1] in before then before else before + [hosts[|hosts| - 1]]
  }

  /** Where a task stands between two of its steps. */
  datatype Phase = Waiting(force: bool) | Querying(force: bool)

  datatype State = State(
    cached: Hosts,
    lastRefresh: int,
    initialized: bool,
    lock: Option<int>,
    tasks: map<int, Phase>)

  /** Finished with None is a query that raised; a cancelled task releases the lock and does nothing else. */
  datatype Event =
    | Call(task: int, force: bool, now: int)
    | Granted(task: int, now: int)
    | Finished(task: int, hosts: Option<Hosts>, now: int)
    | Cancelled(task: int, now: int)
    | ReadSync(now: int)

  const INITIAL := State([], 0, false, None, map[])

  predicate NeedsRefresh(s: State, now: int) {
    !s.initialized || now - s.lastRefresh > TTL
  }

  predicate Enabled(s: State, e: Event) {
    match e
    case Call(task, _, _) => task !in s.tasks
    case Granted(task, _) => task in s.tasks && s.tasks[task].Waiting? && s.lock.None?
    case Finished(task, _, _) => task in s.tasks && s.tasks[task].Querying?
    case Cancelled(task, _) => task in s.tasks
    case ReadSync(_) => true
  }

  /** The state after a query. */
  function Refreshed(s: State, settings: Hosts, hosts: Option<Hosts>, now: int): State {
    match hosts
    case Some(fromDb) => s.(cached := Dedupe(settings + fromDb), lastRefresh := now, initialized := true)
    case None => if s.initialized then s else s.(cached := Dedupe(settings), lastRefresh := now, initialized := true)
  }

  function Step(s: State, settings: Hosts, e: Event): State
    requires Enabled(s, e)
  {
    match e
    case Call(task, force, now) => if force || NeedsRefresh(s, now) then s.(tasks := s.tasks[task := Waiting(force)]) else s
    case Granted(task, now) =>
      if s.tasks[task].force || NeedsRefresh(s, now) then
        s.(tasks := s.tasks[task := Querying(s.tasks[task].force)], lock := Some(task))
      else s.(tasks := s.tasks - {task})
    case Finished(task, hosts, now) => Refreshed(s, settings, hosts, now).(tasks := s.tasks - {task}, lock := None)
    case Cancelled(task, _) =>
      s.(tasks := s.tasks - {task}, lock := if s.tasks[task].Querying? then None else s.lock)
    case ReadSync(_) => s
  }

  /** The list that a task receives in this step, if it receives one. */
  function Returned(s: State, settings: Hosts, e: Event): Option<Hosts>
    requires Enabled(s, e)
  {
    var next := Step(s, settings, e);
    match e
    case Call(task, _, _) => if task in next.tasks then None else Some(next.cached)
    case Granted(task, _) => if task in next.tasks then None else Some(next.cached)
    case Finished(_, _, _) => Some(next.cached)
    case Cancelled(_, _) => None
    case ReadSync(_) => Some(if s.initialized then s.cached else settings)
  }

  // ---------------------------------------------------------------- runs

  ghost predicate Runs(settings: Hosts, events: seq<Event>)
    decreases |events|, 0
  {
    events == [] ||
    (var before := events[..|events| - 1];
     Runs(settings, before) && Enabled(After(settings, before), events[|events| - 1]))
  }

  ghost function After(settings: Hosts, events: seq<Event>): State
    requires Runs(settings, events)
    decreases |events|, 1
  {
    if events == [] then INITIAL
    else Step(After(settings, events[..|events| - 1]), settings, events[|events| - 1])
  }

  /** The hosts of the most recent query that succeeded. */
  function LastGood(events: seq<Event>): Option<Hosts> {
    if events == [] then None
    else
      var e := events[|events| - 1];
      if e.Finished? && e.hosts.Some? then e.hosts else LastGood(events[..|events| - 1])
  }

  predicate AnyFinished(events: seq<Event>) {
    exists i :: 0 <= i < |events| && events[i].Finished?
  }

  /** When the stored list was refreshed: at the last success, or at a failure before any other query ended. */
  function RefreshedAt(events: seq<Event>): int {
    if events == [] then 0
    else
      var e := events[|events| - 1];
      var before := events[..|events| - 1];
      if e.Finished? && (e.hosts.Some? || !AnyFinished(before)) then e.now else RefreshedAt(before)
  }

  /** Every returned list is this one, once a query has ended. */
  function Effective(settings: Hosts, events: seq<Event>): Hosts {
    Dedupe(settings + LastGood(events).GetOr([]))
  }

  // ---------------------------------------------------------------- de-duplication

  /** The first place of a host that occurs. */
  function First(s: Hosts, h: string): (i: nat)
    requires h in s
    ensures i < |s| && s[i] == h && forall k :: 0 <= k < i ==> s[k] != h
  {
    if s[0] == h then 0 else 1 + First(s[1..], h)
  }

  lemma {:induction false} DedupeMembers(s: Hosts)
    ensures forall h :: h in Dedupe(s) <==> h in s
    ensures NoRepeat(Dedupe(s))
  {
    if s != [] {
      var n := |s| - 1;
      DedupeMembers(s[..n]);
      assert s == s[..n] + [s[n]];
      var d := Dedupe(s[..n]);
      assert forall i :: 0 <= i < |d| ==> d[i] in d;
    }
  }

  lemma FirstInPrefix(s: Hosts, n: nat, h: string)
    requires n <= |s| && h in s[..n]
    ensures h in s && First(s, h) == First(s[..n], h)
  {
    var i := First(s[..n], h);
    assert s[i] == h;
    assert forall k :: 0 <= k < i ==> s[k] == s[..n][k];
  }

  /** Each host stays once, and in the order of first occurrence. */
  lemma {:induction false} DedupeKeepsOrder(s: Hosts)
    ensures forall h :: h in Dedupe(s) <==> h in s
    ensures forall i, j :: 0 <= i < j < |Dedupe(s)| ==> First(s, Dedupe(s)[i]) < First(s, Dedupe(s)[j])
  {
    DedupeMembers(s);
    if s != [] {
      var n := |s| - 1;
      DedupeKeepsOrder(s[..n]);
      var d := Dedupe(s[..n]);
      forall i | 0 <= i < |d| ensures d[i] in s[..n] && First(s, d[i]) == First(s[..n], d[i]) {
        assert d[i] in d;
        FirstInPrefix(s, n, d[i]);
      }
      if s[n] !in d {
        assert forall k :: 0 <= k < n ==> s[k] == s[..n][k] && s[..n][k] in s[..n];
        assert First(s, s[n]) == n;
      }
    }
  }

  // ---------------------------------------------------------------- invariants

  /** At most one task is at the database, the one that holds the lock. */
  ghost predicate Exclusive(s: State) {
    forall t :: (t in s.tasks && s.tasks[t].Querying?) <==> s.lock == Some(t)
  }

  lemma {:induction false} RunIsExclusive(settings: Hosts, events: seq<Event>)
    requires Runs(settings, events)
    ensures Exclusive(After(settings, events))
  {
    if events != [] {
      RunIsExclusive(settings, events[..|events| - 1]);
    }
  }

  /** The stored list, its time and the flag are functions of what the queries gave. */
  lemma {:induction false} StoredList(settings: Hosts, events: seq<Event>)
    requires Runs(settings, events)
    ensures
      var s := After(settings, events);
      && (s.initialized <==> AnyFinished(events))
      && (s.initialized ==> s.cached == Effective(settings, events))
      && s.lastRefresh == RefreshedAt(events)
      && (LastGood(events).Some? ==> AnyFinished(events))
  {
    if events != [] {
      var n := |events| - 1;
      var before := events[..n];
      StoredList(settings, before);
      assert events == before + [events[n]];
      assert AnyFinished(events) <==> AnyFinished(before) || events[n].Finished? by {
        assert forall i :: 0 <= i < n ==> events[i] == before[i];
      }
      assert settings + [] == settings;
    }
  }

  /** After the first query has ended every task receives the settings and the hosts of the last success, each once. */
  lemma ReturnedList(settings: Hosts, events: seq<Event>, e: Event)
    requires Runs(settings, events + [e])
    ensures Runs(settings, events) && Enabled(After(settings, events), e)
    ensures
      var r := Returned(After(settings, events), settings, e);
      r.Some? && AnyFinished(events + [e]) ==> r.value == Effective(settings, events + [e]) && NoRepeat(r.value)
    ensures
      var r := Returned(After(settings, events), settings, e);
      r.Some? && !AnyFinished(events + [e]) ==> e.ReadSync? && r.value == settings
  {
    assert (events + [e])[..|events|] == events;
    StoredList(settings, events);
    StoredList(settings, events + [e]);
    DedupeMembers(settings + LastGood(events + [e]).GetOr([]));
    assert After(settings, events + [e]) == Step(After(settings, events), settings, e);
  }

  /** A query that fails once the cache is in use changes neither the list nor its time. */
  lemma FailureChangesNothing(s: State, settings: Hosts, task: int, now: int)
    requires Enabled(s, Finished(task, None, now)) && s.initialized
    ensures Step(s, settings, Finished(task, None, now)) == s.(tasks := s.tasks - {task}, lock := None)
  {
  }

  // ---------------------------------------------------------------- who is answered without a query

  /** Whether the last call of a task was forced. */
  function LastCall(events: seq<Event>, task: int): Option<bool> {
    if events == [] then None
    else
      var e := events[|events| - 1];
      if e.Call? && e.task == task then Some(e.force) else LastCall(events[..|events| - 1], task)
  }

  /** A task that waits or queries remembers how it was called. */
  lemma {:induction false} TasksRememberForce(settings: Hosts, events: seq<Event>, task: int)
    requires Runs(settings, events) && task in After(settings, events).tasks
    ensures LastCall(events, task) == Some(After(settings, events).tasks[task].force)
  {
    var before := events[..|events| - 1];
    if task in After(settings, before).tasks {
      TasksRememberForce(settings, before, task);
    }
  }

  /** How the task of a call, or of a task that was granted the lock, was called. */
  function Forced(events: seq<Event>, e: Event): bool
    requires e.Call? || e.Granted?
  {
    if e.Call? then e.force else LastCall(events, e.task) == Some(true)
  }

  /**
   * In every run a task is answered without a query, at its call or when it is granted the lock,
   * exactly if it was not forced and a list was stored not more than 60 seconds ago.
   */
  lemma AnsweredWithoutQueryExactly(settings: Hosts, events: seq<Event>, e: Event)
    requires Runs(settings, events) && Enabled(After(settings, events), e)
    requires e.Call? || e.Granted?
    ensures
      Returned(After(settings, events), settings, e).Some?
      <==> !Forced(events, e) && AnyFinished(events) && e.now - RefreshedAt(events) <= 60
  {
    StoredList(settings, events);
    if e.Granted? {
      TasksRememberForce(settings, events, e.task);
    }
  }

  /** A forced task receives a list only when its own query ends, after its call, and then the new one. */
  lemma ForcedTasksQuery(settings: Hosts, events: seq<Event>, e: Event)
    requires Runs(settings, events + [e]) && !e.ReadSync?
    requires (e.Call? ==> e.force) && (!e.Call? ==> LastCall(events, e.task) == Some(true))
    ensures Runs(settings, events) && Enabled(After(settings, events), e)
    ensures Returned(After(settings, events), settings, e).Some? <==> e.Finished?
    ensures e.Finished? ==>
      Returned(After(settings, events), settings, e) == Some(Effective(settings, events + [e]))
  {
    assert (events + [e])[..|events|] == events;
    if e.Call? || e.Granted? {
      AnsweredWithoutQueryExactly(settings, events, e);
    } else if e.Finished? {
      ReturnedList(settings, events, e);
      assert AnyFinished(events + [e]) by { assert (events + [e])[|events|] == e; }
    }
  }

  // ---------------------------------------------------------------- the distance of refreshes

  /** The clock does not go back. */
  ghost predicate Monotone(events: seq<Event>) {
    forall i, j :: 0 <= i < j < |events| ==> events[i].now <= events[j].now
  }

  /** A task without force that is at the database found the list outdated when it was there. */
  ghost predicate Due(s: State, now: int) {
    forall t :: t in s.tasks && s.tasks[t] == Querying(false) ==> NeedsRefresh(s, now)
  }

  lemma {:induction false} QueriesAreDue(settings: Hosts, events: seq<Event>)
    requires Runs(settings, events) && Monotone(events) && events != []
    ensures Due(After(settings, events), events[|events| - 1].now)
  {
    var n := |events| - 1;
    var before := events[..n];
    RunIsExclusive(settings, before);
    if n > 0 {
      QueriesAreDue(settings, before);
      assert events[n - 1].now <= events[n].now;
      assert Due(After(settings, before), events[n].now);
    }
  }

  /** A refresh that no one forced ends more than 60 seconds after the one before it, or is the first. */
  lemma UnforcedRefreshesAreApart(settings: Hosts, events: seq<Event>, task: int, hosts: Option<Hosts>, now: int)
    requires Runs(settings, events) && Enabled(After(settings, events), Finished(task, hosts, now))
    requires After(settings, events).tasks[task] == Querying(false)
    requires Monotone(events + [Finished(task, hosts, now)])
    ensures AnyFinished(events) ==> now - RefreshedAt(events) > 60
  {
    var e := Finished(task, hosts, now);
    StoredList(settings, events);
    assert events != [];
    assert Monotone(events) by {
      assert forall i :: 0 <= i < |events| ==> (events + [e])[i] == events[i];
    }
    QueriesAreDue(settings, events);
    assert (events + [e])[|events| - 1].now <= (events + [e])[|events|].now;
  }

  // ---------------------------------------------------------------- the service

  class A2AProxyService {
    const settings: Hosts
    var cachedAllowedHosts: Hosts
    var lastRefresh: int
    var isInitialized: bool
    /** The holder of the refresh lock, and the tasks suspended at an await. */
    var refreshLock: Option<int>
    var tasks: map<int, Phase>

    constructor (settings: Hosts)
      ensures Value() == INITIAL && this.settings == settings
    {
      this.settings := settings;
      cachedAllowedHosts, lastRefresh, isInitialized := [], 0, false;
      refreshLock, tasks := None, map[];
    }

    function Value(): State
      reads this
    {
      State(cachedAllowedHosts, lastRefresh, isInitialized, refreshLock, tasks)
    }

    method NeedsRefreshNow(now: int) returns (needed: bool)
      ensures needed == NeedsRefresh(Value(), now)
    {
      needed := !isInitialized || now - lastRefresh > TTL;
    }

    method GetEffectiveAllowedHostsSync(now: int) returns (hosts: Hosts)
      ensures Returned(Value(), settings, ReadSync(now)) == Some(hosts)
    {
      if !isInitialized {
        return settings;
      }
      hosts := cachedAllowedHosts;
    }

    /** Answers at once, or suspends the task until it is granted the lock; forced, it is `refresh_cache`. */
    method GetEffectiveAllowedHosts(task: int, force: bool, now: int) returns (hosts: Option<Hosts>)
      requires Enabled(Value(), Call(task, force, now))
      modifies this
      ensures Value() == Step(old(Value()), settings, Call(task, force, now))
      ensures hosts == Returned(old(Value()), settings, Call(task, force, now))
    {
      if force {
        tasks := tasks[task := Waiting(true)];
        return None;
      }
      var needed := NeedsRefreshNow(now);
      if needed {
        tasks := tasks[task := Waiting(false)];
        return None;
      }
      hosts := Some(cachedAllowedHosts);
    }

    /** Inside the lock the need for a refresh is checked again, with a new reading of the clock. */
    method OnLockGranted(task: int, now: int) returns (hosts: Option<Hosts>)
      requires Enabled(Value(), Granted(task, now))
      modifies this
      ensures Value() == Step(old(Value()), settings, Granted(task, now))
      ensures hosts == Returned(old(Value()), settings, Granted(task, now))
    {
      refreshLock := Some(task);
      if !tasks[task].force {
        var needed := NeedsRefreshNow(now);
        if !needed {
          refreshLock := None;
          tasks := tasks - {task};
          return Some(cachedAllowedHosts);
        }
      }
      tasks := tasks[task := Querying(tasks[task].force)];
      hosts := None;
    }

    /** The end of `_refresh_cache_locked`; None stands for the exception it catches. */
    method RefreshCacheLocked(dbHosts: Option<Hosts>, now: int)
      modifies this`cachedAllowedHosts, this`lastRefresh, this`isInitialized
      ensures Value() == Refreshed(old(Value()), settings, dbHosts, now)
    {
      var allowedHosts := settings;
      if dbHosts.None? {
        if !isInitialized {
          cachedAllowedHosts := Dedupe(allowedHosts);
          isInitialized := true;
          lastRefresh := now;
        }
        return;
      }
      allowedHosts := allowedHosts + dbHosts.value;
      cachedAllowedHosts := Dedupe(allowedHosts);
      lastRefresh := now;
      isInitialized := true;
    }

    method OnQueryFinished(task: int, dbHosts: Option<Hosts>, now: int) returns (hosts: Hosts)
      requires Enabled(Value(), Finished(task, dbHosts, now))
      modifies this
      ensures Value() == Step(old(Value()), settings, Finished(task, dbHosts, now))
      ensures Some(hosts) == Returned(old(Value()), settings, Finished(task, dbHosts, now))
    {
      RefreshCacheLocked(dbHosts, now);
      refreshLock := None;
      tasks := tasks - {task};
      hosts := cachedAllowedHosts;
    }

    method OnCancelled(task: int, now: int)
      requires Enabled(Value(), Cancelled(task, now))
      modifies this
      ensures Value() == Step(old(Value()), settings, Cancelled(task, now))
    {
      if tasks[task].Querying? {
        refreshLock := None;
      }
      tasks := tasks - {task};
    }
  }
}
