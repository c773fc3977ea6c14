/**
 The single-flight cache of metric snapshots. `Look` and `Store` are its two critical sections;
 the callers of `get` run between them in any interleaving.
 */
module SnapshotCache {
  import opened Options

  type Scope = string
  type Snapshot = string
  type Channel = nat

  const DEFAULT_TTL := 30_000_000_000

  /** An entry has a wait channel while its snapshot is being loaded. */
  datatype Entry = Pending(wait: Channel) | Cached(snapshot: Snapshot, expires: int)

  /** `closes` counts how often each wait channel was closed. */
  datatype Cache = Cache(ttl: int, entries: map<Scope, Entry>, closes: seq<nat>)

  datatype Finding = Hit(snapshot: Snapshot) | Join(wait: Channel) | Lead(wait: Channel)

  // ---------- The critical sections

  function Look(c: Cache, scope: Scope, at: int): (r: (Cache, Finding)) {
    if scope in c.entries && c.entries[scope].Cached? && at < c.entries[scope].expires
      then (c, Hit(c.entries[scope].snapshot))
    else if scope in c.entries && c.entries[scope].Pending? then (c, Join(c.entries[scope].wait))
    else (c.(entries := c.entries[scope := Pending(|c.closes|)], closes := c.closes + [0]), Lead(|c.closes|))
  }

  function Store(c: Cache, scope: Scope, at: int, wait: Channel, outcome: Option<Snapshot>): Cache
    requires wait < |c.closes|
  {
    c.(entries := if outcome.Some? then c.entries[scope := Cached(outcome.value, at + c.ttl)] else c.entries - {scope},
       closes := c.closes[wait := c.closes[wait] + 1])
  }

  class MetricSnapshotCache {
    const ttl: int
    var entries: map<Scope, Entry>
    var closes: seq<nat>

    constructor (ttl: int)
      ensures View() == Cache(if ttl <= 0 then DEFAULT_TTL else ttl, map[], [])
    {
      this.ttl := if ttl <= 0 then DEFAULT_TTL else ttl;
      entries, closes := map[], [];
    }

    function View(): Cache
      reads this
    {
      Cache(ttl, entries, closes)
    }

    method LookUp(scope: Scope, at: int) returns (finding: Finding)
      modifies this
      ensures (View(), finding) == Look(old(View()), scope, at)
      ensures finding.Hit? <==> scope in old(entries) && old(entries)[scope].Cached? && at < old(entries)[scope].expires
      ensures finding.Hit? ==> finding.snapshot == old(entries)[scope].snapshot
      ensures finding.Join? ==> scope in old(entries) && old(entries)[scope] == Pending(finding.wait)
      ensures !finding.Lead? ==> entries == old(entries) && closes == old(closes)
      ensures finding.Lead? ==> entries == old(entries)[scope := Pending(finding.wait)] && closes[finding.wait..] == [0]
    {
      if scope in entries {
        var entry := entries[scope];
        if entry.Cached? && at < entry.expires {
          return Hit(entry.snapshot);
        }
        if entry.Pending? {
          return Join(entry.wait);
        }
      }
      var wait := |closes|;
      closes := closes + [0];
      entries := entries[scope := Pending(wait)];
      return Lead(wait);
    }

    method Finish(scope: Scope, at: int, wait: Channel, outcome: Option<Snapshot>)
      requires wait < |closes|
      modifies this
      ensures View() == Store(old(View()), scope, at, wait, outcome)
      ensures scope in entries <==> outcome.Some?
      ensures outcome.Some? ==> entries[scope] == Cached(outcome.value, at + ttl)
      ensures entries - {scope} == old(entries) - {scope}
      ensures closes[wait] == old(closes)[wait] + 1 && closes[..wait] == old(closes)[..wait]
      ensures closes[wait + 1..] == old(closes)[wait + 1..]
    {
      if outcome.Some? {
        entries := entries[scope := Cached(outcome.value, at + ttl)];
      } else {
        entries := entries - {scope};
      }
      closes := closes[wait := closes[wait] + 1];
    }
  }

  // ---------- The callers

  datatype Result = FromCache(snapshot: Snapshot) | FromLoad(outcome: Option<Snapshot>) | Cancelled

  /** Where a call of `get` stands: before its first critical section, waiting, loading, or before its second section */
  datatype Position =
    | Entering
    | Waiting(wait: Channel)
    | Loading(wait: Channel)
    | Loaded(wait: Channel, outcome: Option<Snapshot>)
    | Returned(result: Result)

  datatype Caller = Caller(scope: Scope, at: int, position: Position)

  /** A load that has returned */
  datatype Load = Load(scope: Scope, at: int, outcome: Option<Snapshot>)

  datatype State = State(cache: Cache, callers: seq<Caller>, loads: seq<Load>)

  datatype Action =
    | Call(scope: Scope, at: int)
    | Enter(i: nat)
    | Wake(i: nat)
    | Cancel(i: nat)
    | LoadReturns(i: nat, outcome: Option<Snapshot>)
    | Leave(i: nat)

  predicate At(st: State, i: nat) {
    i < |st.callers|
  }

  predicate Enabled(st: State, action: Action) {
    match action
    case Call(_, _) => true
    case Enter(i) => At(st, i) && st.callers[i].position.Entering?
    case Wake(i) => At(st, i) && st.callers[i].position.Waiting? && st.callers[i].position.wait < |st.cache.closes|
                    && st.cache.closes[st.callers[i].position.wait] > 0
    case Cancel(i) => At(st, i) && st.callers[i].position.Waiting?
    case LoadReturns(i, _) => At(st, i) && st.callers[i].position.Loading?
    case Leave(i) => At(st, i) && st.callers[i].position.Loaded? && st.callers[i].position.wait < |st.cache.closes|
  }

  function Move(st: State, i: nat, position: Position): State
    requires At(st, i)
  {
    st.(callers := st.callers[i := st.callers[i].(position := position)])
  }

  function PositionOf(f: Finding): Position {
    match f
    case Hit(snapshot) => Returned(FromCache(snapshot))
    case Join(wait) => Waiting(wait)
    case Lead(wait) => Loading(wait)
  }

  function Next(st: State, action: Action): State
    requires Enabled(st, action)
  {
    match action
    case Call(scope, at) => st.(callers := st.callers + [Caller(scope, at, Entering)])
    case Enter(i) =>
      var (cache, finding) := Look(st.cache, st.callers[i].scope, st.callers[i].at);
      Move(st, i, PositionOf(finding)).(cache := cache)
    case Wake(i) => Move(st, i, Entering)
    case Cancel(i) => Move(st, i, Returned(Cancelled))
    case LoadReturns(i, outcome) =>
      Move(st, i, Loaded(st.callers[i].position.wait, outcome)).(
        loads := st.loads + [Load(st.callers[i].scope, st.callers[i].at, outcome)])
    case Leave(i) =>
      var caller := st.callers[i];
      Move(st, i, Returned(FromLoad(caller.position.outcome))).(
        cache := Store(st.cache, caller.scope, caller.at, caller.position.wait, caller.position.outcome))
  }

  // ---------- The invariant

  /** The caller is the one that loads; its channel is `position.wait`. */
  predicate Leads(c: Caller) {
    c.position.Loading? || c.position.Loaded?
  }

  /** The pending entries are exactly those of the leading callers. */
  predicate LeadersPending(st: State) {
    forall i :: 0 <= i < |st.callers| && Leads(st.callers[i]) ==>
      st.callers[i].scope in st.cache.entries
        && st.cache.entries[st.callers[i].scope] == Pending(st.callers[i].position.wait)
  }

  predicate PendingLed(st: State) {
    forall scope :: scope in st.cache.entries && st.cache.entries[scope].Pending? ==>
      exists i :: 0 <= i < |st.callers| && st.callers[i].scope == scope && Leads(st.callers[i])
  }

  predicate OneLeader(st: State) {
    forall i, j :: 0 <= i < j < |st.callers| && Leads(st.callers[i]) && Leads(st.callers[j]) ==>
      st.callers[i].position.wait != st.callers[j].position.wait
  }

  /** A channel is open exactly while its leader is at work, and closed once otherwise. */
  predicate LeadersOpen(st: State) {
    forall i :: 0 <= i < |st.callers| && Leads(st.callers[i]) ==>
      st.callers[i].position.wait < |st.cache.closes| && st.cache.closes[st.callers[i].position.wait] == 0
  }

  predicate OpenLed(st: State) {
    forall w :: 0 <= w < |st.cache.closes| && st.cache.closes[w] == 0 ==>
      exists i :: 0 <= i < |st.callers| && Leads(st.callers[i]) && st.callers[i].position.wait == w
  }

  predicate ClosedOnce(st: State) {
    forall w :: 0 <= w < |st.cache.closes| ==> st.cache.closes[w] <= 1
  }

  /** A waiting caller's channel is closed, or it is the current one of its scope. */
  predicate NoLostWake(st: State) {
    forall i :: 0 <= i < |st.callers| && st.callers[i].position.Waiting? ==>
      && st.callers[i].position.wait < |st.cache.closes|
      && (|| st.cache.closes[st.callers[i].position.wait] == 1
          || (st.callers[i].scope in st.cache.entries
              && st.cache.entries[st.callers[i].scope] == Pending(st.callers[i].position.wait)))
  }

  /** The snapshot comes from a successful load of the scope that expires at `expires`. */
  predicate Genuine(st: State, scope: Scope, snapshot: Snapshot, expires: int) {
    LoadedBy(st.loads, st.cache.ttl, scope, snapshot, expires)
  }

  predicate CacheGenuine(st: State) {
    forall scope :: scope in st.cache.entries && st.cache.entries[scope].Cached? ==>
      Genuine(st, scope, st.cache.entries[scope].snapshot, st.cache.entries[scope].expires)
  }

  ghost predicate Fresh(st: State, c: Caller, snapshot: Snapshot) {
    exists expires :: c.at < expires && Genuine(st, c.scope, snapshot, expires)
  }

  ghost predicate ResultsGenuine(st: State) {
    forall i :: 0 <= i < |st.callers| ==>
      match st.callers[i].position
      case Returned(FromCache(snapshot)) => Fresh(st, st.callers[i], snapshot)
      case Returned(FromLoad(outcome)) => Load(st.callers[i].scope, st.callers[i].at, outcome) in st.loads
      case Loaded(_, outcome) => Load(st.callers[i].scope, st.callers[i].at, outcome) in st.loads
      case _ => true
  }

  ghost predicate Inv(st: State) {
    LeadersPending(st) && PendingLed(st) && OneLeader(st) && LeadersOpen(st) && OpenLed(st) && ClosedOnce(st)
      && NoLostWake(st) && CacheGenuine(st) && ResultsGenuine(st)
  }

  // ---------- Every step keeps it

  lemma LoadsOnlyGrow(st: State, next: State, scope: Scope, snapshot: Snapshot, expires: int)
    requires st.loads <= next.loads && st.cache.ttl == next.cache.ttl && Genuine(st, scope, snapshot, expires)
    ensures Genuine(next, scope, snapshot, expires)
  {
    var k :| 0 <= k < |st.loads| && st.loads[k].scope == scope && st.loads[k].outcome == Some(snapshot)
      && st.loads[k].at + st.cache.ttl == expires;
    assert next.loads[k] == st.loads[k];
  }

  /** Only the leader of a channel can be its leader after a step, unless the channel is new. */
  lemma LeadsOn(st: State, action: Action, i: nat)
    requires Enabled(st, action)
    ensures var next := Next(st, action);
            i < |next.callers| && Leads(next.callers[i]) ==>
              && i < |st.callers| && next.callers[i].scope == st.callers[i].scope
              && (if Leads(st.callers[i]) then next.callers[i].position.wait == st.callers[i].position.wait
                  else action == Enter(i) && next.callers[i].position == Loading(|st.cache.closes|)
                       && next.cache == Look(st.cache, st.callers[i].scope, st.callers[i].at).0
                       && next.cache.entries == st.cache.entries[st.callers[i].scope := Pending(|st.cache.closes|)]
                       && next.cache.closes == st.cache.closes + [0])
  {
  }

  lemma NextKeepsOneLeader(st: State, action: Action)
    requires OneLeader(st) && LeadersOpen(st) && Enabled(st, action)
    ensures OneLeader(Next(st, action))
  {
    var next := Next(st, action);
    forall i, j | 0 <= i < j < |next.callers| && Leads(next.callers[i]) && Leads(next.callers[j])
      ensures next.callers[i].position.wait != next.callers[j].position.wait
    {
      LeadsOn(st, action, i);
      LeadsOn(st, action, j);
    }
  }

  /** What a step does to the cache */
  lemma CacheMoves(st: State, action: Action)
    requires Enabled(st, action)
    ensures var cache := Next(st, action).cache;
            match action
            case Leave(i) => cache == Store(st.cache, st.callers[i].scope, st.callers[i].at,
                                            st.callers[i].position.wait, st.callers[i].position.outcome)
            case Enter(i) => cache == Look(st.cache, st.callers[i].scope, st.callers[i].at).0
            case _ => cache == st.cache
  {
  }

  lemma NextKeepsLeaders(st: State, action: Action)
    requires LeadersPending(st) && OneLeader(st) && LeadersOpen(st) && Enabled(st, action)
    ensures LeadersPending(Next(st, action)) && LeadersOpen(Next(st, action))
  {
    var next := Next(st, action);
    CacheMoves(st, action);
    forall i | 0 <= i < |next.callers| && Leads(next.callers[i])
      ensures next.callers[i].scope in next.cache.entries
      ensures next.cache.entries[next.callers[i].scope] == Pending(next.callers[i].position.wait)
      ensures next.callers[i].position.wait < |next.cache.closes|
      ensures next.cache.closes[next.callers[i].position.wait] == 0
    {
      LeadsOn(st, action, i);
      if action.Leave? {
        var k := action.i;
        assert Leads(st.callers[k]) && i != k;
        assert st.callers[i].position.wait != st.callers[k].position.wait;
        assert st.cache.entries[st.callers[k].scope] == Pending(st.callers[k].position.wait);
        assert next.callers[i] == st.callers[i];
      }
    }
  }

  lemma NextKeepsPending(st: State, action: Action)
    requires PendingLed(st) && LeadersPending(st) && OneLeader(st) && Enabled(st, action)
    ensures PendingLed(Next(st, action))
  {
    var next := Next(st, action);
    CacheMoves(st, action);
    forall scope | scope in next.cache.entries && next.cache.entries[scope].Pending?
      ensures exists i :: 0 <= i < |next.callers| && next.callers[i].scope == scope && Leads(next.callers[i])
    {
      if scope in st.cache.entries && st.cache.entries[scope].Pending? {
        var i :| 0 <= i < |st.callers| && st.callers[i].scope == scope && Leads(st.callers[i]);
        assert next.callers[i].scope == scope;
      } else {
        assert next.callers[action.i].scope == scope;
      }
    }
  }

  lemma NextKeepsOpen(st: State, action: Action)
    requires OpenLed(st) && LeadersOpen(st) && ClosedOnce(st) && Enabled(st, action)
    ensures OpenLed(Next(st, action)) && ClosedOnce(Next(st, action))
  {
    var next := Next(st, action);
    CacheMoves(st, action);
    forall w | 0 <= w < |next.cache.closes| && next.cache.closes[w] == 0
      ensures exists i :: 0 <= i < |next.callers| && Leads(next.callers[i]) && next.callers[i].position.wait == w
    {
      if w < |st.cache.closes| {
        var i :| 0 <= i < |st.callers| && Leads(st.callers[i]) && st.callers[i].position.wait == w;
        assert Leads(next.callers[i]);
      } else {
        assert Leads(next.callers[action.i]);
      }
    }
  }

  lemma NextKeepsWaiters(st: State, action: Action)
    requires NoLostWake(st) && PendingLed(st) && LeadersPending(st) && LeadersOpen(st) && ClosedOnce(st)
    requires Enabled(st, action)
    ensures NoLostWake(Next(st, action))
  {
    var next := Next(st, action);
    CacheMoves(st, action);
    forall i | 0 <= i < |next.callers| && next.callers[i].position.Waiting?
      ensures next.callers[i].position.wait < |next.cache.closes|
      ensures || next.cache.closes[next.callers[i].position.wait] == 1
              || (next.callers[i].scope in next.cache.entries
                  && next.cache.entries[next.callers[i].scope] == Pending(next.callers[i].position.wait))
    {
      if i < |st.callers| && st.callers[i] == next.callers[i] {
        assert action.Leave? ==>
            st.cache.entries[st.callers[action.i].scope] == Pending(st.callers[action.i].position.wait);
      } else {
        assert action == Enter(i) && st.cache.entries[st.callers[i].scope].Pending?;
        var leader :| 0 <= leader < |st.callers| && st.callers[leader].scope == st.callers[i].scope
          && Leads(st.callers[leader]);
        assert st.cache.entries[st.callers[leader].scope] == Pending(st.callers[leader].position.wait);
      }
    }
  }

  lemma NextKeepsGenuine(st: State, action: Action)
    requires Inv(st) && Enabled(st, action)
    ensures CacheGenuine(Next(st, action))
  {
    var next := Next(st, action);
    forall scope | scope in next.cache.entries && next.cache.entries[scope].Cached?
      ensures Genuine(next, scope, next.cache.entries[scope].snapshot, next.cache.entries[scope].expires)
    {
      if scope in st.cache.entries && next.cache.entries[scope] == st.cache.entries[scope] {
        LoadsOnlyGrow(st, next, scope, st.cache.entries[scope].snapshot, st.cache.entries[scope].expires);
      } else {
        var caller := st.callers[action.i];
        assert Load(caller.scope, caller.at, caller.position.outcome) in next.loads;
      }
    }
  }

  lemma NextKeepsResults(st: State, action: Action)
    requires Inv(st) && Enabled(st, action)
    ensures ResultsGenuine(Next(st, action))
  {
    var next := Next(st, action);
    forall i | 0 <= i < |next.callers| && next.callers[i].position.Returned?
      && next.callers[i].position.result.FromCache?
      ensures Fresh(next, next.callers[i], next.callers[i].position.result.snapshot)
    {
      var caller, snapshot := next.callers[i], next.callers[i].position.result.snapshot;
      if i < |st.callers| && st.callers[i] == caller {
        var expires :| caller.at < expires && Genuine(st, caller.scope, snapshot, expires);
        LoadsOnlyGrow(st, next, caller.scope, snapshot, expires);
      } else {
        LoadsOnlyGrow(st, next, caller.scope, snapshot, st.cache.entries[caller.scope].expires);
      }
    }
  }

  lemma NextKeeps(st: State, action: Action)
    requires Inv(st) && Enabled(st, action)
    ensures Inv(Next(st, action))
  {
    NextKeepsOneLeader(st, action);
    NextKeepsLeaders(st, action);
    NextKeepsPending(st, action);
    NextKeepsOpen(st, action);
    NextKeepsWaiters(st, action);
    NextKeepsGenuine(st, action);
    NextKeepsResults(st, action);
  }

  predicate Run(ttl: int, states: seq<State>, actions: seq<Action>) {
    && |states| == |actions| + 1 && states[0] == State(Cache(ttl, map[], []), [], [])
    && forall k :: 0 <= k < |actions| ==> Enabled(states[k], actions[k]) && states[k + 1] == Next(states[k], actions[k])
  }

  lemma {:induction false} RunsKeep(ttl: int, states: seq<State>, actions: seq<Action>, n: nat)
    requires Run(ttl, states, actions) && n < |states|
    ensures Inv(states[n])
  {
    if n > 0 {
      RunsKeep(ttl, states, actions, n - 1);
      assert Enabled(states[n - 1], actions[n - 1]);
      NextKeeps(states[n - 1], actions[n - 1]);
    }
  }

  // ---------- What holds of every run

  /** At most one caller loads a scope, and one does exactly when the scope's entry has a wait channel. */
  lemma SingleFlight(ttl: int, states: seq<State>, actions: seq<Action>, n: nat, scope: Scope)
    requires Run(ttl, states, actions) && n < |states|
    ensures var st := states[n];
            && (forall i, j :: 0 <= i < j < |st.callers| ==>
                  !(st.callers[i].scope == scope == st.callers[j].scope && Leads(st.callers[i])
                    && Leads(st.callers[j])))
            && ((exists i :: 0 <= i < |st.callers| && st.callers[i].scope == scope && Leads(st.callers[i])) <==>
                scope in st.cache.entries && st.cache.entries[scope].Pending?)
  {
    RunsKeep(ttl, states, actions, n);
  }

  /**
   A waiting caller's channel is closed already, or the caller that will close it is still at work;
   no channel is closed twice.
   */
  lemma EveryWaiterIsWoken(ttl: int, states: seq<State>, actions: seq<Action>, n: nat, i: nat)
    requires Run(ttl, states, actions) && n < |states| && i < |states[n].callers|
    requires states[n].callers[i].position.Waiting?
    ensures var st, wait := states[n], states[n].callers[i].position.wait;
            && (forall w :: 0 <= w < |st.cache.closes| ==> st.cache.closes[w] <= 1)
            && (Enabled(st, Wake(i)) ||
                exists j :: 0 <= j < |st.callers| && st.callers[j].scope == st.callers[i].scope && Leads(st.callers[j])
                            && st.callers[j].position.wait == wait)
  {
    RunsKeep(ttl, states, actions, n);
    var st := states[n];
    var caller := st.callers[i];
    if st.cache.closes[caller.position.wait] != 1 {
      var j :| 0 <= j < |st.callers| && st.callers[j].scope == caller.scope && Leads(st.callers[j]);
      assert st.cache.entries[st.callers[j].scope] == Pending(st.callers[j].position.wait);
    }
  }

  /** A load of the scope succeeded with this snapshot, which `expires` then. */
  predicate LoadedBy(loads: seq<Load>, ttl: int, scope: Scope, snapshot: Snapshot, expires: int) {
    exists k :: 0 <= k < |loads| && loads[k].scope == scope && loads[k].outcome == Some(snapshot)
      && loads[k].at + ttl == expires
  }

  /** Every cached entry, hit or not, is the outcome of a successful load of its scope: failures are never cached. */
  lemma FailuresAreNeverCached(ttl: int, states: seq<State>, actions: seq<Action>, n: nat, scope: Scope)
    requires Run(ttl, states, actions) && n < |states|
    requires scope in states[n].cache.entries && states[n].cache.entries[scope].Cached?
    ensures var entry := states[n].cache.entries[scope];
            LoadedBy(states[n].loads, ttl, scope, entry.snapshot, entry.expires)
  {
    RunsKeep(ttl, states, actions, n);
    TtlStays(ttl, states, actions, n);
    assert Genuine(states[n], scope, states[n].cache.entries[scope].snapshot, states[n].cache.entries[scope].expires);
  }

  /** A hit is the snapshot of a successful load of the same scope that had not expired at the caller's time. */
  lemma HitsAreGenuine(ttl: int, states: seq<State>, actions: seq<Action>, n: nat, i: nat)
    requires Run(ttl, states, actions) && n < |states| && i < |states[n].callers|
    requires states[n].callers[i].position.Returned? && states[n].callers[i].position.result.FromCache?
    ensures var st, caller := states[n], states[n].callers[i];
            exists expires :: caller.at < expires
              && LoadedBy(st.loads, ttl, caller.scope, caller.position.result.snapshot, expires)
  {
    RunsKeep(ttl, states, actions, n);
    TtlStays(ttl, states, actions, n);
    var st, caller := states[n], states[n].callers[i];
    assert Fresh(st, caller, caller.position.result.snapshot);
    var expires :| caller.at < expires && Genuine(st, caller.scope, caller.position.result.snapshot, expires);
    assert LoadedBy(st.loads, ttl, caller.scope, caller.position.result.snapshot, expires);
  }

  lemma {:induction false} TtlStays(ttl: int, states: seq<State>, actions: seq<Action>, n: nat)
    requires Run(ttl, states, actions) && n < |states|
    ensures states[n].cache.ttl == ttl
  {
    if n > 0 {
      TtlStays(ttl, states, actions, n - 1);
      assert states[n] == Next(states[n - 1], actions[n - 1]);
    }
  }

  // ---------- What the cache holds

  /** Among the first `n` steps, the last that ended a load of the scope */
  ghost function LastLeave(states: seq<State>, actions: seq<Action>, n: nat, scope: Scope): (k: Option<nat>)
    requires n <= |actions| <= |states|
    ensures k.Some? ==> k.value < n && EndsLoad(states[k.value], actions[k.value], scope)
  {
    if n == 0 then None
    else if EndsLoad(states[n - 1], actions[n - 1], scope) then Some(n - 1)
    else LastLeave(states, actions, n - 1, scope)
  }

  predicate EndsLoad(st: State, action: Action, scope: Scope) {
    action.Leave? && Enabled(st, action) && st.callers[action.i].scope == scope
  }

  /** What the last load of the scope that ended has left: its snapshot until it expires, or nothing if it failed */
  ghost function Left(states: seq<State>, actions: seq<Action>, n: nat, scope: Scope): Option<Entry>
    requires n <= |actions| <= |states|
  {
    var k := LastLeave(states, actions, n, scope);
    if k.None? then None
    else
      var caller := states[k.value].callers[actions[k.value].i];
      if caller.position.outcome.None? then None
      else Some(Cached(caller.position.outcome.value, caller.at + states[k.value].cache.ttl))
  }

  function EntryOf(c: Cache, scope: Scope): Option<Entry> {
    if scope in c.entries then Some(c.entries[scope]) else None
  }

  /** A step that does not end a load of the scope leaves its entry, or makes it pending. */
  lemma EntryMoves(st: State, action: Action, scope: Scope)
    requires Enabled(st, action)
    ensures var entry := EntryOf(Next(st, action).cache, scope);
            if EndsLoad(st, action, scope) then
              var caller := st.callers[action.i];
              entry == if caller.position.outcome.None? then None
                       else Some(Cached(caller.position.outcome.value, caller.at + st.cache.ttl))
            else entry == EntryOf(st.cache, scope) || (entry.Some? && entry.value.Pending?)
  {
  }

  lemma {:induction false} EntryIsLeft(ttl: int, states: seq<State>, actions: seq<Action>, n: nat, scope: Scope)
    requires Run(ttl, states, actions) && n < |states|
    ensures var entry := EntryOf(states[n].cache, scope);
            entry == Left(states, actions, n, scope) || (entry.Some? && entry.value.Pending?)
  {
    if n > 0 {
      EntryIsLeft(ttl, states, actions, n - 1, scope);
      assert Enabled(states[n - 1], actions[n - 1]) && states[n] == Next(states[n - 1], actions[n - 1]);
      EntryMoves(states[n - 1], actions[n - 1], scope);
    }
  }

  ghost predicate Led(st: State, scope: Scope) {
    exists i :: 0 <= i < |st.callers| && st.callers[i].scope == scope && Leads(st.callers[i])
  }

  /**
   While nobody loads a scope, the cache holds what the last load of it left: the snapshot, with the
   time to live counted from the loading caller's time, or nothing after a failure.
   */
  lemma CacheHoldsTheLastLoad(ttl: int, states: seq<State>, actions: seq<Action>, n: nat, scope: Scope)
    requires Run(ttl, states, actions) && n < |states| && !Led(states[n], scope)
    ensures EntryOf(states[n].cache, scope) == Left(states, actions, n, scope)
    ensures var k := LastLeave(states, actions, n, scope);
            k.Some? ==>
              var caller := states[k.value].callers[actions[k.value].i];
              Left(states, actions, n, scope) == match caller.position.outcome
                case None => None
                case Some(x) => Some(Cached(x, caller.at + ttl))
  {
    EntryIsLeft(ttl, states, actions, n, scope);
    SingleFlight(ttl, states, actions, n, scope);
    var k := LastLeave(states, actions, n, scope);
    if k.Some? {
      TtlStays(ttl, states, actions, k.value);
    }
  }

  /**
   Where a caller goes from its first critical section: it waits for whoever loads the scope; if
   nobody does, it returns what the last load left, exactly if its own time is before that expires,
   and otherwise loads.
   */
  lemma EnteringIsDecided(ttl: int, states: seq<State>, actions: seq<Action>, n: nat, i: nat)
    requires Run(ttl, states, actions) && n < |states| && Enabled(states[n], Enter(i))
    ensures var st, caller := states[n], states[n].callers[i];
            var left, next := Left(states, actions, n, caller.scope), Next(st, Enter(i)).callers[i].position;
            if Led(st, caller.scope) then
              exists j :: 0 <= j < |st.callers| && st.callers[j].scope == caller.scope && Leads(st.callers[j])
                          && next == Waiting(st.callers[j].position.wait)
            else if left.Some? && caller.at < left.value.expires then next == Returned(FromCache(left.value.snapshot))
            else next.Loading?
  {
    var st, caller := states[n], states[n].callers[i];
    RunsKeep(ttl, states, actions, n);
    SingleFlight(ttl, states, actions, n, caller.scope);
    if !Led(st, caller.scope) {
      CacheHoldsTheLastLoad(ttl, states, actions, n, caller.scope);
    } else {
      var j :| 0 <= j < |st.callers| && st.callers[j].scope == caller.scope && Leads(st.callers[j]);
      assert st.cache.entries[st.callers[j].scope] == Pending(st.callers[j].position.wait);
    }
  }

  // ---------- Callers and their actions

  /** Caller `i` made this call. */
  ghost predicate Made(states: seq<State>, actions: seq<Action>, n: nat, i: nat, scope: Scope, at: int)
    requires n <= |actions| <= |states|
  {
    exists k :: 0 <= k < n && actions[k] == Call(scope, at) && |states[k].callers| == i
  }

  /** The load of caller `i` returned this. */
  ghost predicate LoadGave(actions: seq<Action>, n: nat, i: nat, outcome: Option<Snapshot>)
    requires n <= |actions|
  {
    exists k :: 0 <= k < n && actions[k] == LoadReturns(i, outcome)
  }

  /** What a caller holds came from its own call and its own load. */
  ghost predicate OwnBusiness(states: seq<State>, actions: seq<Action>, n: nat, i: nat, c: Caller)
    requires n <= |actions| <= |states|
  {
    && Made(states, actions, n, i, c.scope, c.at)
    && (c.position.Loaded? ==> LoadGave(actions, n, i, c.position.outcome))
    && (c.position.Returned? && c.position.result.FromLoad? ==> LoadGave(actions, n, i, c.position.result.outcome))
  }

  /** How a step changes one caller */
  lemma CallerMoves(st: State, action: Action, i: nat)
    requires Enabled(st, action) && i < |Next(st, action).callers|
    ensures var c := Next(st, action).callers[i];
            if i == |st.callers| then action == Call(c.scope, c.at) && c.position.Entering?
            else
              && i < |st.callers| && c.scope == st.callers[i].scope && c.at == st.callers[i].at
              && (c.position.Loaded? ==>
                    c.position == st.callers[i].position || action == LoadReturns(i, c.position.outcome))
              && (c.position.Returned? && c.position.result.FromLoad? ==>
                    || c.position == st.callers[i].position
                    || (st.callers[i].position.Loaded? && st.callers[i].position.outcome == c.position.result.outcome))
  {
  }

  lemma {:induction false} CallersMindTheirOwn(ttl: int, states: seq<State>, actions: seq<Action>, n: nat, i: nat)
    requires Run(ttl, states, actions) && n < |states| && i < |states[n].callers|
    ensures OwnBusiness(states, actions, n, i, states[n].callers[i])
  {
    if n > 0 {
      assert Enabled(states[n - 1], actions[n - 1]) && states[n] == Next(states[n - 1], actions[n - 1]);
      CallerMoves(states[n - 1], actions[n - 1], i);
      if i < |states[n - 1].callers| {
        CallersMindTheirOwn(ttl, states, actions, n - 1, i);
      }
    }
  }
}
