/**
 What every step of the query protocol keeps: the session registry, the two semaphores and
 the pending maps. Nothing here assumes that request identifiers are unique.
 */
module QueryTokens {
  import opened Options
  import opened QueryTypes
  import opened QueryMachine

  // ---------- The registry

  ghost predicate Superseded(s: State, i: nat)
    requires i < |s.sessions|
  {
    exists j :: i < j < |s.sessions| && s.sessions[j].installation == s.sessions[i].installation
  }

  /**
   The registry holds exactly the sessions that nobody asked to close, and a session that is
   being closed has either ended its own stream or been replaced by a later one.
   */
  ghost predicate RegistryInv(s: State) {
    && s.WellIndexed()
    && (forall n :: n in s.registry ==>
          s.sessions[s.registry[n]].installation == n && !s.sessions[s.registry[n]].closing)
    && (forall i :: 0 <= i < |s.sessions| && !s.sessions[i].closing ==>
          s.sessions[i].installation in s.registry && s.registry[s.sessions[i].installation] == i)
    && (forall i :: 0 <= i < |s.sessions| && s.sessions[i].installation in s.registry ==>
          i <= s.registry[s.sessions[i].installation])
    && (forall i :: 0 <= i < |s.sessions| && s.sessions[i].closing && !s.sessions[i].pump.Exited? ==> Superseded(s, i))
    && (forall i :: 0 <= i < |s.sessions| ==> SessionFlags(s.sessions[i]))
  }

  predicate SessionFlags(s: Session) {
    && (s.cleared ==> s.done)
    && (s.done ==> s.closing)
    && (s.pump.Exited? ==> s.closing)
  }

  lemma QueryKeepsFlags(l: Local, q: nat, a: QueryAction)
    requires QueryEnabled(l, q, a)
    ensures var r := QueryNext(l, q, a).session;
            && r.installation == l.session.installation && r.closing == l.session.closing
            && r.done == l.session.done && r.cleared == l.session.cleared && r.pump.Exited? == l.session.pump.Exited?
  {
  }

  lemma SessionKeepsFlags(s: Session, a: SessionAction)
    requires SessionEnabled(s, a) && SessionFlags(s)
    ensures var r := SessionNext(s, a);
            && r.installation == s.installation && r.closing == s.closing && r.cleared == s.cleared
            && SessionFlags(r) && r.pump.Exited? == s.pump.Exited? && (s.done ==> r.done)
  {
  }

  lemma SupersededStays(s: State, s': State, i: nat)
    requires i < |s.sessions| <= |s'.sessions| && Superseded(s, i)
    requires forall j :: 0 <= j < |s.sessions| ==> s'.sessions[j].installation == s.sessions[j].installation
    ensures Superseded(s', i)
  {
    var j :| i < j < |s.sessions| && s.sessions[j].installation == s.sessions[i].installation;
    assert s'.sessions[j].installation == s'.sessions[i].installation;
  }

  /** Steps that leave registry, closing flags and exits alone keep the invariant. */
  lemma RegistryFrame(s: State, s': State)
    requires RegistryInv(s) && s'.WellIndexed() && s'.registry == s.registry && |s'.sessions| == |s.sessions|
    requires forall j :: 0 <= j < |s.sessions| ==>
               && s'.sessions[j].installation == s.sessions[j].installation
               && s'.sessions[j].closing == s.sessions[j].closing
               && s'.sessions[j].pump.Exited? == s.sessions[j].pump.Exited? && SessionFlags(s'.sessions[j])
    ensures RegistryInv(s')
  {
    forall i | 0 <= i < |s'.sessions| && s'.sessions[i].closing && !s'.sessions[i].pump.Exited?
      ensures Superseded(s', i)
    {
      SupersededStays(s, s', i);
    }
  }

  /** From `s` to `s'` a session was registered: the replaced one is asked to close, nothing else changes. */
  predicate Registered(s: State, s': State, n: InstallationId) {
    && s'.WellIndexed() && s'.registry == s.registry[n := |s.sessions|]
    && |s'.sessions| == |s.sessions| + 1 && s'.sessions[|s.sessions|] == NewSession(n)
    && forall i :: 0 <= i < |s.sessions| ==>
         s'.sessions[i] == s.sessions[i].(closing := s.sessions[i].closing || (n in s.registry && s.registry[n] == i))
  }

  lemma RegisterEffect(s: State, n: InstallationId)
    requires RegistryInv(s)
    ensures Registered(s, Next(s, Register(n)), n)
  {
    NextWellIndexed(s, Register(n));
  }

  lemma RegisteredSuperseded(s: State, s': State, n: InstallationId, i: nat)
    requires RegistryInv(s) && Registered(s, s', n)
    requires i < |s'.sessions| && s'.sessions[i].closing && !s'.sessions[i].pump.Exited?
    ensures Superseded(s', i)
  {
    if s.sessions[i].closing {
      SupersededStays(s, s', i);
    } else {
      assert s'.sessions[|s.sessions|].installation == s'.sessions[i].installation;
    }
  }

  lemma RegisteredOpen(s: State, s': State, n: InstallationId, i: nat)
    requires RegistryInv(s) && Registered(s, s', n) && i < |s'.sessions| && !s'.sessions[i].closing
    ensures s'.sessions[i].installation in s'.registry && s'.registry[s'.sessions[i].installation] == i
  {
    if i < |s.sessions| {
      assert !s.sessions[i].closing;
    }
  }

  lemma RegisteredKeepsRegistry(s: State, s': State, n: InstallationId)
    requires RegistryInv(s) && Registered(s, s', n)
    ensures RegistryInv(s')
  {
    forall i | 0 <= i < |s'.sessions| && s'.sessions[i].closing && !s'.sessions[i].pump.Exited?
      ensures Superseded(s', i)
    {
      RegisteredSuperseded(s, s', n, i);
    }
    forall i | 0 <= i < |s'.sessions| && !s'.sessions[i].closing
      ensures s'.sessions[i].installation in s'.registry && s'.registry[s'.sessions[i].installation] == i
    {
      RegisteredOpen(s, s', n, i);
    }
  }

  lemma RegisterKeepsRegistry(s: State, n: InstallationId)
    requires RegistryInv(s)
    ensures RegistryInv(Next(s, Register(n)))
  {
    RegisterEffect(s, n);
    RegisteredKeepsRegistry(s, Next(s, Register(n)), n);
  }

  lemma UnregisterKeepsRegistry(s: State, i: nat)
    requires RegistryInv(s) && Enabled(s, Unregister(i))
    ensures RegistryInv(Next(s, Unregister(i)))
  {
    var s' := Next(s, Unregister(i));
    NextWellIndexed(s, Unregister(i));
    forall k | 0 <= k < |s'.sessions| && s'.sessions[k].closing && !s'.sessions[k].pump.Exited?
      ensures Superseded(s', k)
    {
      SupersededStays(s, s', k);
    }
  }

  lemma NextKeepsRegistry(s: State, a: Action)
    requires RegistryInv(s) && Enabled(s, a)
    ensures RegistryInv(Next(s, a))
  {
    var s' := Next(s, a);
    NextWellIndexed(s, a);
    match a
    case Start(_, _) => RegistryFrame(s, s');
    case ByQuery(q, qa) =>
      QueryKeepsFlags(LocalView(s, q), q, qa);
      RegistryFrame(s, s');
    case BySession(i, sa) =>
      SessionKeepsFlags(s.sessions[i], sa);
      RegistryFrame(s, s');
    case CloseClear(i) => RegistryFrame(s, s');
    case Register(n) => RegisterKeepsRegistry(s, n);
    case Unregister(i) => UnregisterKeepsRegistry(s, i);
  }

  // ---------- The semaphores

  function GlobalHolders(queries: seq<Query>): set<nat> {
    set q | 0 <= q < |queries| && queries[q].position.HasGlobal()
  }

  function ActiveHolders(queries: seq<Query>, i: nat): set<nat> {
    set q | 0 <= q < |queries| && queries[q].session == i && queries[q].position.HasActive()
  }

  /** Every token is held by exactly one query that is on its way. */
  ghost predicate TokenInv(s: State) {
    && s.WellIndexed()
    && s.global == |GlobalHolders(s.queries)| <= MAX_QUERIES_GLOBAL
    && forall i :: 0 <= i < |s.sessions| ==>
         s.sessions[i].active == |ActiveHolders(s.queries, i)| <= MAX_QUERIES_PER_CLUSTER
  }

  lemma SetQueryHolders(queries: seq<Query>, q: nat, v: Query)
    requires q < |queries| && v.session == queries[q].session
    ensures GlobalHolders(queries[q := v]) ==
            if v.position.HasGlobal() then GlobalHolders(queries) + {q} else GlobalHolders(queries) - {q}
    ensures forall i ::
              ActiveHolders(queries[q := v], i) ==
              if i == v.session && v.position.HasActive() then ActiveHolders(queries, i) + {q}
                else ActiveHolders(queries, i) - {q}
  {
  }

  lemma QueryKeepsTokens(l: Local, q: nat, a: QueryAction)
    requires QueryEnabled(l, q, a)
    ensures var r := QueryNext(l, q, a);
            && r.query.session == l.query.session
            && r.global - l.global == Count(r.query.position.HasGlobal()) - Count(l.query.position.HasGlobal())
            && r.session.active - l.session.active ==
              Count(r.query.position.HasActive()) - Count(l.query.position.HasActive())
            && (r.global > l.global ==> r.global <= MAX_QUERIES_GLOBAL)
            && (r.session.active > l.session.active ==> r.session.active <= MAX_QUERIES_PER_CLUSTER)
  {
  }

  function Count(b: bool): int { if b then 1 else 0 }

  lemma SameHolders(a: seq<Query>, b: seq<Query>)
    requires |a| == |b|
    requires forall q :: 0 <= q < |a| ==> a[q].position == b[q].position && a[q].session == b[q].session
    ensures GlobalHolders(a) == GlobalHolders(b)
    ensures forall i :: ActiveHolders(a, i) == ActiveHolders(b, i)
  {
  }

  lemma ByQueryKeepsTokens(s: State, q: nat, a: QueryAction)
    requires TokenInv(s) && Enabled(s, ByQuery(q, a))
    ensures TokenInv(Next(s, ByQuery(q, a)))
  {
    NextWellIndexed(s, ByQuery(q, a));
    var s' := Next(s, ByQuery(q, a));
    var l := LocalView(s, q);
    QueryKeepsTokens(l, q, a);
    SetQueryHolders(s.queries, q, QueryNext(l, q, a).query);
    assert q in GlobalHolders(s.queries) <==> l.query.position.HasGlobal();
    forall i | 0 <= i < |s'.sessions|
      ensures s'.sessions[i].active == |ActiveHolders(s'.queries, i)| <= MAX_QUERIES_PER_CLUSTER
    {
      assert q in ActiveHolders(s.queries, i) <==> i == l.query.session && l.query.position.HasActive();
    }
  }

  lemma SessionKeepsActive(s: Session, a: SessionAction)
    requires SessionEnabled(s, a)
    ensures SessionNext(s, a).active == s.active
  {
  }

  lemma NextKeepsTokens(s: State, a: Action)
    requires TokenInv(s) && Enabled(s, a)
    ensures TokenInv(Next(s, a))
  {
    var s' := Next(s, a);
    NextWellIndexed(s, a);
    match a
    case Start(n, id) =>
      assert GlobalHolders(s'.queries) == GlobalHolders(s.queries);
      assert forall i :: ActiveHolders(s'.queries, i) == ActiveHolders(s.queries, i);
    case ByQuery(q, qa) => ByQueryKeepsTokens(s, q, qa);
    case BySession(i, sa) => SessionKeepsActive(s.sessions[i], sa);
    case CloseClear(i) => SameHolders(s.queries, s'.queries);
    case Register(n) => assert ActiveHolders(s.queries, |s.sessions|) == {};
    case Unregister(i) =>
  }

  // ---------- The pending maps

  /**
   Pending entries belong to queries that are on their way, and such a query has its entry until
   the map is emptied.
   */
  ghost predicate PendingInv(s: State) {
    && s.WellIndexed()
    && (forall i, r :: 0 <= i < |s.sessions| && r in s.sessions[i].pending ==> Owns(s, s.sessions[i].pending[r], i, r))
    && (forall q :: 0 <= q < |s.queries| ==> HasOwnEntry(s.queries[q], q, s.sessions[s.queries[q].session]))
  }

  predicate Owns(s: State, q: nat, i: nat, r: RequestId) {
    q < |s.queries| && s.queries[q].session == i && s.queries[q].id == r && s.queries[q].position.HasEntry()
  }

  predicate HasOwnEntry(query: Query, q: nat, session: Session) {
    query.position.HasEntry() && !session.cleared ==> query.id in session.pending && session.pending[query.id] == q
  }

  /** Effect of a query's step on the pending map: its own entry only */
  lemma QueryPending(l: Local, q: nat, a: QueryAction)
    requires QueryEnabled(l, q, a) && HasOwnEntry(l.query, q, l.session)
    ensures var r := QueryNext(l, q, a);
            && r.query.id == l.query.id && r.query.session == l.query.session && r.session.cleared == l.session.cleared
            && HasOwnEntry(r.query, q, r.session)
            && (forall k :: k != l.query.id ==> (k in r.session.pending <==> k in l.session.pending))
            && (forall k :: k in r.session.pending && k in l.session.pending ==>
                r.session.pending[k] == l.session.pending[k])
            && (l.query.id in r.session.pending && l.query.id !in l.session.pending ==>
                  r.session.pending[l.query.id] == q && r.query.position.HasEntry())
            && (l.query.position.HasEntry() && !r.query.position.HasEntry() ==> l.query.id !in r.session.pending)
            && (l.query.id in l.session.pending && l.query.id !in r.session.pending ==> l.query.position.HasEntry())
  {
  }

  lemma ByQueryKeepsOwner(s: State, q: nat, a: QueryAction, i: nat, r: RequestId)
    requires PendingInv(s) && Enabled(s, ByQuery(q, a)) && i < |s.sessions|
    requires r in Next(s, ByQuery(q, a)).sessions[i].pending
    ensures var s' := Next(s, ByQuery(q, a)); Owns(s', s'.sessions[i].pending[r], i, r)
  {
    QueryPending(LocalView(s, q), q, a);
    if r in s.sessions[i].pending {
      assert Owns(s, s.sessions[i].pending[r], i, r);
    }
  }

  lemma ByQueryKeepsEntry(s: State, q: nat, a: QueryAction, p: nat)
    requires PendingInv(s) && Enabled(s, ByQuery(q, a)) && p < |s.queries|
    ensures var s' := Next(s, ByQuery(q, a)); HasOwnEntry(s'.queries[p], p, s'.sessions[s.queries[p].session])
  {
    QueryPending(LocalView(s, q), q, a);
    assert HasOwnEntry(s.queries[p], p, s.sessions[s.queries[p].session]);
  }

  lemma ByQueryKeepsPending(s: State, q: nat, a: QueryAction)
    requires PendingInv(s) && Enabled(s, ByQuery(q, a))
    ensures PendingInv(Next(s, ByQuery(q, a)))
  {
    NextWellIndexed(s, ByQuery(q, a));
    var s' := Next(s, ByQuery(q, a));
    QueryAddsItself(LocalView(s, q), q, a);
    forall i, r | 0 <= i < |s'.sessions| && r in s'.sessions[i].pending
      ensures Owns(s', s'.sessions[i].pending[r], i, r)
    {
      ByQueryKeepsOwner(s, q, a, i, r);
    }
    forall p | 0 <= p < |s'.queries|
      ensures HasOwnEntry(s'.queries[p], p, s'.sessions[s'.queries[p].session])
    {
      ByQueryKeepsEntry(s, q, a, p);
    }
  }

  lemma NextKeepsPending(s: State, a: Action)
    requires PendingInv(s) && Enabled(s, a)
    ensures PendingInv(Next(s, a))
  {
    NextWellIndexed(s, a);
    match a
    case ByQuery(q, qa) => ByQueryKeepsPending(s, q, qa);
    case BySession(i, sa) =>
      SessionKeepsPending(s.sessions[i], sa);
      PendingFrame(s, Next(s, a));
    case CloseClear(i) => ClearKeepsPending(s, i);
    case Start(_, _) =>
    case _ => PendingFrame(s, Next(s, a));
  }

  lemma PendingFrame(s: State, s': State)
    requires PendingInv(s) && s'.WellIndexed() && s'.queries == s.queries && |s'.sessions| >= |s.sessions|
    requires forall i :: 0 <= i < |s.sessions| ==>
               s'.sessions[i].pending == s.sessions[i].pending && s'.sessions[i].cleared == s.sessions[i].cleared
    requires forall i :: |s.sessions| <= i < |s'.sessions| ==> s'.sessions[i].pending == map[]
    ensures PendingInv(s')
  {
    forall i, r | 0 <= i < |s'.sessions| && r in s'.sessions[i].pending
      ensures Owns(s', s'.sessions[i].pending[r], i, r)
    {
      assert Owns(s, s.sessions[i].pending[r], i, r);
    }
  }

  lemma ClearKeepsPending(s: State, i: nat)
    requires PendingInv(s) && Enabled(s, CloseClear(i))
    ensures PendingInv(Next(s, CloseClear(i)))
  {
    var s' := Next(s, CloseClear(i));
    NextWellIndexed(s, CloseClear(i));
    forall j, r | 0 <= j < |s'.sessions| && r in s'.sessions[j].pending
      ensures Owns(s', s'.sessions[j].pending[r], j, r)
    {
      assert Owns(s, s.sessions[j].pending[r], j, r);
    }
  }

  // ---------- Over whole runs

  lemma {:induction false} RunsKeepTokens(actions: seq<Action>, s: State)
    requires Run(actions) == Some(s)
    ensures RegistryInv(s) && TokenInv(s) && PendingInv(s)
  {
    if actions == [] {
      assert GlobalHolders([]) == {};
    } else {
      var last := |actions| - 1;
      var before := Run(actions[..last]).value;
      RunsKeepTokens(actions[..last], before);
      NextKeepsRegistry(before, actions[last]);
      NextKeepsTokens(before, actions[last]);
      NextKeepsPending(before, actions[last]);
    }
  }
}
