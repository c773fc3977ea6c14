/**
 Why queries end and handlers are cancelled: every outcome of a query has its cause in the run; a
 handler's context ends only by itself, with the Agent's loop, or because the query that sent its
 request gave up; and a cancellation that the Agent reads reaches that very handler.
 */
module QueryCancels {
  import opened Options
  import opened QueryTypes
  import opened QueryMachine
  import opened QueryTokens
  import opened QueryFlow
  import opened QueryEndToEnd

  /** A query of session `i` sent a request of this identifier and then gave up. */
  ghost predicate GaveUp(queries: seq<Query>, i: nat, id: RequestId) {
    exists q :: 0 <= q < |queries| && Quit(queries[q], i, id)
  }

  predicate Quit(query: Query, i: nat, id: RequestId) {
    query.session == i && query.id == id && query.sent && query.position.Returning()
      && query.position.outcome == Cancelled
  }

  /** The record of cancel functions names handlers of their identifiers, and, if distinct, every handler at work. */
  predicate RecordOk(agent: Agent) {
    && (forall id :: id in agent.cancels ==>
          agent.cancels[id] < |agent.handlers| && agent.handlers[agent.cancels[id]].id == id)
    && (agent.running && DistinctIds(agent.handlers) ==>
          forall h :: 0 <= h < |agent.handlers| && !agent.handlers[h].position.Gone? ==>
            agent.handlers[h].id in agent.cancels && agent.cancels[agent.handlers[h].id] == h)
  }

  ghost predicate CancelsSent(queries: seq<Query>, i: nat, down: seq<DownMessage>) {
    forall k :: 0 <= k < |down| && down[k].Cancel? ==> GaveUp(queries, i, down[k].id)
  }

  /** A notice, or the outcome that the session is unavailable after sending, shows that the session is done. */
  predicate NoticeOk(query: Query, s: Session) {
    && (ClosedNotice in query.got + query.inbox ==> s.done)
    && (query.sent && query.position.Returning() && query.position.outcome == Unavailable ==> s.done)
  }

  ghost predicate CancelInv(s: State) {
    && s.WellIndexed()
    && (forall i :: 0 <= i < |s.sessions| ==> RecordOk(s.sessions[i].agent))
    && (forall i :: 0 <= i < |s.sessions| ==> CancelsSent(s.queries, i, s.sessions[i].Downstream()))
    && (forall q :: 0 <= q < |s.queries| ==> NoticeOk(s.queries[q], s.sessions[s.queries[q].session]))
  }

  // ---------- The Agent's record

  lemma ReadKeepsRecord(agent: Agent, m: DownMessage)
    requires RecordOk(agent) && agent.running
    ensures RecordOk(AgentNext(agent, Read(m)))
  {
    var next := AgentNext(agent, Read(m));
    if m.Request? && agent.slots < AGENT_SLOTS && DistinctIds(next.handlers) {
      forall g, h | 0 <= g < h < |agent.handlers| ensures agent.handlers[g].id != agent.handlers[h].id {
        assert next.handlers[g].id != next.handlers[h].id;
      }
    } else if m.Cancel? && DistinctIds(next.handlers) {
      forall g, h | 0 <= g < h < |agent.handlers| ensures agent.handlers[g].id != agent.handlers[h].id {
        assert next.handlers[g].id != next.handlers[h].id;
      }
    }
  }

  lemma HandlerKeepsRecord(agent: Agent, h: nat, ha: HandlerAction)
    requires RecordOk(agent) && AgentEnabled(agent, ByHandler(h, ha))
    ensures RecordOk(AgentNext(agent, ByHandler(h, ha)))
  {
    var next := AgentNext(agent, ByHandler(h, ha));
    if DistinctIds(next.handlers) {
      forall f, g | 0 <= f < g < |agent.handlers| ensures agent.handlers[f].id != agent.handlers[g].id {
        assert next.handlers[f].id != next.handlers[g].id;
      }
    }
  }

  lemma AgentKeepsRecord(agent: Agent, a: AgentAction)
    requires RecordOk(agent) && AgentEnabled(agent, a)
    ensures RecordOk(AgentNext(agent, a))
  {
    match a
    case ByHandler(h, ha) => HandlerKeepsRecord(agent, h, ha);
    case Read(m) => ReadKeepsRecord(agent, m);
    case StopLoop =>
  }

  // ---------- Every step keeps the invariant

  lemma GaveUpStays(queries: seq<Query>, next: seq<Query>, i: nat, id: RequestId)
    requires GaveUp(queries, i, id) && |queries| <= |next|
    requires forall q :: 0 <= q < |queries| && Quit(queries[q], i, id) ==> Quit(next[q], i, id)
    ensures GaveUp(next, i, id)
  {
    var q :| 0 <= q < |queries| && Quit(queries[q], i, id);
    assert Quit(next[q], i, id);
  }

  lemma CancelsStay(queries: seq<Query>, next: seq<Query>, i: nat, down: seq<DownMessage>)
    requires CancelsSent(queries, i, down) && |queries| <= |next|
    requires forall q, id :: 0 <= q < |queries| && Quit(queries[q], i, id) ==> Quit(next[q], i, id)
    ensures CancelsSent(next, i, down)
  {
    forall k | 0 <= k < |down| && down[k].Cancel? ensures GaveUp(next, i, down[k].id) {
      GaveUpStays(queries, next, i, down[k].id);
    }
  }

  lemma QuitStays(l: Local, q: nat, a: QueryAction)
    requires QueryEnabled(l, q, a)
    ensures var r := QueryNext(l, q, a);
            && (forall i, id :: Quit(l.query, i, id) ==> Quit(r.query, i, id))
            && r.session.done == l.session.done && r.session.down == l.session.down
            && r.session.agent == l.session.agent
  {
  }

  lemma NoticeStays(l: Local, q: nat, a: QueryAction)
    requires QueryEnabled(l, q, a) && NoticeOk(l.query, l.session) && QueryShape(l.query)
    ensures NoticeOk(QueryNext(l, q, a).query, QueryNext(l, q, a).session)
  {
    var r := QueryNext(l, q, a);
    if a.Receive? {
      assert r.query.got + r.query.inbox == l.query.got + l.query.inbox;
      assert l.query.inbox[0] in l.query.got + l.query.inbox;
    } else if a.Accept? {
      assert r.query.got + r.query.inbox == l.query.got + l.query.inbox + [Message(l.session.pump.message)];
    }
  }

  /** A query's step sends at most one message, and a cancellation only when it quits. */
  lemma StepSends(l: Local, q: nat, a: QueryAction) returns (sent: seq<DownMessage>)
    requires QueryEnabled(l, q, a) && QueryShape(l.query)
    ensures QueryNext(l, q, a).session.Downstream() == l.session.Downstream() + sent
    ensures forall k :: 0 <= k < |sent| && sent[k].Cancel? ==>
              Quit(QueryNext(l, q, a).query, l.query.session, sent[k].id)
  {
    var r := QueryNext(l, q, a);
    sent := r.session.outbound[|l.session.outbound|..];
    assert r.session.outbound == l.session.outbound + sent;
  }

  lemma ByQueryKeepsSent(s: State, q: nat, a: QueryAction, i: nat)
    requires CancelInv(s) && FlowInv(s) && Enabled(s, ByQuery(q, a)) && i < |s.sessions|
    ensures var s' := Next(s, ByQuery(q, a)); CancelsSent(s'.queries, i, s'.sessions[i].Downstream())
  {
    var s', l := Next(s, ByQuery(q, a)), LocalView(s, q);
    assert QueryFlowInv(s, q);
    QuitStays(l, q, a);
    CancelsStay(s.queries, s'.queries, i, s.sessions[i].Downstream());
    if i == s.queries[q].session {
      var sent := StepSends(l, q, a);
      forall k | 0 <= k < |sent| && sent[k].Cancel? ensures GaveUp(s'.queries, i, sent[k].id) {
        assert Quit(s'.queries[q], i, sent[k].id);
      }
    }
  }

  lemma ByQueryKeepsCancels(s: State, q: nat, a: QueryAction)
    requires CancelInv(s) && FlowInv(s) && Enabled(s, ByQuery(q, a))
    ensures CancelInv(Next(s, ByQuery(q, a)))
  {
    var s', l := Next(s, ByQuery(q, a)), LocalView(s, q);
    LocalNext(s, q, a);
    assert QueryFlowInv(s, q);
    QuitStays(l, q, a);
    NoticeStays(l, q, a);
    forall i | 0 <= i < |s'.sessions| ensures CancelsSent(s'.queries, i, s'.sessions[i].Downstream()) {
      ByQueryKeepsSent(s, q, a, i);
    }
  }

  lemma SessionKeepsRecord(queries: seq<Query>, i: nat, s: Session, a: SessionAction)
    requires RecordOk(s.agent) && CancelsSent(queries, i, s.Downstream()) && SessionEnabled(s, a)
    ensures RecordOk(SessionNext(s, a).agent) && CancelsSent(queries, i, SessionNext(s, a).Downstream())
    ensures s.done ==> SessionNext(s, a).done
  {
    StreamsMove(s, a);
    match a
    case AgentRead => AgentKeepsRecord(s.agent, Read(s.down[0]));
    case ByAgent(aa) => AgentKeepsRecord(s.agent, aa);
    case _ =>
  }

  lemma BySessionKeepsCancels(s: State, i: nat, a: SessionAction)
    requires CancelInv(s) && Enabled(s, BySession(i, a))
    ensures CancelInv(Next(s, BySession(i, a)))
  {
    NextWellIndexed(s, BySession(i, a));
    SessionKeepsRecord(s.queries, i, s.sessions[i], a);
  }

  lemma ClearKeepsCancels(s: State, i: nat)
    requires CancelInv(s) && Enabled(s, CloseClear(i))
    ensures CancelInv(Next(s, CloseClear(i)))
  {
    var s' := Next(s, CloseClear(i));
    NextWellIndexed(s, CloseClear(i));
    forall j | 0 <= j < |s'.sessions| ensures CancelsSent(s'.queries, j, s'.sessions[j].Downstream()) {
      CancelsStay(s.queries, s'.queries, j, s.sessions[j].Downstream());
    }
  }

  lemma StartKeepsCancels(s: State, n: InstallationId, id: RequestId)
    requires CancelInv(s) && Enabled(s, Start(n, id))
    ensures CancelInv(Next(s, Start(n, id)))
  {
    var s' := Next(s, Start(n, id));
    NextWellIndexed(s, Start(n, id));
    forall j | 0 <= j < |s'.sessions| ensures CancelsSent(s'.queries, j, s'.sessions[j].Downstream()) {
      CancelsStay(s.queries, s'.queries, j, s.sessions[j].Downstream());
    }
  }

  /** Steps on the registry leave queries, streams and Agents alone. */
  lemma RegistryStepKeepsCancels(s: State, s': State)
    requires CancelInv(s) && s'.WellIndexed() && s'.queries == s.queries && |s'.sessions| >= |s.sessions|
    requires forall j :: 0 <= j < |s.sessions| ==>
               && s'.sessions[j].agent == s.sessions[j].agent
               && s'.sessions[j].Downstream() == s.sessions[j].Downstream()
               && s'.sessions[j].done == s.sessions[j].done
    requires forall j :: |s.sessions| <= j < |s'.sessions| ==> s'.sessions[j] == NewSession(s'.sessions[j].installation)
    ensures CancelInv(s')
  {
    forall j | |s.sessions| <= j < |s'.sessions|
      ensures s'.sessions[j].Downstream() == [] && RecordOk(s'.sessions[j].agent)
    {
    }
  }

  lemma RegistryKeepsCancels(s: State, a: Action)
    requires CancelInv(s) && RegistryInv(s) && Enabled(s, a) && (a.Register? || a.Unregister?)
    ensures CancelInv(Next(s, a))
  {
    NextWellIndexed(s, a);
    if a.Register? {
      RegisterEffect(s, a.installation);
    }
    RegistryStepKeepsCancels(s, Next(s, a));
  }

  lemma NextKeepsCancels(s: State, a: Action)
    requires CancelInv(s) && FlowInv(s) && RegistryInv(s) && Enabled(s, a)
    ensures CancelInv(Next(s, a))
  {
    match a
    case ByQuery(q, qa) => ByQueryKeepsCancels(s, q, qa);
    case BySession(i, sa) => BySessionKeepsCancels(s, i, sa);
    case CloseClear(i) => ClearKeepsCancels(s, i);
    case Start(n, id) => StartKeepsCancels(s, n, id);
    case _ => RegistryKeepsCancels(s, a);
  }

  lemma {:induction false} RunsKeepCancels(actions: seq<Action>, s: State)
    requires Run(actions) == Some(s) && UniqueIds(s)
    ensures CancelInv(s)
  {
    if actions != [] {
      var last := |actions| - 1;
      var before := Run(actions[..last]).value;
      NextKeepsIds(before, actions[last]);
      RunsKeepCancels(actions[..last], before);
      RunsKeepFlow(actions[..last], before);
      RunsKeepTokens(actions[..last], before);
      NextKeepsCancels(before, actions[last]);
    }
  }

  // ---------- What holds of every run

  /** The handler's own context ended in this run. */
  ghost predicate ContextEnded(actions: seq<Action>, i: nat, h: nat) {
    exists k :: 0 <= k < |actions| && actions[k] == BySession(i, ByAgent(ByHandler(h, ContextEnds)))
  }

  /** Why a handler may be cancelled */
  ghost predicate Excuse(actions: seq<Action>, s: State, i: nat, h: nat)
    requires i < |s.sessions| && h < |s.sessions[i].agent.handlers|
  {
    || ContextEnded(actions, i, h)
    || !s.sessions[i].agent.running
    || GaveUp(s.queries, i, s.sessions[i].agent.handlers[h].id)
  }

  lemma AgentCancels(agent: Agent, a: AgentAction, h: nat)
    requires RecordOk(agent) && AgentEnabled(agent, a) && h < |AgentNext(agent, a).handlers|
    requires AgentNext(agent, a).handlers[h].cancelled
    ensures || (h < |agent.handlers| && agent.handlers[h].cancelled)
            || a == ByHandler(h, ContextEnds) || !AgentNext(agent, a).running
            || (a.Read? && a.message == Cancel(AgentNext(agent, a).handlers[h].id))
    ensures h < |agent.handlers| && AgentNext(agent, a).handlers[h].id != agent.handlers[h].id ==> false
    ensures !agent.running ==> !AgentNext(agent, a).running
  {
  }

  lemma ContextEndedStays(actions: seq<Action>, a: Action, i: nat, h: nat)
    requires ContextEnded(actions, i, h) || a == BySession(i, ByAgent(ByHandler(h, ContextEnds)))
    ensures ContextEnded(actions + [a], i, h)
  {
    if ContextEnded(actions, i, h) {
      var k :| 0 <= k < |actions| && actions[k] == BySession(i, ByAgent(ByHandler(h, ContextEnds)));
      assert (actions + [a])[k] == actions[k];
    } else {
      assert (actions + [a])[|actions|] == a;
    }
  }

  lemma NextKeepsGaveUp(s: State, a: Action, i: nat, id: RequestId)
    requires CancelInv(s) && Enabled(s, a) && GaveUp(s.queries, i, id)
    ensures GaveUp(Next(s, a).queries, i, id)
  {
    if a.ByQuery? {
      QuitStays(LocalView(s, a.q), a.q, a.qa);
    }
    GaveUpStays(s.queries, Next(s, a).queries, i, id);
  }

  /** One step: who is cancelled after it was cancelled before, or the step is a reason. */
  lemma StepCancels(s: State, a: Action, i: nat, h: nat)
    requires CancelInv(s) && Enabled(s, a) && i < |Next(s, a).sessions| && h < |Next(s, a).sessions[i].agent.handlers|
    requires Next(s, a).sessions[i].agent.handlers[h].cancelled && Next(s, a).sessions[i].agent.running
    ensures || a == BySession(i, ByAgent(ByHandler(h, ContextEnds)))
            || GaveUp(s.queries, i, Next(s, a).sessions[i].agent.handlers[h].id)
            || (i < |s.sessions| && h < |s.sessions[i].agent.handlers| && s.sessions[i].agent.handlers[h].cancelled
                && s.sessions[i].agent.running
                && s.sessions[i].agent.handlers[h].id == Next(s, a).sessions[i].agent.handlers[h].id)
  {
    match a
    case ByQuery(q, qa) => QuitStays(LocalView(s, q), q, qa);
    case BySession(j, AgentRead) =>
      if i == j {
        AgentCancels(s.sessions[j].agent, Read(s.sessions[j].down[0]), h);
        assert s.sessions[j].Downstream()[0] == s.sessions[j].down[0];
      }
    case BySession(j, ByAgent(aa)) =>
      if i == j {
        AgentCancels(s.sessions[j].agent, aa, h);
      }
    case _ =>
  }

  /** With unique identifiers a handler is cancelled only with its own context or the loop, or as its query gave up. */
  lemma {:induction false} CancelledForAReason(actions: seq<Action>, s: State, i: nat, h: nat)
    requires Run(actions) == Some(s) && UniqueIds(s) && i < |s.sessions| && h < |s.sessions[i].agent.handlers|
    requires s.sessions[i].agent.handlers[h].cancelled
    ensures Excuse(actions, s, i, h)
  {
    if actions != [] && s.sessions[i].agent.running {
      var last := |actions| - 1;
      var before, a, id := Run(actions[..last]).value, actions[last], s.sessions[i].agent.handlers[h].id;
      NextKeepsIds(before, a);
      RunsKeepCancels(actions[..last], before);
      StepCancels(before, a, i, h);
      assert actions[..last] + [a] == actions;
      if a == BySession(i, ByAgent(ByHandler(h, ContextEnds))) {
        ContextEndedStays(actions[..last], a, i, h);
      } else if GaveUp(before.queries, i, id) {
        NextKeepsGaveUp(before, a, i, id);
      } else {
        CancelledForAReason(actions[..last], before, i, h);
        ContextEndedStays(actions[..last], a, i, h);
      }
    }
  }

  lemma RecordIsOk(actions: seq<Action>, s: State, i: nat)
    requires Run(actions) == Some(s) && UniqueIds(s) && i < |s.sessions|
    ensures RecordOk(s.sessions[i].agent) && DistinctIds(s.sessions[i].agent.handlers)
  {
    RunsKeepCancels(actions, s);
    RunsKeepFlow(actions, s);
    DistinctHandlers(s, i);
  }

  /** What reading a cancellation does to one handler */
  ghost predicate Reached(agent: Agent, next: Agent, id: RequestId, h: nat)
    requires h < |agent.handlers|
  {
    && |next.handlers| == |agent.handlers|
    && (agent.handlers[h].id == id && !agent.handlers[h].position.Gone? ==>
          next.handlers[h] == agent.handlers[h].(cancelled := true))
    && (agent.handlers[h].id != id ==> next.handlers[h] == agent.handlers[h])
  }

  lemma ReadingReaches(agent: Agent, id: RequestId, h: nat)
    requires RecordOk(agent) && agent.running && DistinctIds(agent.handlers) && h < |agent.handlers|
    ensures Reached(agent, AgentNext(agent, Read(Cancel(id))), id, h)
  {
  }

  /** A cancellation that the Agent reads ends the context of the handler of that request, and of no other. */
  lemma CancellationReachesItsHandler(actions: seq<Action>, s: State, i: nat, h: nat)
    requires Run(actions) == Some(s) && UniqueIds(s) && Enabled(s, BySession(i, AgentRead))
    requires s.sessions[i].down[0].Cancel? && h < |s.sessions[i].agent.handlers|
    ensures Reached(s.sessions[i].agent, Next(s, BySession(i, AgentRead)).sessions[i].agent,
                    s.sessions[i].down[0].id, h)
  {
    RecordIsOk(actions, s, i);
    ReadingReaches(s.sessions[i].agent, s.sessions[i].down[0].id, h);
  }

  /** What the end of the loop does to one handler */
  ghost predicate Stopped(agent: Agent, next: Agent, h: nat)
    requires h < |agent.handlers|
  {
    && !next.running && |next.handlers| == |agent.handlers|
    && (!agent.handlers[h].position.Gone? ==> next.handlers[h] == agent.handlers[h].(cancelled := true))
  }

  lemma StoppingReaches(agent: Agent, a: AgentAction, h: nat)
    requires RecordOk(agent) && agent.running && DistinctIds(agent.handlers) && h < |agent.handlers|
    requires a.StopLoop? || (a.Read? && a.message.Request? && agent.slots >= AGENT_SLOTS)
    ensures Stopped(agent, AgentNext(agent, a), h)
  {
    if !agent.handlers[h].position.Gone? {
      assert agent.handlers[h].id in agent.cancels && agent.cancels[agent.handlers[h].id] == h;
    }
  }

  /** When the Agent's loop ends, every handler still at work is cancelled. */
  lemma StoppingCancelsAll(actions: seq<Action>, s: State, i: nat, h: nat)
    requires Run(actions) == Some(s) && UniqueIds(s) && Enabled(s, BySession(i, ByAgent(StopLoop)))
    requires h < |s.sessions[i].agent.handlers|
    ensures Stopped(s.sessions[i].agent, Next(s, BySession(i, ByAgent(StopLoop))).sessions[i].agent, h)
  {
    RecordIsOk(actions, s, i);
    StoppingReaches(s.sessions[i].agent, StopLoop, h);
  }

  /** The same when a request exceeds the Agent's slots. */
  lemma ExcessCancelsAll(actions: seq<Action>, s: State, i: nat, h: nat)
    requires Run(actions) == Some(s) && UniqueIds(s) && Enabled(s, BySession(i, AgentRead))
    requires s.sessions[i].down[0].Request? && s.sessions[i].agent.slots >= AGENT_SLOTS
    requires h < |s.sessions[i].agent.handlers|
    ensures Stopped(s.sessions[i].agent, Next(s, BySession(i, AgentRead)).sessions[i].agent, h)
  {
    RecordIsOk(actions, s, i);
    StoppingReaches(s.sessions[i].agent, Read(s.sessions[i].down[0]), h);
  }

  /** A query that gives up after sending asks the Agent to cancel, if there is room for the request. */
  lemma GivingUpAsksToCancel(l: Local, q: nat)
    requires QueryEnabled(l, q, GiveUp) && l.query.position.Receiving?
    ensures var r := QueryNext(l, q, GiveUp);
            && r.query.position == Removing(Cancelled)
            && r.session.outbound ==
               l.session.outbound + if |l.session.outbound| < OUTBOUND_CAPACITY then [Cancel(l.query.id)] else []
  {
  }

  /** A query that sent its request is told that the session is unavailable only once the session is done. */
  lemma UnavailableMeansDone(actions: seq<Action>, s: State, q: nat)
    requires Run(actions) == Some(s) && UniqueIds(s) && q < |s.queries| && s.queries[q].sent
    requires s.queries[q].position == Returned(Unavailable)
    ensures s.sessions[s.queries[q].session].done
  {
    RunsKeepCancels(actions, s);
  }

  // ---------- Why a query ends

  /** What a query took last */
  predicate TookLast(query: Query, d: Delivery) {
    query.got != [] && query.got[|query.got| - 1] == d
  }

  /** The last delivery was a failed completion, or a chunk out of turn or over the limits. */
  predicate TookBad(query: Query) {
    query.got != [] && query.got[|query.got| - 1].Message?
      && (query.got[|query.got| - 1].message.CompleteMessage? ==> !query.got[|query.got| - 1].message.succeeded)
  }

  /** This step ends the query with its outcome. */
  predicate Ends(a: QueryAction, query: Query)
    requires query.position.Returning()
  {
    match query.position.outcome
    case Cancelled => a.GiveUp?
    case Unavailable => a == Refuse(Unavailable) || a.SeeDone? || (a.Receive? && TookLast(query, ClosedNotice))
    case Rejected => a == Refuse(Rejected) || (a.Add? && !query.sent) || (a.Receive? && TookBad(query))
    case Succeeded(_) =>
      a.Receive? && query.got != [] && query.got[|query.got| - 1].Message?
      && query.got[|query.got| - 1].message.CompleteMessage? && query.got[|query.got| - 1].message.succeeded
  }

  ghost predicate Ended(actions: seq<Action>, q: nat, query: Query) {
    query.position.Returning() ==> exists a :: Ends(a, query) && ByQuery(q, a) in actions
  }

  lemma QueryEnds(l: Local, q: nat, a: QueryAction)
    requires QueryEnabled(l, q, a) && QueryShape(l.query)
    ensures var r := QueryNext(l, q, a).query;
            r.position.Returning() ==>
              || Ends(a, r)
              || (l.query.position.Returning() && l.query.position.outcome == r.position.outcome
                  && l.query.got == r.got && l.query.sent == r.sent)
  {
  }

  lemma EndedStays(actions: seq<Action>, more: seq<Action>, q: nat, query: Query, next: Query)
    requires Ended(actions, q, query) && actions <= more
    requires next.position.Returning() ==>
               query.position.Returning() && query.position.outcome == next.position.outcome
               && query.got == next.got && query.sent == next.sent
    ensures Ended(more, q, next)
  {
    if next.position.Returning() {
      var a :| Ends(a, query) && ByQuery(q, a) in actions;
      assert Ends(a, next) && ByQuery(q, a) in more;
    }
  }

  /** Other steps touch a query's inbox at most. */
  lemma OthersTouchTheInbox(s: State, a: Action, q: nat)
    requires s.WellIndexed() && Enabled(s, a) && q < |s.queries| && !(a.ByQuery? && a.q == q)
    ensures Next(s, a).queries[q] == s.queries[q].(inbox := Next(s, a).queries[q].inbox)
  {
  }

  lemma StepEnds(before: seq<Action>, s: State, a: Action, q: nat)
    requires s.WellIndexed() && Enabled(s, a) && q < |s.queries|
    requires QueryShape(s.queries[q]) && Ended(before, q, s.queries[q])
    ensures QueryShape(Next(s, a).queries[q]) && Ended(before + [a], q, Next(s, a).queries[q])
  {
    var next := Next(s, a).queries[q];
    if a.ByQuery? && a.q == q {
      QueryKeepsShape(LocalView(s, q), q, a.qa);
      QueryEnds(LocalView(s, q), q, a.qa);
      if next.position.Returning() && Ends(a.qa, next) {
        assert (before + [a])[|before|] == a;
      } else {
        EndedStays(before, before + [a], q, s.queries[q], next);
      }
    } else {
      OthersTouchTheInbox(s, a, q);
      EndedStays(before, before + [a], q, s.queries[q], next);
    }
  }

  /** Every query ends by a step that explains its outcome. */
  lemma {:induction false} OutcomesHaveTheirCause(actions: seq<Action>, s: State, q: nat)
    requires Run(actions) == Some(s) && q < |s.queries|
    ensures QueryShape(s.queries[q]) && Ended(actions, q, s.queries[q])
  {
    if actions != [] {
      var last := |actions| - 1;
      var before := Run(actions[..last]).value;
      assert actions[..last] + [actions[last]] == actions;
      if q < |before.queries| {
        OutcomesHaveTheirCause(actions[..last], before, q);
        StepEnds(actions[..last], before, actions[last], q);
      }
    }
  }
}
