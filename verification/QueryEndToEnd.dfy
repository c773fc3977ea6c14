/**
 End to end: a query that succeeds returns what the Agent's handler produced for that very
 request, and the delivery channels never fill. Request identifiers are taken to be unique,
 as those that the broker draws are.
 */
module QueryEndToEnd {
  import opened Options
  import opened QueryTypes
  import opened QueryMachine
  import opened QueryTokens
  import opened QueryFlow

  ghost predicate UniqueIds(s: State) {
    forall p, q :: 0 <= p < q < |s.queries| ==> s.queries[p].id != s.queries[q].id
  }

  // ---------- One request, one handler

  predicate OriginsDistinct(down: seq<DownMessage>, handlers: seq<Handler>) {
    && (forall j, k :: 0 <= j < k < |down| && down[j].Request? && down[k].Request? ==> down[j].origin != down[k].origin)
    && (forall g, h :: 0 <= g < h < |handlers| ==> handlers[g].origin != handlers[h].origin)
    && (forall k, h :: 0 <= k < |down| && 0 <= h < |handlers| && down[k].Request? ==>
        down[k].origin != handlers[h].origin)
  }

  predicate SentBy(queries: seq<Query>, q: nat, i: nat, id: RequestId) {
    q < |queries| && queries[q].session == i && queries[q].id == id && queries[q].sent
  }

  /** Every request and every handler stems from a query of that session which sent it. */
  predicate OriginsValid(queries: seq<Query>, i: nat, down: seq<DownMessage>, handlers: seq<Handler>) {
    && (forall k :: 0 <= k < |down| && down[k].Request? ==> SentBy(queries, down[k].origin, i, down[k].id))
    && (forall h :: 0 <= h < |handlers| ==> SentBy(queries, handlers[h].origin, i, handlers[h].id))
  }

  /** Session number `i` among these queries */
  ghost predicate SessionFlow(queries: seq<Query>, i: nat, s: Session) {
    && HandlersOk(s.agent)
    && UpstreamOk(s.Upstream(), s.agent.handlers)
    && OriginsDistinct(s.Downstream(), s.agent.handlers)
    && OriginsValid(queries, i, s.Downstream(), s.agent.handlers)
  }

  lemma GrowsKeepsOrigins(queries: seq<Query>, i: nat, down: seq<DownMessage>, handlers: seq<Handler>,
                          next: seq<Handler>)
    requires OriginsDistinct(down, handlers) && OriginsValid(queries, i, down, handlers)
    requires Grows(handlers, next) && |next| == |handlers|
    ensures OriginsDistinct(down, next) && OriginsValid(queries, i, down, next)
  {
    assert forall h :: 0 <= h < |next| ==> SameHandler(handlers[h], next[h]);
  }

  lemma TailKeepsOrigins(queries: seq<Query>, i: nat, down: seq<DownMessage>, handlers: seq<Handler>)
    requires |down| > 0 && OriginsDistinct(down, handlers) && OriginsValid(queries, i, down, handlers)
    ensures OriginsDistinct(down[1..], handlers) && OriginsValid(queries, i, down[1..], handlers)
    ensures down[0].Request? ==>
              var next := handlers + [NewHandler(down[0].id, down[0].origin)];
              OriginsDistinct(down[1..], next) && OriginsValid(queries, i, down[1..], next)
  {
  }

  /** How a step moves the two directions of the stream */
  lemma StreamsMove(s: Session, a: SessionAction)
    requires SessionEnabled(s, a)
    ensures SessionNext(s, a).Upstream() ==
            if a.ByAgent? then s.Upstream() + Queued(s.agent, a.aa) else s.Upstream()
    ensures SessionNext(s, a).Downstream() == if a.AgentRead? then s.Downstream()[1..] else s.Downstream()
    ensures a.AgentRead? ==> s.Downstream()[0] == s.down[0]
  {
    var s' := SessionNext(s, a);
    match a
    case PumpTake => assert s'.taken + s'.up == s.taken + s.up;
    case AgentWrite => assert s'.up + s'.agent.outgoing == s.up + s.agent.outgoing;
    case _ =>
  }

  lemma ReadKeepsOrigins(queries: seq<Query>, i: nat, agent: Agent, down: seq<DownMessage>)
    requires HandlersOk(agent) && agent.running && |down| > 0
    requires OriginsDistinct(down, agent.handlers) && OriginsValid(queries, i, down, agent.handlers)
    ensures var next := AgentNext(agent, Read(down[0])).handlers;
            OriginsDistinct(down[1..], next) && OriginsValid(queries, i, down[1..], next)
  {
    var next := AgentNext(agent, Read(down[0])).handlers;
    AgentGrows(agent, Read(down[0]));
    TailKeepsOrigins(queries, i, down, agent.handlers);
    if |next| == |agent.handlers| {
      GrowsKeepsOrigins(queries, i, down[1..], agent.handlers, next);
    }
  }

  lemma SessionKeepsOrigins(queries: seq<Query>, i: nat, s: Session, a: SessionAction)
    requires SessionFlow(queries, i, s) && SessionEnabled(s, a)
    ensures var s' := SessionNext(s, a);
            && OriginsDistinct(s'.Downstream(), s'.agent.handlers)
            && OriginsValid(queries, i, s'.Downstream(), s'.agent.handlers)
            && Grows(s.agent.handlers, s'.agent.handlers)
  {
    StreamsMove(s, a);
    match a
    case AgentRead =>
      AgentGrows(s.agent, Read(s.down[0]));
      ReadKeepsOrigins(queries, i, s.agent, s.Downstream());
    case ByAgent(aa) =>
      AgentGrows(s.agent, aa);
      GrowsKeepsOrigins(queries, i, s.Downstream(), s.agent.handlers, SessionNext(s, a).agent.handlers);
    case _ =>
  }

  lemma SessionKeepsUpstream(s: Session, a: SessionAction)
    requires HandlersOk(s.agent) && UpstreamOk(s.Upstream(), s.agent.handlers) && SessionEnabled(s, a)
    ensures HandlersOk(SessionNext(s, a).agent)
    ensures UpstreamOk(SessionNext(s, a).Upstream(), SessionNext(s, a).agent.handlers)
  {
    StreamsMove(s, a);
    match a
    case AgentRead =>
      AgentKeepsHandlers(s.agent, Read(s.down[0]));
      AgentKeepsUpstream(s.Upstream(), s.agent, Read(s.down[0]));
      assert s.Upstream() + [] == s.Upstream();
    case ByAgent(aa) =>
      AgentKeepsHandlers(s.agent, aa);
      AgentKeepsUpstream(s.Upstream(), s.agent, aa);
    case _ =>
  }

  lemma SessionKeepsFlow(queries: seq<Query>, i: nat, s: Session, a: SessionAction)
    requires SessionFlow(queries, i, s) && SessionEnabled(s, a)
    ensures SessionFlow(queries, i, SessionNext(s, a))
    ensures Grows(s.agent.handlers, SessionNext(s, a).agent.handlers)
  {
    SessionKeepsUpstream(s, a);
    SessionKeepsOrigins(queries, i, s, a);
  }

  // ---------- What a query has received

  function InFlight(pump: Pump, q: nat): seq<Delivery> {
    if pump.Delivering? && pump.target == q then [Message(pump.message)] else []
  }

  /** Everything that was ever delivered to the query, including what the pump is about to deliver */
  function Arrived(q: nat, query: Query, pump: Pump): seq<Delivery> {
    query.got + query.inbox + InFlight(pump, q)
  }

  predicate NotSent(p: Position) { p.Looked? || p.HoldsGlobal? || p.HoldsBoth? || p.Added? }

  ghost predicate QueryShape(query: Query) {
    && (NotSent(query.position) ==> !query.sent && query.got == [] && query.progress == NOTHING_RECEIVED)
    && (query.position.Receiving? ==> query.sent && Consistent(query.id, query.progress, query.got))
  }

  /**
   Of what the pump took for a request, a subsequence arrives, and everything if `open`.
   Beyond that at most `notices` notices arrive.
   */
  ghost predicate Delivered(arrived: seq<Delivery>, taken: seq<UpMessage>, notices: int, open: bool) {
    && Subsequence(Messages(arrived), taken)
    && |arrived| <= |Messages(arrived)| + notices
    && (open ==> Messages(arrived) == taken)
  }

  /** A query receives everything the pump takes for it as long as its session is not done. */
  ghost predicate PairFlow(q: nat, query: Query, s: Session) {
    Delivered(Arrived(q, query, s.pump), Of(s.taken, query.id), Count(s.cleared),
              (query.position.Added? || query.position.Receiving?) && !s.done)
  }

  lemma QueryKeepsShape(l: Local, q: nat, a: QueryAction)
    requires QueryEnabled(l, q, a) && QueryShape(l.query)
    ensures QueryShape(QueryNext(l, q, a).query)
  {
    if a.Receive? {
      ReactKeepsConsistent(l.query.id, l.query.progress, l.query.got, l.query.inbox[0]);
    }
  }

  /** A query's step leaves the stream, the Agent and the deliveries to other queries alone. */
  lemma QueryTouches(l: Local, q: nat, a: QueryAction)
    requires QueryEnabled(l, q, a)
    ensures var s, s' := l.session, QueryNext(l, q, a).session;
            && s'.agent == s.agent && s'.taken == s.taken && s'.up == s.up && s'.down == s.down
            && s'.done == s.done && s'.cleared == s.cleared
            && (s'.pump == s.pump || (a.Accept? && s'.pump == Idle))
            && (s'.outbound == s.outbound || s'.outbound == s.outbound + [Cancel(l.query.id)]
                || (a.Send? && s'.outbound == s.outbound + [Request(l.query.id, q)]))
            && QueryNext(l, q, a).query.id == l.query.id && QueryNext(l, q, a).query.session == l.query.session
            && (l.query.sent ==> QueryNext(l, q, a).query.sent)
  {
  }

  lemma QueryKeepsArrived(l: Local, q: nat, a: QueryAction)
    requires QueryEnabled(l, q, a)
    ensures var r := QueryNext(l, q, a); Arrived(q, r.query, r.session.pump) == Arrived(q, l.query, l.session.pump)
  {
    var r := QueryNext(l, q, a);
    if a.Receive? {
      assert r.query.got + r.query.inbox == l.query.got + l.query.inbox;
    }
  }

  lemma QueryKeepsPair(l: Local, q: nat, a: QueryAction)
    requires QueryEnabled(l, q, a) && PairFlow(q, l.query, l.session)
    requires a.Add? ==> Messages(Arrived(q, l.query, l.session.pump)) == Of(l.session.taken, l.query.id)
    ensures PairFlow(q, QueryNext(l, q, a).query, QueryNext(l, q, a).session)
  {
    QueryKeepsArrived(l, q, a);
    QueryTouches(l, q, a);
    assert QueryNext(l, q, a).query.position.Added? ==> a.Add? || l.query.position.Added?;
    assert QueryNext(l, q, a).query.position.Receiving? ==> l.query.position.Added? || l.query.position.Receiving?;
  }

  lemma DeliverOneMore(arrived: seq<Delivery>, taken: seq<UpMessage>, notices: int, open: bool, m: UpMessage)
    requires Delivered(arrived, taken, notices, open)
    ensures Delivered(arrived + [Message(m)], taken + [m], notices, open)
    ensures Delivered(arrived, taken + [m], notices, false)
  {
    SubsequenceAppend(Messages(arrived), taken, m);
    MessagesAppend(arrived, Message(m));
  }

  lemma LoseLast(arrived: seq<Delivery>, taken: seq<UpMessage>, notices: int, m: UpMessage)
    requires Delivered(arrived + [Message(m)], taken, notices, false)
    ensures Delivered(arrived, taken, notices, false)
  {
    MessagesAppend(arrived, Message(m));
    var all := Messages(arrived + [Message(m)]);
    assert all[..|all| - 1] == Messages(arrived);
    SubsequenceDropLast(all, taken);
  }

  lemma TakeKeepsPair(q: nat, query: Query, s: Session)
    requires PairFlow(q, query, s) && SessionEnabled(s, PumpTake) && SessionFlags(s) && HasOwnEntry(query, q, s)
    requires forall r :: r in s.pending && s.pending[r] == q ==> query.id == r
    ensures PairFlow(q, query, SessionNext(s, PumpTake))
  {
    var s' := SessionNext(s, PumpTake);
    var m := s.up[0];
    var before := query.got + query.inbox;
    var open := (query.position.Added? || query.position.Receiving?) && !s.done;
    assert Arrived(q, query, s.pump) == before;
    OfAppend(s.taken, m, query.id);
    if m.RequestId() == query.id {
      DeliverOneMore(before, Of(s.taken, query.id), Count(s.cleared), open, m);
      assert open ==> query.id in s.pending && s.pending[query.id] == q;
      assert Arrived(q, query, s'.pump) == if s'.pump.Delivering?
             && s'.pump.target == q then before + [Message(m)] else before;
    } else {
      assert Arrived(q, query, s'.pump) == before;
      assert Of(s'.taken, query.id) == Of(s.taken, query.id);
    }
  }

  lemma DropKeepsPair(q: nat, query: Query, s: Session)
    requires PairFlow(q, query, s) && SessionEnabled(s, PumpDrop)
    ensures PairFlow(q, query, SessionNext(s, PumpDrop))
  {
    var before := query.got + query.inbox;
    assert Arrived(q, query, Idle) == before;
    if s.pump.target == q {
      LoseLast(before, Of(s.taken, query.id), Count(s.cleared), s.pump.message);
    } else {
      assert Arrived(q, query, s.pump) == before;
    }
  }

  lemma SessionKeepsPair(q: nat, query: Query, s: Session, a: SessionAction)
    requires PairFlow(q, query, s) && SessionEnabled(s, a) && SessionFlags(s) && HasOwnEntry(query, q, s)
    requires forall r :: r in s.pending && s.pending[r] == q ==> query.id == r
    ensures PairFlow(q, query, SessionNext(s, a))
  {
    match a
    case PumpTake => TakeKeepsPair(q, query, s);
    case PumpDrop => DropKeepsPair(q, query, s);
    case _ =>
  }

  /** The notice is no message of the Agent, and it is at most one delivery more. */
  lemma NoticeIsNoMessage(q: nat, query: Query, s: Session)
    ensures var before, after := Arrived(q, query, s.pump), Arrived(q, Notified(query, q, s.pending), s.pump);
            Messages(after) == Messages(before) && |after| <= |before| + 1
  {
    var a, flight := query.got + query.inbox, InFlight(s.pump, q);
    if Notified(query, q, s.pending) != query {
      NoticeInside(a, flight);
      assert query.got + (query.inbox + [ClosedNotice]) == a + [ClosedNotice];
    }
  }

  lemma NoticeKeepsPair(q: nat, query: Query, s: Session)
    requires PairFlow(q, query, s) && s.done && !s.cleared
    ensures PairFlow(q, Notified(query, q, s.pending), s.(pending := map[], cleared := true))
  {
    NoticeIsNoMessage(q, query, s);
  }

  lemma {:induction false} NoticeInside(a: seq<Delivery>, b: seq<Delivery>)
    ensures Messages(a + [ClosedNotice] + b) == Messages(a + b)
  {
    if b == [] {
      assert a + [ClosedNotice] + b == a + [ClosedNotice] && a + b == a;
      MessagesAppend(a, ClosedNotice);
    } else {
      var c, d := b[..|b| - 1], b[|b| - 1];
      NoticeInside(a, c);
      assert a + [ClosedNotice] + b == (a + [ClosedNotice] + c) + [d] && a + b == (a + c) + [d];
      MessagesAppend(a + [ClosedNotice] + c, d);
      MessagesAppend(a + c, d);
    }
  }

  // ---------- A success is what the handler produced

  function ChunksOf(h: Handler): seq<Chunk> {
    if h.answer.Some? && h.answer.value.Produced?
    then [Chunk(h.id, 1, h.answer.value.body, h.answer.value.size)]
    else []
  }

  /** The handler answered without failing, and `chunks` is the beginning of its answer, or all of it. */
  ghost predicate Served(h: Handler, chunks: seq<Chunk>, all: bool) {
    && h.answer.Some? && !h.answer.value.Failed?
    && chunks <= ChunksOf(h)
    && (all ==> chunks == ChunksOf(h))
  }

  /** The chunks are what was answered: the one body that was produced, or nothing unless `all` of it is wanted. */
  predicate IsAnswer(id: RequestId, answer: Answer, chunks: seq<Chunk>, all: bool) {
    match answer
    case Produced(body, size) => chunks == [Chunk(id, 1, body, size)] || (chunks == [] && !all)
    case NoChunk => chunks == []
    case Failed => false
  }

  lemma ServedIsAnswer(h: Handler, chunks: seq<Chunk>, all: bool)
    requires Served(h, chunks, all)
    ensures IsAnswer(h.id, h.answer.value, chunks, all)
  {
  }

  ghost predicate ServedFor(q: nat, handlers: seq<Handler>, chunks: seq<Chunk>, all: bool) {
    exists h :: 0 <= h < |handlers| && handlers[h].origin == q && Served(handlers[h], chunks, all)
  }

  ghost predicate Fulfilled(q: nat, query: Query, handlers: seq<Handler>) {
    query.position.Returning() && query.position.outcome.Succeeded? ==>
      ServedFor(q, handlers, query.position.outcome.chunks, query.whileOpen)
  }

  lemma FulfilledStays(q: nat, query: Query, handlers: seq<Handler>, next: seq<Handler>)
    requires Fulfilled(q, query, handlers) && Grows(handlers, next)
    ensures Fulfilled(q, query, next)
  {
    if query.position.Returning() && query.position.outcome.Succeeded? {
      var chunks := query.position.outcome.chunks;
      var h :| 0 <= h < |handlers| && handlers[h].origin == q && Served(handlers[h], chunks, query.whileOpen);
      assert SameHandler(handlers[h], next[h]) && Served(next[h], chunks, query.whileOpen);
    }
  }

  /** The messages that arrived begin with the chunks and the completion. */
  lemma ArrivedBegin(arrived: seq<Delivery>, n: nat, chunks: seq<Chunk>)
    requires n < |arrived| && Carries(arrived[..n], chunks)
    requires arrived[n].Message? && arrived[n].message.CompleteMessage?
    ensures var ms := Messages(arrived);
            |ms| > n && ms[n] == arrived[n].message && forall k :: 0 <= k < n ==> ms[k] == ChunkMessage(chunks[k])
  {
    CarriedMessages(arrived[..n], chunks);
    MessagesAppend(arrived[..n], arrived[n]);
    MessagesPrefix(arrived[..n] + [arrived[n]], arrived[n + 1..]);
    assert arrived[..n] + [arrived[n]] + arrived[n + 1..] == arrived;
  }

  /** Chunks and a successful completion among what a handler queued are its own. */
  lemma OutputServed(h: Handler, ms: seq<UpMessage>, taken: seq<UpMessage>, chunks: seq<Chunk>, open: bool)
    requires HandlerOk(h) && taken <= h.emitted && Subsequence(ms, taken) && (open ==> ms == taken)
    requires |ms| > |chunks| && ms[|chunks|].CompleteMessage? && ms[|chunks|].succeeded
    requires forall k :: 0 <= k < |chunks| ==> ms[k] == ChunkMessage(chunks[k])
    ensures Served(h, chunks, open)
  {
    SubsequenceLength(ms, taken);
    SubsequenceMember(ms, taken, |chunks|);
    if |chunks| == 1 {
      assert ms == taken == h.emitted == FullOutput(h);
      assert chunks == [chunks[0]];
    }
  }

  /** A complete response among what a handler queued is made of the handler's chunks. */
  lemma ResponseOfHandler(h: Handler, arrived: seq<Delivery>, n: nat, chunks: seq<Chunk>, taken: seq<UpMessage>,
                          open: bool)
    requires HandlerOk(h) && taken <= h.emitted && Delivered(arrived, taken, 1, open)
    requires n < |arrived| && Carries(arrived[..n], chunks)
    requires arrived[n].Message? && arrived[n].message.CompleteMessage? && arrived[n].message.succeeded
    ensures Served(h, chunks, open)
  {
    ArrivedBegin(arrived, n, chunks);
    OutputServed(h, Messages(arrived), taken, chunks, open);
  }

  lemma {:induction false} CarriedMessages(ds: seq<Delivery>, chunks: seq<Chunk>)
    requires Carries(ds, chunks)
    ensures |Messages(ds)| == |chunks| && forall k :: 0 <= k < |chunks| ==> Messages(ds)[k] == ChunkMessage(chunks[k])
  {
    if ds != [] {
      CarriedMessages(ds[..|ds| - 1], chunks[..|chunks| - 1]);
    }
  }

  lemma SubsequenceMember<T>(a: seq<T>, b: seq<T>, k: nat)
    requires Subsequence(a, b) && k < |a|
    ensures a[k] in b
  {
    if Subsequence(a, b[..|b| - 1]) {
      SubsequenceMember(a, b[..|b| - 1], k);
    } else if k < |a| - 1 {
      SubsequenceMember(a[..|a| - 1], b[..|b| - 1], k);
    }
  }

  /** With unique identifiers the handlers of a request stem from the one query that has it. */
  lemma HandlerOfQuery(s: State, q: nat, h: nat)
    requires s.WellIndexed() && UniqueIds(s) && q < |s.queries|
    requires var i := s.queries[q].session;
             SessionFlow(s.queries, i, s.sessions[i]) && h < |s.sessions[i].agent.handlers|
    requires s.sessions[s.queries[q].session].agent.handlers[h].id == s.queries[q].id
    ensures s.sessions[s.queries[q].session].agent.handlers[h].origin == q && s.queries[q].sent
  {
    var i := s.queries[q].session;
    var o := s.sessions[i].agent.handlers[h].origin;
    assert SentBy(s.queries, o, i, s.queries[q].id);
  }

  lemma DistinctHandlers(s: State, i: nat)
    requires UniqueIds(s) && i < |s.sessions| && SessionFlow(s.queries, i, s.sessions[i])
    ensures DistinctIds(s.sessions[i].agent.handlers)
  {
    var handlers := s.sessions[i].agent.handlers;
    forall g, h | 0 <= g < h < |handlers| ensures handlers[g].id != handlers[h].id {
      assert SentBy(s.queries, handlers[g].origin, i, handlers[g].id)
             && SentBy(s.queries, handlers[h].origin, i, handlers[h].id);
    }
  }

  lemma NothingBeforeSending(s: State, q: nat)
    requires s.WellIndexed() && UniqueIds(s) && q < |s.queries| && !s.queries[q].sent
    requires SessionFlow(s.queries, s.queries[q].session, s.sessions[s.queries[q].session])
    ensures Of(s.sessions[s.queries[q].session].taken, s.queries[q].id) == []
  {
    var session, id := s.sessions[s.queries[q].session], s.queries[q].id;
    assert !Answers(session.agent.handlers, id) by {
      if h :| 0 <= h < |session.agent.handlers| && session.agent.handlers[h].id == id {
        HandlerOfQuery(s, q, h);
      }
    }
    OfConcat(session.taken, session.up, id);
    OfConcat(session.taken + session.up, session.agent.outgoing, id);
  }

  /** What the pump took for a request is what its handler queued first. */
  lemma TakenFromHandler(s: State, q: nat) returns (h: nat)
    requires s.WellIndexed() && UniqueIds(s) && q < |s.queries|
    requires SessionFlow(s.queries, s.queries[q].session, s.sessions[s.queries[q].session])
    requires Of(s.sessions[s.queries[q].session].taken, s.queries[q].id) != []
    ensures var session := s.sessions[s.queries[q].session];
            && h < |session.agent.handlers| && session.agent.handlers[h].origin == q
            && Of(session.taken, s.queries[q].id) <= session.agent.handlers[h].emitted
  {
    var session, id := s.sessions[s.queries[q].session], s.queries[q].id;
    OfConcat(session.taken, session.up, id);
    OfConcat(session.taken + session.up, session.agent.outgoing, id);
    assert Answers(session.agent.handlers, id);
    h :| 0 <= h < |session.agent.handlers| && session.agent.handlers[h].id == id;
    HandlerOfQuery(s, q, h);
    DistinctHandlers(s, s.queries[q].session);
  }

  lemma CompletionWasTaken(arrived: seq<Delivery>, n: nat, taken: seq<UpMessage>)
    requires n < |arrived| && arrived[n].Message? && Subsequence(Messages(arrived), taken)
    ensures taken != []
  {
    MessagesAppend(arrived[..n], arrived[n]);
    MessagesPrefix(arrived[..n] + [arrived[n]], arrived[n + 1..]);
    assert arrived[..n] + [arrived[n]] + arrived[n + 1..] == arrived;
    SubsequenceLength(Messages(arrived), taken);
  }

  lemma SuccessIsServed(s: State, q: nat, chunks: seq<Chunk>)
    requires s.WellIndexed() && UniqueIds(s) && q < |s.queries|
    requires var query, session := s.queries[q], s.sessions[s.queries[q].session];
             && SessionFlow(s.queries, query.session, session) && PairFlow(q, query, session) && QueryShape(query)
             && query.position.Receiving? && |query.inbox| > 0
             && React(query.id, query.progress, query.inbox[0]) == Stop(Succeeded(chunks))
    ensures ServedFor(q, s.sessions[s.queries[q].session].agent.handlers, chunks,
                      !s.sessions[s.queries[q].session].done)
    ensures exists h :: 0 <= h < |s.sessions[s.queries[q].session].agent.handlers| &&
              var handler := s.sessions[s.queries[q].session].agent.handlers[h];
              && handler.origin == q && handler.answer.Some?
              && IsAnswer(handler.id, handler.answer.value, chunks, !s.sessions[s.queries[q].session].done)
  {
    var query, session := s.queries[q], s.sessions[s.queries[q].session];
    var arrived := Arrived(q, query, session.pump);
    var n := |query.got|;
    assert arrived[..n] == query.got && arrived[n] == query.inbox[0];
    CompletionWasTaken(arrived, n, Of(session.taken, query.id));
    var h := TakenFromHandler(s, q);
    ResponseOfHandler(session.agent.handlers[h], arrived, n, chunks, Of(session.taken, query.id), !session.done);
    ServedIsAnswer(session.agent.handlers[h], chunks, !session.done);
  }

  // ---------- Every step keeps the flow

  predicate PumpTarget(queries: seq<Query>, i: nat, pump: Pump) {
    pump.Delivering? ==>
      pump.target < |queries| && queries[pump.target].session == i
        && queries[pump.target].id == pump.message.RequestId()
  }

  ghost predicate QueryFlowInv(s: State, q: nat)
    requires s.WellIndexed() && q < |s.queries|
  {
    var query, session := s.queries[q], s.sessions[s.queries[q].session];
    QueryShape(query) && PairFlow(q, query, session) && Fulfilled(q, query, session.agent.handlers)
  }

  ghost predicate FlowInv(s: State) {
    && s.WellIndexed()
    && (forall i :: 0 <= i < |s.sessions| ==>
        SessionFlow(s.queries, i, s.sessions[i]) && PumpTarget(s.queries, i, s.sessions[i].pump))
    && (forall q :: 0 <= q < |s.queries| ==> QueryFlowInv(s, q))
  }

  /** Queries never change their identity and never forget that they sent. */
  predicate Advance(before: seq<Query>, after: seq<Query>) {
    && |before| <= |after|
    && forall q :: 0 <= q < |before| ==>
         after[q].id == before[q].id && after[q].session == before[q].session && (before[q].sent ==> after[q].sent)
  }

  lemma AdvanceKeepsFlow(before: seq<Query>, after: seq<Query>, i: nat, s: Session)
    requires Advance(before, after) && SessionFlow(before, i, s)
    ensures SessionFlow(after, i, s)
  {
    forall k | 0 <= k < |s.Downstream()| && s.Downstream()[k].Request?
      ensures SentBy(after, s.Downstream()[k].origin, i, s.Downstream()[k].id)
    {
      assert SentBy(before, s.Downstream()[k].origin, i, s.Downstream()[k].id);
    }
    forall h | 0 <= h < |s.agent.handlers|
      ensures SentBy(after, s.agent.handlers[h].origin, i, s.agent.handlers[h].id)
    {
      assert SentBy(before, s.agent.handlers[h].origin, i, s.agent.handlers[h].id);
    }
  }

  /** Sending the request of a query that had not sent one */
  lemma AppendOrigin(queries: seq<Query>, i: nat, down: seq<DownMessage>, handlers: seq<Handler>, m: DownMessage)
    requires OriginsDistinct(down, handlers) && OriginsValid(queries, i, down, handlers)
    requires m.Request? ==> m.origin < |queries| && !queries[m.origin].sent
    ensures OriginsDistinct(down + [m], handlers)
  {
    if m.Request? {
      forall k | 0 <= k < |down| && down[k].Request? ensures down[k].origin != m.origin {
        assert SentBy(queries, down[k].origin, i, down[k].id);
      }
      forall h | 0 <= h < |handlers| ensures handlers[h].origin != m.origin {
        assert SentBy(queries, handlers[h].origin, i, handlers[h].id);
      }
    }
  }

  lemma QueryKeepsSession(queries: seq<Query>, q: nat, l: Local, a: QueryAction)
    requires q < |queries| && queries[q] == l.query && QueryEnabled(l, q, a) && QueryShape(l.query)
    requires SessionFlow(queries, l.query.session, l.session)
    ensures SessionFlow(queries[q := QueryNext(l, q, a).query], l.query.session, QueryNext(l, q, a).session)
  {
    var r := QueryNext(l, q, a);
    var queries' := queries[q := r.query];
    QueryTouches(l, q, a);
    AdvanceKeepsFlow(queries, queries', l.query.session, l.session);
    assert r.session.Upstream() == l.session.Upstream();
    if r.session.outbound == l.session.outbound {
      assert r.session.Downstream() == l.session.Downstream();
    } else {
      var m := r.session.outbound[|r.session.outbound| - 1];
      assert r.session.Downstream() == l.session.Downstream() + [m];
      AppendOrigin(queries, l.query.session, l.session.Downstream(), l.session.agent.handlers, m);
      assert m.Request? ==> SentBy(queries', m.origin, l.query.session, m.id);
    }
  }

  lemma ByQueryKeepsSessions(s: State, q: nat, a: QueryAction)
    requires FlowInv(s) && Enabled(s, ByQuery(q, a))
    ensures var s' := Next(s, ByQuery(q, a));
            forall i :: 0 <= i < |s'.sessions| ==>
              SessionFlow(s'.queries, i, s'.sessions[i]) && PumpTarget(s'.queries, i, s'.sessions[i].pump)
  {
    var s' := Next(s, ByQuery(q, a));
    var l := LocalView(s, q);
    assert QueryFlowInv(s, q);
    QueryTouches(l, q, a);
    QueryKeepsSession(s.queries, q, l, a);
    forall i | 0 <= i < |s'.sessions|
      ensures SessionFlow(s'.queries, i, s'.sessions[i]) && PumpTarget(s'.queries, i, s'.sessions[i].pump)
    {
      if i != l.query.session {
        AdvanceKeepsFlow(s.queries, s'.queries, i, s.sessions[i]);
      }
    }
  }

  lemma NothingArrivedBeforeSending(s: State, q: nat)
    requires FlowInv(s) && UniqueIds(s) && q < |s.queries| && s.queries[q].position.HoldsBoth?
    ensures var l := LocalView(s, q);
            Messages(Arrived(q, l.query, l.session.pump)) == Of(l.session.taken, l.query.id)
  {
    var l := LocalView(s, q);
    assert QueryFlowInv(s, q);
    NothingBeforeSending(s, q);
    SubsequenceLength(Messages(Arrived(q, l.query, l.session.pump)), Of(l.session.taken, l.query.id));
  }

  lemma QueryKeepsFulfilled(s: State, q: nat, a: QueryAction)
    requires FlowInv(s) && UniqueIds(s) && Enabled(s, ByQuery(q, a))
    ensures var r := QueryNext(LocalView(s, q), q, a); Fulfilled(q, r.query, r.session.agent.handlers)
  {
    var l := LocalView(s, q);
    var r := QueryNext(l, q, a);
    assert QueryFlowInv(s, q);
    if a.Receive? {
      match React(l.query.id, l.query.progress, l.query.inbox[0])
      case Stop(Succeeded(chunks)) => SuccessIsServed(s, q, chunks);
      case _ =>
    } else {
      QueryTouches(l, q, a);
    }
  }

  lemma QueryKeepsItsFlow(s: State, q: nat, a: QueryAction)
    requires FlowInv(s) && UniqueIds(s) && Enabled(s, ByQuery(q, a))
    ensures var r := QueryNext(LocalView(s, q), q, a);
            QueryShape(r.query) && PairFlow(q, r.query, r.session) && Fulfilled(q, r.query, r.session.agent.handlers)
  {
    assert QueryFlowInv(s, q);
    if a.Add? {
      NothingArrivedBeforeSending(s, q);
    }
    QueryKeepsShape(LocalView(s, q), q, a);
    QueryKeepsPair(LocalView(s, q), q, a);
    QueryKeepsFulfilled(s, q, a);
  }

  lemma OtherQueryKeepsFlow(s: State, q: nat, a: QueryAction, p: nat)
    requires FlowInv(s) && Enabled(s, ByQuery(q, a)) && p < |s.queries| && p != q
    ensures Next(s, ByQuery(q, a)).WellIndexed() && QueryFlowInv(Next(s, ByQuery(q, a)), p)
  {
    NextWellIndexed(s, ByQuery(q, a));
    QueryTouches(LocalView(s, q), q, a);
    assert QueryFlowInv(s, p);
    var session, session' := s.sessions[s.queries[p].session], Next(s, ByQuery(q, a)).sessions[s.queries[p].session];
    assert InFlight(session'.pump, p) == InFlight(session.pump, p);
  }

  /** A query's step, seen from the whole system */
  lemma LocalNext(s: State, q: nat, a: QueryAction)
    requires s.WellIndexed() && Enabled(s, ByQuery(q, a))
    ensures var s', r := Next(s, ByQuery(q, a)), QueryNext(LocalView(s, q), q, a);
            && s'.WellIndexed() && q < |s'.queries| && s'.queries[q] == r.query
            && r.query.session == s.queries[q].session && s'.sessions[s.queries[q].session] == r.session
  {
    NextWellIndexed(s, ByQuery(q, a));
    QueryAddsItself(LocalView(s, q), q, a);
  }

  lemma OwnQueryKeepsFlow(s: State, q: nat, a: QueryAction)
    requires FlowInv(s) && UniqueIds(s) && Enabled(s, ByQuery(q, a))
    ensures var s' := Next(s, ByQuery(q, a));
            s'.WellIndexed() && q < |s'.queries| && QueryFlowInv(s', q)
  {
    LocalNext(s, q, a);
    QueryKeepsItsFlow(s, q, a);
  }

  lemma ByQueryKeepsFlow(s: State, q: nat, a: QueryAction)
    requires FlowInv(s) && UniqueIds(s) && Enabled(s, ByQuery(q, a))
    ensures FlowInv(Next(s, ByQuery(q, a)))
  {
    var s' := Next(s, ByQuery(q, a));
    OwnQueryKeepsFlow(s, q, a);
    ByQueryKeepsSessions(s, q, a);
    forall p | 0 <= p < |s'.queries| ensures QueryFlowInv(s', p) {
      if p != q {
        OtherQueryKeepsFlow(s, q, a, p);
      }
    }
  }

  lemma BySessionKeepsQuery(s: State, i: nat, a: SessionAction, q: nat)
    requires FlowInv(s) && RegistryInv(s) && PendingInv(s) && Enabled(s, BySession(i, a)) && q < |s.queries|
    ensures var s' := Next(s, BySession(i, a));
            s'.WellIndexed() && q < |s'.queries| && QueryFlowInv(s', q)
  {
    var s' := Next(s, BySession(i, a));
    NextWellIndexed(s, BySession(i, a));
    assert QueryFlowInv(s, q);
    if s.queries[q].session == i {
      OwnEntries(s, i, q);
      SessionKeepsFlow(s.queries, i, s.sessions[i], a);
      SessionKeepsPair(q, s.queries[q], s.sessions[i], a);
      FulfilledStays(q, s.queries[q], s.sessions[i].agent.handlers, s'.sessions[i].agent.handlers);
    }
  }

  lemma BySessionKeepsSessions(s: State, i: nat, a: SessionAction)
    requires FlowInv(s) && PendingInv(s) && Enabled(s, BySession(i, a))
    ensures var s' := Next(s, BySession(i, a));
            forall j :: 0 <= j < |s'.sessions| ==>
              SessionFlow(s'.queries, j, s'.sessions[j]) && PumpTarget(s'.queries, j, s'.sessions[j].pump)
  {
    SessionKeepsFlow(s.queries, i, s.sessions[i], a);
    SessionKeepsTarget(s, i, a);
  }

  lemma BySessionKeepsFlow(s: State, i: nat, a: SessionAction)
    requires FlowInv(s) && RegistryInv(s) && PendingInv(s) && Enabled(s, BySession(i, a))
    ensures FlowInv(Next(s, BySession(i, a)))
  {
    var s' := Next(s, BySession(i, a));
    NextWellIndexed(s, BySession(i, a));
    BySessionKeepsSessions(s, i, a);
    forall q | 0 <= q < |s'.queries| ensures QueryFlowInv(s', q) {
      BySessionKeepsQuery(s, i, a, q);
    }
  }

  lemma OwnEntries(s: State, i: nat, q: nat)
    requires PendingInv(s) && i < |s.sessions| && q < |s.queries| && s.queries[q].session == i
    ensures HasOwnEntry(s.queries[q], q, s.sessions[i])
    ensures forall r :: r in s.sessions[i].pending && s.sessions[i].pending[r] == q ==> s.queries[q].id == r
  {
    forall r | r in s.sessions[i].pending && s.sessions[i].pending[r] == q ensures s.queries[q].id == r {
      assert Owns(s, s.sessions[i].pending[r], i, r);
    }
  }

  lemma SessionKeepsTarget(s: State, i: nat, a: SessionAction)
    requires FlowInv(s) && PendingInv(s) && Enabled(s, BySession(i, a))
    ensures PumpTarget(s.queries, i, SessionNext(s.sessions[i], a).pump)
  {
    var session := s.sessions[i];
    if a.PumpTake? && session.up[0].RequestId() in session.pending {
      assert Owns(s, session.pending[session.up[0].RequestId()], i, session.up[0].RequestId());
    }
  }

  lemma ClearKeepsQuery(s: State, i: nat, q: nat)
    requires FlowInv(s) && Enabled(s, CloseClear(i)) && q < |s.queries|
    ensures var s' := Next(s, CloseClear(i));
            s'.WellIndexed() && q < |s'.queries| && QueryFlowInv(s', q)
  {
    NextWellIndexed(s, CloseClear(i));
    assert QueryFlowInv(s, q);
    if s.queries[q].session == i {
      NoticeKeepsPair(q, s.queries[q], s.sessions[i]);
    }
  }

  lemma ClearKeepsFlow(s: State, i: nat)
    requires FlowInv(s) && Enabled(s, CloseClear(i))
    ensures FlowInv(Next(s, CloseClear(i)))
  {
    var s' := Next(s, CloseClear(i));
    NextWellIndexed(s, CloseClear(i));
    assert Advance(s.queries, s'.queries);
    forall j | 0 <= j < |s'.sessions|
      ensures SessionFlow(s'.queries, j, s'.sessions[j]) && PumpTarget(s'.queries, j, s'.sessions[j].pump)
    {
      AdvanceKeepsFlow(s.queries, s'.queries, j, s.sessions[j]);
      assert s'.sessions[j].Upstream() == s.sessions[j].Upstream()
             && s'.sessions[j].Downstream() == s.sessions[j].Downstream();
    }
    forall q | 0 <= q < |s'.queries| ensures QueryFlowInv(s', q) {
      ClearKeepsQuery(s, i, q);
    }
  }

  lemma StartKeepsFlow(s: State, n: InstallationId, id: RequestId)
    requires FlowInv(s) && Enabled(s, Start(n, id)) && UniqueIds(Next(s, Start(n, id)))
    ensures FlowInv(Next(s, Start(n, id)))
  {
    var s' := Next(s, Start(n, id));
    NextWellIndexed(s, Start(n, id));
    var added := |s.queries|;
    forall j | 0 <= j < |s'.sessions|
      ensures SessionFlow(s'.queries, j, s'.sessions[j]) && PumpTarget(s'.queries, j, s'.sessions[j].pump)
    {
      AdvanceKeepsFlow(s.queries, s'.queries, j, s.sessions[j]);
    }
    forall q | 0 <= q < |s'.queries| ensures QueryFlowInv(s', q) {
      if q < added {
        assert QueryFlowInv(s, q);
      } else {
        assert Arrived(q, s'.queries[q], s'.sessions[s'.queries[q].session].pump) == [];
      }
    }
  }

  /** Steps on the registry leave queries, streams and Agents alone. */
  lemma RegistryStepKeepsFlow(s: State, s': State)
    requires FlowInv(s) && s'.WellIndexed() && s'.queries == s.queries && |s'.sessions| >= |s.sessions|
    requires forall j :: 0 <= j < |s.sessions| ==>
               || s'.sessions[j] == s.sessions[j].(closing := s'.sessions[j].closing)
               || (s.sessions[j].pump.Idle? && s'.sessions[j] ==
                   s.sessions[j].(closing := s'.sessions[j].closing, pump := Exited))
    requires forall j :: |s.sessions| <= j < |s'.sessions| ==> s'.sessions[j] == NewSession(s'.sessions[j].installation)
    ensures FlowInv(s')
  {
    forall j | 0 <= j < |s'.sessions|
      ensures SessionFlow(s'.queries, j, s'.sessions[j]) && PumpTarget(s'.queries, j, s'.sessions[j].pump)
    {
      if j < |s.sessions| {
        assert SessionFlow(s.queries, j, s.sessions[j]);
        assert s'.sessions[j].Upstream() == s.sessions[j].Upstream()
               && s'.sessions[j].Downstream() == s.sessions[j].Downstream();
      } else {
        assert s'.sessions[j].Upstream() == [] && s'.sessions[j].Downstream() == [];
        assert BusyHandlers([]) == {};
      }
    }
    forall q | 0 <= q < |s'.queries| ensures QueryFlowInv(s', q) {
      assert QueryFlowInv(s, q);
    }
  }

  lemma NextKeepsFlow(s: State, a: Action)
    requires FlowInv(s) && RegistryInv(s) && PendingInv(s) && Enabled(s, a)
    requires UniqueIds(s) && UniqueIds(Next(s, a))
    ensures FlowInv(Next(s, a))
  {
    match a
    case Start(n, id) => StartKeepsFlow(s, n, id);
    case ByQuery(q, qa) => ByQueryKeepsFlow(s, q, qa);
    case BySession(i, sa) => BySessionKeepsFlow(s, i, sa);
    case CloseClear(i) => ClearKeepsFlow(s, i);
    case Register(n) =>
      RegisterEffect(s, n);
      RegistryStepKeepsFlow(s, Next(s, a));
    case Unregister(i) =>
      NextWellIndexed(s, a);
      RegistryStepKeepsFlow(s, Next(s, a));
  }

  lemma NextKeepsIds(s: State, a: Action)
    requires s.WellIndexed() && Enabled(s, a) && UniqueIds(Next(s, a))
    ensures UniqueIds(s)
  {
    var s' := Next(s, a);
    NextAdvances(s, a);
    forall p, q | 0 <= p < q < |s.queries| ensures s.queries[p].id != s.queries[q].id {
      assert s'.queries[p].id != s'.queries[q].id;
    }
  }

  lemma NextAdvances(s: State, a: Action)
    requires s.WellIndexed() && Enabled(s, a)
    ensures Advance(s.queries, Next(s, a).queries)
  {
    if a.ByQuery? {
      QueryTouches(LocalView(s, a.q), a.q, a.qa);
    }
  }

  lemma {:induction false} RunsKeepFlow(actions: seq<Action>, s: State)
    requires Run(actions) == Some(s) && UniqueIds(s)
    ensures FlowInv(s)
  {
    if actions != [] {
      var last := |actions| - 1;
      var before := Run(actions[..last]).value;
      NextKeepsIds(before, actions[last]);
      RunsKeepFlow(actions[..last], before);
      RunsKeepTokens(actions[..last], before);
      NextKeepsFlow(before, actions[last]);
    }
  }
}
