/**
 Where messages get lost: of what the pump takes for a pending query, everything arrives except
 what it abandons because the session is done. So a successful response is complete exactly if
 no chunk of it was abandoned.
 */
module QueryLosses {
  import opened Options
  import opened QueryTypes
  import opened QueryMachine
  import opened QueryTokens
  import opened QueryFlow
  import opened QueryEndToEnd

  /** A query that succeeded took a complete response from its inbox. */
  ghost predicate Ended(query: Query) {
    query.position.Returning() && query.position.outcome.Succeeded? ==>
      CompleteResponse(query.id, query.got, query.position.outcome.chunks)
  }

  ghost predicate SameMembers(a: seq<UpMessage>, b: seq<UpMessage>, c: seq<UpMessage>) {
    forall m :: m in c <==> m in a || m in b
  }

  /**
   What arrived and what was abandoned is what the pump took first, and all it took as long as the
   query is `pending`.
   */
  ghost predicate Accounted(arrived: seq<UpMessage>, abandoned: seq<UpMessage>, taken: seq<UpMessage>, pending: bool) {
    var n := |arrived| + |abandoned|;
    n <= |taken| && SameMembers(arrived, abandoned, taken[..n]) && (pending ==> n == |taken|)
  }

  predicate Pending(q: nat, query: Query, s: Session) {
    query.id in s.pending && s.pending[query.id] == q
  }

  ghost predicate PairAccounted(q: nat, query: Query, s: Session) {
    Accounted(Messages(Arrived(q, query, s.pump)), Of(s.abandoned, query.id), Of(s.taken, query.id),
              Pending(q, query, s))
  }

  /** Only what was taken is delivered or abandoned. */
  predicate TakenFirst(s: Session) {
    && (forall m :: m in s.abandoned ==> m in s.taken)
    && (s.pump.Delivering? ==> s.pump.message in s.taken)
  }

  ghost predicate QueryLossOk(s: State, q: nat)
    requires s.WellIndexed() && q < |s.queries|
  {
    Ended(s.queries[q]) && PairAccounted(q, s.queries[q], s.sessions[s.queries[q].session])
  }

  ghost predicate LossInv(s: State) {
    && s.WellIndexed()
    && (forall i :: 0 <= i < |s.sessions| ==> TakenFirst(s.sessions[i]))
    && (forall q :: 0 <= q < |s.queries| ==> QueryLossOk(s, q))
  }

  // ---------- Sequences of messages

  lemma {:induction false} OfMember(ms: seq<UpMessage>, id: RequestId, m: UpMessage)
    ensures m in Of(ms, id) <==> m in ms && m.RequestId() == id
  {
    if ms != [] {
      OfMember(ms[..|ms| - 1], id, m);
      assert ms == ms[..|ms| - 1] + [ms[|ms| - 1]];
    }
  }

  lemma NoneOf(s: Session, id: RequestId)
    requires TakenFirst(s) && Of(s.taken, id) == []
    ensures Of(s.abandoned, id) == []
  {
    if Of(s.abandoned, id) != [] {
      var m := Of(s.abandoned, id)[0];
      OfMember(s.abandoned, id, m);
      OfMember(s.taken, id, m);
    }
  }

  lemma TakeOneMore(arrived: seq<UpMessage>, abandoned: seq<UpMessage>, taken: seq<UpMessage>, m: UpMessage)
    ensures Accounted(arrived, abandoned, taken, true) ==> Accounted(arrived + [m], abandoned, taken + [m], true)
    ensures Accounted(arrived, abandoned, taken, false) ==> Accounted(arrived, abandoned, taken + [m], false)
  {
    var n := |arrived| + |abandoned|;
    if n <= |taken| {
      assert (taken + [m])[..n] == taken[..n];
      assert n == |taken| ==> (taken + [m])[..n + 1] == taken + [m] && taken[..n] == taken;
    }
  }

  lemma AbandonLast(arrived: seq<UpMessage>, abandoned: seq<UpMessage>, taken: seq<UpMessage>, pending: bool,
                    m: UpMessage)
    requires Accounted(arrived + [m], abandoned, taken, pending)
    ensures Accounted(arrived, abandoned + [m], taken, pending)
  {
    var n := |arrived| + |abandoned| + 1;
    forall x ensures x in taken[..n] <==> x in arrived || x in abandoned + [m] {
      assert x in taken[..n] <==> x in arrived + [m] || x in abandoned;
    }
  }

  // ---------- Steps of a query

  lemma QueryKeepsEnded(l: Local, q: nat, a: QueryAction)
    requires QueryEnabled(l, q, a) && QueryShape(l.query) && Ended(l.query)
    ensures Ended(QueryNext(l, q, a).query)
  {
    if a.Receive? {
      ReactKeepsConsistent(l.query.id, l.query.progress, l.query.got, l.query.inbox[0]);
    }
  }

  lemma QueryKeepsHistory(l: Local, q: nat, a: QueryAction)
    requires QueryEnabled(l, q, a)
    ensures var s, s' := l.session, QueryNext(l, q, a).session;
            && s'.taken == s.taken && s'.abandoned == s.abandoned && QueryNext(l, q, a).query.id == l.query.id
            && (s'.pump == s.pump || (a.Accept? && s'.pump == Idle))
            && (Pending(q, QueryNext(l, q, a).query, s') ==> a.Add? || Pending(q, l.query, s))
  {
  }

  lemma QueryKeepsAccount(l: Local, q: nat, a: QueryAction)
    requires QueryEnabled(l, q, a) && PairAccounted(q, l.query, l.session)
    requires a.Add? ==> Of(l.session.taken, l.query.id) == []
    ensures PairAccounted(q, QueryNext(l, q, a).query, QueryNext(l, q, a).session)
  {
    QueryKeepsArrived(l, q, a);
    QueryKeepsHistory(l, q, a);
  }

  lemma OwnQueryKeepsLosses(s: State, q: nat, a: QueryAction)
    requires FlowInv(s) && LossInv(s) && UniqueIds(s) && Enabled(s, ByQuery(q, a))
    ensures var s' := Next(s, ByQuery(q, a));
            s'.WellIndexed() && q < |s'.queries| && QueryLossOk(s', q)
  {
    LocalNext(s, q, a);
    assert QueryFlowInv(s, q) && QueryLossOk(s, q);
    var l := LocalView(s, q);
    if a.Add? {
      NothingBeforeSending(s, q);
    }
    QueryKeepsEnded(l, q, a);
    QueryKeepsAccount(l, q, a);
  }

  /** A session that changed nothing of what concerns the query's messages */
  lemma SameAccount(q: nat, query: Query, s: Session, s': Session)
    requires PairAccounted(q, query, s) && s'.taken == s.taken && s'.abandoned == s.abandoned
    requires InFlight(s'.pump, q) == InFlight(s.pump, q) && (Pending(q, query, s') ==> Pending(q, query, s))
    ensures PairAccounted(q, query, s')
  {
    assert Arrived(q, query, s'.pump) == Arrived(q, query, s.pump);
  }

  lemma OthersStepKeepsAccount(l: Local, q: nat, a: QueryAction, p: nat, query: Query)
    requires QueryEnabled(l, q, a) && PairAccounted(p, query, l.session) && p != q
    ensures PairAccounted(p, query, QueryNext(l, q, a).session)
  {
    QueryKeepsHistory(l, q, a);
    QueryAddsItself(l, q, a);
    SameAccount(p, query, l.session, QueryNext(l, q, a).session);
  }

  lemma OtherQueryKeepsLosses(s: State, q: nat, a: QueryAction, p: nat)
    requires LossInv(s) && Enabled(s, ByQuery(q, a)) && p < |s.queries| && p != q
    ensures Next(s, ByQuery(q, a)).WellIndexed() && QueryLossOk(Next(s, ByQuery(q, a)), p)
  {
    NextWellIndexed(s, ByQuery(q, a));
    assert QueryLossOk(s, p);
    if s.queries[p].session == s.queries[q].session {
      OthersStepKeepsAccount(LocalView(s, q), q, a, p, s.queries[p]);
    }
  }

  lemma ByQueryKeepsLosses(s: State, q: nat, a: QueryAction)
    requires FlowInv(s) && LossInv(s) && UniqueIds(s) && Enabled(s, ByQuery(q, a))
    ensures LossInv(Next(s, ByQuery(q, a)))
  {
    var s' := Next(s, ByQuery(q, a));
    OwnQueryKeepsLosses(s, q, a);
    QueryKeepsHistory(LocalView(s, q), q, a);
    forall p | 0 <= p < |s'.queries| ensures QueryLossOk(s', p) {
      if p != q {
        OtherQueryKeepsLosses(s, q, a, p);
      }
    }
  }

  // ---------- Steps of a session

  lemma SessionKeepsTakenFirst(s: Session, a: SessionAction)
    requires TakenFirst(s) && SessionEnabled(s, a)
    ensures TakenFirst(SessionNext(s, a))
  {
  }

  lemma TakeOwnKeepsAccount(q: nat, query: Query, s: Session)
    requires PairAccounted(q, query, s) && SessionEnabled(s, PumpTake) && s.up[0].RequestId() == query.id
    ensures PairAccounted(q, query, SessionNext(s, PumpTake))
  {
    var s', m := SessionNext(s, PumpTake), s.up[0];
    var before := query.got + query.inbox;
    assert Arrived(q, query, s.pump) == before;
    OfAppend(s.taken, m, query.id);
    TakeOneMore(Messages(before), Of(s.abandoned, query.id), Of(s.taken, query.id), m);
    if Pending(q, query, s) {
      MessagesAppend(before, Message(m));
      assert Arrived(q, query, s'.pump) == before + [Message(m)];
    } else {
      assert Arrived(q, query, s'.pump) == before;
    }
  }

  lemma TakeKeepsAccount(q: nat, query: Query, s: Session)
    requires PairAccounted(q, query, s) && SessionEnabled(s, PumpTake)
    requires forall r :: r in s.pending && s.pending[r] == q ==> query.id == r
    ensures PairAccounted(q, query, SessionNext(s, PumpTake))
  {
    var s', m := SessionNext(s, PumpTake), s.up[0];
    if m.RequestId() == query.id {
      TakeOwnKeepsAccount(q, query, s);
    } else {
      OfAppend(s.taken, m, query.id);
      assert Of(s'.taken, query.id) == Of(s.taken, query.id);
      assert Arrived(q, query, s'.pump) == Arrived(q, query, s.pump);
    }
  }

  lemma DropKeepsAccount(q: nat, query: Query, s: Session)
    requires PairAccounted(q, query, s) && SessionEnabled(s, PumpDrop)
    requires s.pump.target == q <==> s.pump.message.RequestId() == query.id
    ensures PairAccounted(q, query, SessionNext(s, PumpDrop))
  {
    var before, m := query.got + query.inbox, s.pump.message;
    assert Arrived(q, query, Idle) == before;
    OfAppend(s.abandoned, m, query.id);
    if s.pump.target == q {
      MessagesAppend(before, Message(m));
      AbandonLast(Messages(before), Of(s.abandoned, query.id), Of(s.taken, query.id), Pending(q, query, s), m);
    } else {
      assert Arrived(q, query, s.pump) == before;
      assert Of(s.abandoned + [m], query.id) == Of(s.abandoned, query.id);
    }
  }

  lemma SessionKeepsAccount(q: nat, query: Query, s: Session, a: SessionAction)
    requires PairAccounted(q, query, s) && SessionEnabled(s, a)
    requires forall r :: r in s.pending && s.pending[r] == q ==> query.id == r
    requires a.PumpDrop? ==> (s.pump.target == q <==> s.pump.message.RequestId() == query.id)
    ensures PairAccounted(q, query, SessionNext(s, a))
  {
    match a
    case PumpTake => TakeKeepsAccount(q, query, s);
    case PumpDrop => DropKeepsAccount(q, query, s);
    case _ =>
  }

  /** With unique identifiers the pump's target is the one query of its message. */
  lemma TargetOfMessage(s: State, i: nat, q: nat)
    requires s.WellIndexed() && UniqueIds(s) && i < |s.sessions| && q < |s.queries|
    requires s.sessions[i].pump.Delivering? && PumpTarget(s.queries, i, s.sessions[i].pump)
    ensures s.sessions[i].pump.target == q <==> s.sessions[i].pump.message.RequestId() == s.queries[q].id
  {
  }

  lemma OwnSessionKeepsAccount(s: State, i: nat, a: SessionAction, q: nat)
    requires FlowInv(s) && PendingInv(s) && UniqueIds(s) && Enabled(s, BySession(i, a)) && q < |s.queries|
    requires s.queries[q].session == i && PairAccounted(q, s.queries[q], s.sessions[i])
    ensures PairAccounted(q, s.queries[q], SessionNext(s.sessions[i], a))
  {
    OwnEntries(s, i, q);
    if a.PumpDrop? {
      TargetOfMessage(s, i, q);
    }
    SessionKeepsAccount(q, s.queries[q], s.sessions[i], a);
  }

  lemma BySessionKeepsQueryLosses(s: State, i: nat, a: SessionAction, q: nat)
    requires FlowInv(s) && LossInv(s) && PendingInv(s) && UniqueIds(s) && Enabled(s, BySession(i, a)) && q < |s.queries|
    ensures var s' := Next(s, BySession(i, a));
            s'.WellIndexed() && q < |s'.queries| && QueryLossOk(s', q)
  {
    NextWellIndexed(s, BySession(i, a));
    assert QueryLossOk(s, q);
    if s.queries[q].session == i {
      OwnSessionKeepsAccount(s, i, a, q);
    }
  }

  lemma BySessionKeepsLosses(s: State, i: nat, a: SessionAction)
    requires FlowInv(s) && LossInv(s) && PendingInv(s) && UniqueIds(s) && Enabled(s, BySession(i, a))
    ensures LossInv(Next(s, BySession(i, a)))
  {
    var s' := Next(s, BySession(i, a));
    NextWellIndexed(s, BySession(i, a));
    SessionKeepsTakenFirst(s.sessions[i], a);
    forall q | 0 <= q < |s'.queries| ensures QueryLossOk(s', q) {
      BySessionKeepsQueryLosses(s, i, a, q);
    }
  }

  // ---------- Steps of the whole system

  lemma NoticeKeepsAccount(q: nat, query: Query, s: Session)
    requires PairAccounted(q, query, s)
    ensures PairAccounted(q, Notified(query, q, s.pending), s.(pending := map[], cleared := true))
  {
    NoticeIsNoMessage(q, query, s);
  }

  lemma ClearKeepsQueryLosses(s: State, i: nat, q: nat)
    requires LossInv(s) && Enabled(s, CloseClear(i)) && q < |s.queries|
    ensures var s' := Next(s, CloseClear(i));
            s'.WellIndexed() && q < |s'.queries| && QueryLossOk(s', q)
  {
    NextWellIndexed(s, CloseClear(i));
    assert QueryLossOk(s, q);
    if s.queries[q].session == i {
      NoticeKeepsAccount(q, s.queries[q], s.sessions[i]);
    }
  }

  lemma ClearKeepsLosses(s: State, i: nat)
    requires LossInv(s) && Enabled(s, CloseClear(i))
    ensures LossInv(Next(s, CloseClear(i)))
  {
    var s' := Next(s, CloseClear(i));
    NextWellIndexed(s, CloseClear(i));
    forall q | 0 <= q < |s'.queries| ensures QueryLossOk(s', q) {
      ClearKeepsQueryLosses(s, i, q);
    }
  }

  lemma StartKeepsLosses(s: State, n: InstallationId, id: RequestId)
    requires FlowInv(s) && LossInv(s) && Enabled(s, Start(n, id)) && UniqueIds(Next(s, Start(n, id)))
    ensures LossInv(Next(s, Start(n, id)))
  {
    var s' := Next(s, Start(n, id));
    NextWellIndexed(s, Start(n, id));
    StartKeepsFlow(s, n, id);
    var added := |s.queries|;
    forall q | 0 <= q < |s'.queries| ensures QueryLossOk(s', q) {
      if q < added {
        assert QueryLossOk(s, q);
      } else {
        var session := s'.sessions[s'.queries[q].session];
        assert Arrived(q, s'.queries[q], session.pump) == [] by {
          assert PumpTarget(s.queries, s'.queries[q].session, session.pump);
        }
        NothingBeforeSending(s', q);
        NoneOf(session, id);
      }
    }
  }

  /** Steps on the registry leave queries and their messages alone. */
  lemma RegistryStepKeepsLosses(s: State, s': State)
    requires LossInv(s) && s'.WellIndexed() && s'.queries == s.queries && |s'.sessions| >= |s.sessions|
    requires forall j :: 0 <= j < |s.sessions| ==>
               || s'.sessions[j] == s.sessions[j].(closing := s'.sessions[j].closing)
               || (s.sessions[j].pump.Idle? && s'.sessions[j] ==
                   s.sessions[j].(closing := s'.sessions[j].closing, pump := Exited))
    requires forall j :: |s.sessions| <= j < |s'.sessions| ==> s'.sessions[j] == NewSession(s'.sessions[j].installation)
    ensures LossInv(s')
  {
    forall q | 0 <= q < |s'.queries| ensures QueryLossOk(s', q) {
      assert QueryLossOk(s, q);
    }
    forall j | 0 <= j < |s'.sessions| ensures TakenFirst(s'.sessions[j]) {
      assert j < |s.sessions| ==> TakenFirst(s.sessions[j]);
    }
  }

  lemma RegistryKeepsLosses(s: State, a: Action)
    requires RegistryInv(s) && LossInv(s) && Enabled(s, a) && (a.Register? || a.Unregister?)
    ensures LossInv(Next(s, a))
  {
    NextWellIndexed(s, a);
    if a.Register? {
      RegisterEffect(s, a.installation);
    }
    RegistryStepKeepsLosses(s, Next(s, a));
  }

  lemma NextKeepsLosses(s: State, a: Action)
    requires FlowInv(s) && LossInv(s) && RegistryInv(s) && PendingInv(s) && Enabled(s, a)
    requires UniqueIds(s) && UniqueIds(Next(s, a))
    ensures LossInv(Next(s, a))
  {
    match a
    case Start(n, id) => StartKeepsLosses(s, n, id);
    case ByQuery(q, qa) => ByQueryKeepsLosses(s, q, qa);
    case BySession(i, sa) => BySessionKeepsLosses(s, i, sa);
    case CloseClear(i) => ClearKeepsLosses(s, i);
    case Register(_) => RegistryKeepsLosses(s, a);
    case Unregister(_) => RegistryKeepsLosses(s, a);
  }

  lemma {:induction false} RunsKeepLosses(actions: seq<Action>, s: State)
    requires Run(actions) == Some(s) && UniqueIds(s)
    ensures LossInv(s)
  {
    if actions != [] {
      var last := |actions| - 1;
      var before := Run(actions[..last]).value;
      NextKeepsIds(before, actions[last]);
      RunsKeepLosses(actions[..last], before);
      RunsKeepFlow(actions[..last], before);
      RunsKeepTokens(actions[..last], before);
      NextKeepsLosses(before, actions[last]);
    }
  }

  // ---------- A success is complete exactly if no chunk was abandoned

  predicate AbandonsChunk(s: Session, id: RequestId) {
    exists k :: 0 <= k < |s.abandoned| && s.abandoned[k].ChunkMessage? && s.abandoned[k].RequestId() == id
  }

  predicate HasChunk(ms: seq<UpMessage>) {
    exists k :: 0 <= k < |ms| && ms[k].ChunkMessage?
  }

  lemma AbandonedOf(s: Session, id: RequestId)
    ensures AbandonsChunk(s, id) <==> HasChunk(Of(s.abandoned, id))
  {
    var of := Of(s.abandoned, id);
    if AbandonsChunk(s, id) {
      var k :| 0 <= k < |s.abandoned| && s.abandoned[k].ChunkMessage? && s.abandoned[k].RequestId() == id;
      OfMember(s.abandoned, id, s.abandoned[k]);
    }
    if HasChunk(of) {
      var k :| 0 <= k < |of| && of[k].ChunkMessage?;
      OfMember(s.abandoned, id, of[k]);
      assert of[k] in s.abandoned;
    }
  }

  /** The messages that arrived: first the chunks that the query returned, then the completion. */
  ghost predicate Begins(ms: seq<UpMessage>, chunks: seq<Chunk>) {
    && |ms| > |chunks| && ms[|chunks|].CompleteMessage?
    && forall k :: 0 <= k < |chunks| ==> ms[k] == ChunkMessage(chunks[k])
  }

  lemma ResponseBegins(got: seq<Delivery>, rest: seq<Delivery>, id: RequestId, chunks: seq<Chunk>)
    requires CompleteResponse(id, got, chunks)
    ensures Begins(Messages(got + rest), chunks)
  {
    var last := |got| - 1;
    CarriedMessages(got[..last], chunks);
    MessagesAppend(got[..last], got[last]);
    assert got[..last] + [got[last]] == got;
    MessagesPrefix(got, rest);
  }

  lemma LossWithoutChunk(h: Handler, ms: seq<UpMessage>, abandoned: seq<UpMessage>, taken: seq<UpMessage>,
                         chunks: seq<Chunk>)
    requires HandlerOk(h) && h.answer.Some? && !h.answer.value.Produced? && taken <= h.emitted
    requires Accounted(ms, abandoned, taken, false) && Begins(ms, chunks)
    ensures chunks == [] && !HasChunk(abandoned)
  {
    assert |taken| <= 1 && |ms| == 1 && abandoned == [];
  }

  lemma LossOfChunk(h: Handler, ms: seq<UpMessage>, abandoned: seq<UpMessage>, taken: seq<UpMessage>,
                    chunks: seq<Chunk>)
    requires HandlerOk(h) && h.answer.Some? && h.answer.value.Produced? && taken <= h.emitted
    requires Accounted(ms, abandoned, taken, false) && Subsequence(ms, taken) && Begins(ms, chunks)
    ensures chunks == [ChunkOf(h)] <==> !HasChunk(abandoned)
  {
    var c, k := ChunkMessage(ChunkOf(h)), CompletionOf(h);
    SubsequenceMember(ms, taken, |chunks|);
    assert taken == [c, k] by {
      assert taken <= [c, k];
    }
    SubsequenceLength(ms, taken);
    var n := |ms| + |abandoned|;
    assert ms[|chunks|] in taken[..n];
    assert n == 2 && taken[..n] == taken;
    if |ms| == 2 {
      assert ms == [c, k] && abandoned == [] && chunks == [chunks[0]];
    } else {
      assert ms == [k] && |abandoned| == 1 && chunks == [];
      assert c in taken[..n];
      assert abandoned[0] == c;
    }
  }

  lemma TakenHandler(s: State, q: nat, chunks: seq<Chunk>) returns (h: nat)
    requires FlowInv(s) && LossInv(s) && UniqueIds(s) && q < |s.queries|
    requires s.queries[q].position == Returned(Succeeded(chunks))
    ensures var query, session := s.queries[q], s.sessions[s.queries[q].session];
            && h < |session.agent.handlers| && session.agent.handlers[h].origin == q
            && HandlerOk(session.agent.handlers[h]) && Of(session.taken, query.id) <= session.agent.handlers[h].emitted
            && Begins(Messages(Arrived(q, query, session.pump)), chunks)
            && Subsequence(Messages(Arrived(q, query, session.pump)), Of(session.taken, query.id))
            && Accounted(Messages(Arrived(q, query, session.pump)), Of(session.abandoned, query.id),
                         Of(session.taken, query.id), false)
  {
    var query, session := s.queries[q], s.sessions[s.queries[q].session];
    assert QueryFlowInv(s, q) && QueryLossOk(s, q);
    ResponseBegins(query.got, query.inbox + InFlight(session.pump, q), query.id, chunks);
    assert query.got + (query.inbox + InFlight(session.pump, q)) == Arrived(q, query, session.pump);
    SubsequenceLength(Messages(Arrived(q, query, session.pump)), Of(session.taken, query.id));
    h := TakenFromHandler(s, q);
  }

  /** The handler that served the query, whichever it is named by, and what was lost of its answer */
  lemma CompleteUnlessAbandoned(s: State, q: nat, chunks: seq<Chunk>, g: nat)
    requires FlowInv(s) && LossInv(s) && UniqueIds(s) && q < |s.queries|
    requires s.queries[q].position == Returned(Succeeded(chunks))
    requires var handlers := s.sessions[s.queries[q].session].agent.handlers;
             g < |handlers| && handlers[g].origin == q && handlers[g].answer.Some?
    ensures var session := s.sessions[s.queries[q].session];
            chunks == ChunksOf(session.agent.handlers[g]) <==> !AbandonsChunk(session, s.queries[q].id)
  {
    var session, id := s.sessions[s.queries[q].session], s.queries[q].id;
    var h := TakenHandler(s, q, chunks);
    assert h == g by {
      assert SessionFlow(s.queries, s.queries[q].session, session);
    }
    AbandonedOf(session, id);
    var handler, ms := session.agent.handlers[h], Messages(Arrived(q, s.queries[q], session.pump));
    if handler.answer.value.Produced? {
      LossOfChunk(handler, ms, Of(session.abandoned, id), Of(session.taken, id), chunks);
    } else {
      LossWithoutChunk(handler, ms, Of(session.abandoned, id), Of(session.taken, id), chunks);
    }
  }
}
