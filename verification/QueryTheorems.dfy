/**
 The results about the runtime query protocol, over every run.
 */
module QueryTheorems {
  import opened Options
  import opened QueryTypes
  import opened QueryMachine
  import opened QueryTokens
  import opened QueryFlow
  import opened QueryEndToEnd
  import opened QueryLosses

  /** Semaphore counts are the numbers of queries on their way, and when all have returned every token is back. */
  lemma TokensAreConserved(actions: seq<Action>, s: State)
    requires Run(actions) == Some(s)
    ensures s.global == |GlobalHolders(s.queries)| <= MAX_QUERIES_GLOBAL
    ensures forall i :: 0 <= i < |s.sessions| ==>
            s.sessions[i].active == |ActiveHolders(s.queries, i)| <= MAX_QUERIES_PER_CLUSTER
    ensures (forall q :: 0 <= q < |s.queries| ==> s.queries[q].position.Returned?) ==>
              && s.global == 0
              && forall i :: 0 <= i < |s.sessions| ==> s.sessions[i].active == 0 && s.sessions[i].pending == map[]
  {
    RunsKeepTokens(actions, s);
    if forall q :: 0 <= q < |s.queries| ==> s.queries[q].position.Returned? {
      assert GlobalHolders(s.queries) == {};
      forall i | 0 <= i < |s.sessions| ensures s.sessions[i].active == 0 && s.sessions[i].pending == map[] {
        assert ActiveHolders(s.queries, i) == {};
        forall r ensures r !in s.sessions[i].pending {
          assert r in s.sessions[i].pending ==> Owns(s, s.sessions[i].pending[r], i, r);
        }
      }
    }
  }

  /** A query that was refused as a duplicate holds no entry, and no step of such a query removes one. */
  lemma DuplicateSparesTheWinner(actions: seq<Action>, s: State, q: nat, a: QueryAction)
    requires Run(actions) == Some(s) && Enabled(s, ByQuery(q, a))
    requires !s.queries[q].position.HasEntry()
    ensures var i, s' := s.queries[q].session, Next(s, ByQuery(q, a));
            && (a.Add? && s.queries[q].id in s.sessions[i].pending ==>
                  s'.queries[q].position == FreeingActive(Rejected) && s'.sessions[i].pending == s.sessions[i].pending)
            && forall r :: r in s.sessions[i].pending ==>
                 r in s'.sessions[i].pending && s'.sessions[i].pending[r] == s.sessions[i].pending[r]
  {
    RunsKeepTokens(actions, s);
    QueryPending(LocalView(s, q), q, a);
  }

  /** An installation maps to its latest session as long as that session's stream has not ended, and to nothing else. */
  lemma RegistryIsLatest(actions: seq<Action>, s: State, i: nat)
    requires Run(actions) == Some(s) && i < |s.sessions|
    ensures var n := s.sessions[i].installation;
            (n in s.registry && s.registry[n] == i) <==>
            (!s.sessions[i].pump.Exited? && forall j :: i < j < |s.sessions| ==> s.sessions[j].installation != n)
    ensures s.sessions[i].installation in s.registry && s.registry[s.sessions[i].installation] == i ==>
            !s.sessions[i].done
    ensures s.sessions[i].closing <==>
            !(s.sessions[i].installation in s.registry && s.registry[s.sessions[i].installation] == i)
  {
    RunsKeepTokens(actions, s);
    assert SessionFlags(s.sessions[i]);
  }

  lemma HandlerOfSuccess(s: State, q: nat, chunks: seq<Chunk>) returns (h: nat)
    requires FlowInv(s) && q < |s.queries| && s.queries[q].position == Returned(Succeeded(chunks))
    ensures var handlers := s.sessions[s.queries[q].session].agent.handlers;
            h < |handlers| && handlers[h].origin == q && handlers[h].id == s.queries[q].id
              && Served(handlers[h], chunks, s.queries[q].whileOpen)
  {
    assert QueryFlowInv(s, q);
    var i := s.queries[q].session;
    var handlers := s.sessions[i].agent.handlers;
    assert ServedFor(q, handlers, chunks, s.queries[q].whileOpen);
    h :| 0 <= h < |handlers| && handlers[h].origin == q && Served(handlers[h], chunks, s.queries[q].whileOpen);
    assert SentBy(s.queries, handlers[h].origin, i, handlers[h].id);
  }

  /** In this run the handler was given `answer` by whatever serves the query. */
  ghost predicate WasAnswered(actions: seq<Action>, i: nat, h: nat, answer: Answer) {
    exists k :: 0 <= k < |actions| && actions[k] == BySession(i, ByAgent(ByHandler(h, AnswerQuery(answer))))
  }

  lemma AnsweredStays(actions: seq<Action>, a: Action, i: nat, h: nat, answer: Answer)
    requires WasAnswered(actions, i, h, answer) || a == BySession(i, ByAgent(ByHandler(h, AnswerQuery(answer))))
    ensures WasAnswered(actions + [a], i, h, answer)
  {
    if WasAnswered(actions, i, h, answer) {
      var k :| 0 <= k < |actions| && actions[k] == BySession(i, ByAgent(ByHandler(h, AnswerQuery(answer))));
      assert (actions + [a])[k] == actions[k];
    } else {
      assert (actions + [a])[|actions|] == a;
    }
  }

  /** A step of the Agent gives a handler no answer but the one it is given. */
  lemma AgentAnswers(agent: Agent, a: AgentAction, h: nat)
    requires AgentEnabled(agent, a) && h < |AgentNext(agent, a).handlers|
    ensures var answer := AgentNext(agent, a).handlers[h].answer;
            answer.Some? ==> (h < |agent.handlers| && agent.handlers[h].answer == answer)
                             || a == ByHandler(h, AnswerQuery(answer.value))
  {
  }

  lemma StepAnswers(s: State, a: Action, i: nat, h: nat)
    requires s.WellIndexed() && Enabled(s, a) && i < |Next(s, a).sessions|
    requires h < |Next(s, a).sessions[i].agent.handlers|
    ensures var answer := Next(s, a).sessions[i].agent.handlers[h].answer;
            answer.Some? ==>
              || (i < |s.sessions| && h < |s.sessions[i].agent.handlers|
                  && s.sessions[i].agent.handlers[h].answer == answer)
              || a == BySession(i, ByAgent(ByHandler(h, AnswerQuery(answer.value))))
  {
    match a
    case ByQuery(q, qa) => QueryTouches(LocalView(s, q), q, qa);
    case BySession(j, AgentRead) => if i == j { AgentAnswers(s.sessions[j].agent, Read(s.sessions[j].down[0]), h); }
    case BySession(j, ByAgent(aa)) => if i == j { AgentAnswers(s.sessions[j].agent, aa, h); }
    case _ =>
  }

  /** Every answer that a handler holds was given to it in the run. */
  lemma {:induction false} AnswersAreGiven(actions: seq<Action>, s: State, i: nat, h: nat)
    requires Run(actions) == Some(s) && i < |s.sessions| && h < |s.sessions[i].agent.handlers|
    requires s.sessions[i].agent.handlers[h].answer.Some?
    ensures WasAnswered(actions, i, h, s.sessions[i].agent.handlers[h].answer.value)
  {
    if actions != [] {
      var last := |actions| - 1;
      var before, answer := Run(actions[..last]).value, s.sessions[i].agent.handlers[h].answer;
      StepAnswers(before, actions[last], i, h);
      if actions[last] != BySession(i, ByAgent(ByHandler(h, AnswerQuery(answer.value)))) {
        AnswersAreGiven(actions[..last], before, i, h);
      }
      AnsweredStays(actions[..last], actions[last], i, h, answer.value);
      assert actions[..last] + [actions[last]] == actions;
    }
  }

  /**
   With unique request identifiers, a query that returns successfully returns what its own
   handler was given as the answer: nothing if that was nothing, and otherwise its one body, under
   the request's identifier and the number 1, if and only if the pump abandoned no chunk of it,
   as is so if the session was not yet done when the query took the completion.
   */
  lemma SuccessIsTheHandlersAnswer(actions: seq<Action>, s: State, q: nat, chunks: seq<Chunk>)
    requires Run(actions) == Some(s) && UniqueIds(s)
    requires q < |s.queries| && s.queries[q].position == Returned(Succeeded(chunks))
    ensures var i, id := s.queries[q].session, s.queries[q].id;
            var session := s.sessions[i];
            exists h :: 0 <= h < |session.agent.handlers| &&
              var handler := session.agent.handlers[h];
              && handler.origin == q && handler.id == id && handler.answer.Some?
              && WasAnswered(actions, i, h, handler.answer.value)
              && match handler.answer.value
                 case Failed => false
                 case NoChunk => chunks == []
                 case Produced(body, size) =>
                   && chunks == (if AbandonsChunk(session, id) then [] else [Chunk(id, 1, body, size)])
                   && (s.queries[q].whileOpen ==> !AbandonsChunk(session, id))
  {
    RunsKeepFlow(actions, s);
    RunsKeepLosses(actions, s);
    var h := HandlerOfSuccess(s, q, chunks);
    var handler := s.sessions[s.queries[q].session].agent.handlers[h];
    ServedIsAnswer(handler, chunks, s.queries[q].whileOpen);
    CompleteUnlessAbandoned(s, q, chunks, h);
    AnswersAreGiven(actions, s, s.queries[q].session, h);
  }

  /** With unique identifiers an inbox never fills, so the pump is never blocked in a delivery. */
  lemma PumpNeverBlocks(actions: seq<Action>, s: State, i: nat)
    requires Run(actions) == Some(s) && UniqueIds(s)
    requires i < |s.sessions| && s.sessions[i].pump.Delivering?
    ensures Enabled(s, ByQuery(s.sessions[i].pump.target, Accept))
    ensures |s.queries[s.sessions[i].pump.target].inbox| <= 2
  {
    RunsKeepFlow(actions, s);
    assert PumpTarget(s.queries, i, s.sessions[i].pump);
    InboxIsShort(s, s.sessions[i].pump.target);
  }

  lemma InboxIsShort(s: State, q: nat)
    requires FlowInv(s) && UniqueIds(s) && q < |s.queries|
    ensures |Arrived(q, s.queries[q], s.sessions[s.queries[q].session].pump)| <= 3
  {
    var query, session := s.queries[q], s.sessions[s.queries[q].session];
    assert QueryFlowInv(s, q);
    var arrived, taken := Arrived(q, query, session.pump), Of(session.taken, query.id);
    SubsequenceLength(Messages(arrived), taken);
    if taken != [] {
      var h := TakenFromHandler(s, q);
      assert HandlerOk(session.agent.handlers[h]);
    }
  }

  /** The Agent never runs more than four handlers, whatever the identifiers. */
  lemma {:induction false} AgentRunsAtMostFour(actions: seq<Action>, s: State)
    requires Run(actions) == Some(s)
    ensures forall i :: 0 <= i < |s.sessions| ==>
              HandlersOk(s.sessions[i].agent) && |BusyHandlers(s.sessions[i].agent.handlers)| <= AGENT_SLOTS
  {
    if actions != [] {
      var last := |actions| - 1;
      var before, a := Run(actions[..last]).value, actions[last];
      AgentRunsAtMostFour(actions[..last], before);
      assert BusyHandlers([]) == {};
      match a
      case ByQuery(q, qa) => QueryTouches(LocalView(before, q), q, qa);
      case BySession(i, AgentRead) => AgentKeepsHandlers(before.sessions[i].agent, Read(before.sessions[i].down[0]));
      case BySession(i, ByAgent(aa)) => AgentKeepsHandlers(before.sessions[i].agent, aa);
      case _ =>
    }
  }

  // ---------- A session that closes can truncate a successful response

  /** `reached` holds initially and every step keeps it. */
  ghost predicate Inductive(reached: State -> bool) {
    && reached(INITIAL)
    && forall s: State, a {:trigger Next(s, a)} :: s.WellIndexed() && Enabled(s, a) && reached(s) ==>
      reached(Next(s, a))
  }

  lemma ReachableIsInductive(reached: State -> bool)
    requires forall s :: reached(s) <==> Reachable(s)
    ensures Inductive(reached)
  {
    assert Run([]) == Some(INITIAL);
    forall s: State, a | s.WellIndexed() && Enabled(s, a) && reached(s) ensures reached(Next(s, a)) {
      var actions :| Run(actions) == Some(s);
      Extend(actions, s, a);
    }
  }

  /** One installation with its first session and one query of it */
  function Pair(l: Local): State {
    State(map["i" := 0], l.global, [l.session], [l.query])
  }

  predicate Proper(l: Local) {
    l.query.session == 0 && forall r :: r in l.session.pending ==> l.session.pending[r] == 0
  }

  lemma QueryMoves(reached: State -> bool, l: Local, a: QueryAction, l': Local)
    requires Inductive(reached) && reached(Pair(l)) && Proper(l) && QueryEnabled(l, 0, a) && QueryNext(l, 0, a) == l'
    ensures reached(Pair(l')) && Proper(l')
  {
    var s := Pair(l);
    assert LocalView(s, 0) == l && Next(s, ByQuery(0, a)) == Pair(l');
    QueryAddsItself(l, 0, a);
  }

  lemma SessionMoves(reached: State -> bool, l: Local, a: SessionAction, t: Session)
    requires Inductive(reached) && reached(Pair(l)) && Proper(l) && SessionEnabled(l.session, a)
    requires SessionNext(l.session, a) == t
    ensures reached(Pair(l.(session := t))) && Proper(l.(session := t))
  {
    var s := Pair(l);
    assert Next(s, BySession(0, a)) == Pair(l.(session := t));
    SessionKeepsPending(l.session, a);
  }

  const SAMPLE := Chunk("r", 1, "x", 1)
  const RESPONSE := [ChunkMessage(SAMPLE), CompleteMessage("r", true)]

  function Asking(position: Position): Query {
    NewQuery("i", "r", 0).(position := position)
  }

  function Sent(): Local {
    Local(Asking(Receiving).(sent := true),
          NewSession("i").(active := 1, pending := map["r" := 0], outbound := [Request("r", 0)]), 1)
  }

  lemma ReachSent(reached: State -> bool)
    requires Inductive(reached)
    ensures reached(Pair(Sent())) && Proper(Sent())
  {
    var s1 := Next(INITIAL, Register("i"));
    assert s1 == State(map["i" := 0], 0, [NewSession("i")], []);
    var l1 := Local(Asking(Looked), NewSession("i"), 0);
    assert Next(s1, Start("i", "r")) == Pair(l1);
    var l2 := Local(Asking(HoldsGlobal), NewSession("i"), 1);
    QueryMoves(reached, l1, AcquireGlobal, l2);
    var l3 := Local(Asking(HoldsBoth), NewSession("i").(active := 1), 1);
    QueryMoves(reached, l2, AcquireActive, l3);
    var l4 := Local(Asking(Added), NewSession("i").(active := 1, pending := map["r" := 0]), 1);
    QueryMoves(reached, l3, Add, l4);
    QueryMoves(reached, l4, Send, Sent());
  }

  function Answering(position: HandlerPosition, emitted: seq<UpMessage>): Agent {
    Agent(true, 1, map["r" := 0], [Handler("r", 0, position, false, Some(Produced("x", 1)), emitted)], emitted)
  }

  function SessionWith(agent: Agent): Session {
    NewSession("i").(active := 1, pending := map["r" := 0], agent := agent)
  }

  lemma ReachReading(reached: State -> bool)
    requires Inductive(reached)
    ensures var l := Sent().(session := SessionWith(Answering(Answered, []))); reached(Pair(l)) && Proper(l)
  {
    ReachSent(reached);
    var l := Sent();
    var t1 := SessionWith(NewSession("i").agent).(down := [Request("r", 0)]);
    SessionMoves(reached, l, PumpSend, t1);
    var t2 := SessionWith(Agent(true, 1, map["r" := 0], [NewHandler("r", 0)], []));
    SessionMoves(reached, l.(session := t1), AgentRead, t2);
    SessionMoves(reached, l.(session := t2), ByAgent(ByHandler(0, AnswerQuery(Produced("x", 1)))),
                 SessionWith(Answering(Answered, [])));
  }

  lemma HandlerQueues()
    ensures var a := ByHandler(0, QueueChunk);
            AgentEnabled(Answering(Answered, []), a)
              && AgentNext(Answering(Answered, []), a) == Answering(ChunkQueued, [RESPONSE[0]])
    ensures var a := ByHandler(0, QueueComplete);
            && AgentEnabled(Answering(ChunkQueued, [RESPONSE[0]]), a)
            && AgentNext(Answering(ChunkQueued, [RESPONSE[0]]), a) == Answering(Exiting, RESPONSE)
  {
    var h := Answering(Answered, []).handlers[0];
    assert [] + Emits(h, QueueChunk) == [RESPONSE[0]];
    assert [h][0 := HandlerNext(h, QueueChunk)] == [HandlerNext(h, QueueChunk)];
    var g := Answering(ChunkQueued, [RESPONSE[0]]).handlers[0];
    assert [RESPONSE[0]] + Emits(g, QueueComplete) == RESPONSE;
    assert [g][0 := HandlerNext(g, QueueComplete)] == [HandlerNext(g, QueueComplete)];
  }

  lemma ReachAnswered(reached: State -> bool)
    requires Inductive(reached)
    ensures var l := Sent().(session := SessionWith(Answering(Exiting, RESPONSE))); reached(Pair(l)) && Proper(l)
  {
    ReachReading(reached);
    HandlerQueues();
    var l := Sent();
    var t3 := SessionWith(Answering(Answered, []));
    var t4 := SessionWith(Answering(ChunkQueued, [RESPONSE[0]]));
    SessionMoves(reached, l.(session := t3), ByAgent(ByHandler(0, QueueChunk)), t4);
    SessionMoves(reached, l.(session := t4), ByAgent(ByHandler(0, QueueComplete)),
                 SessionWith(Answering(Exiting, RESPONSE)));
  }

  function HeldByPump(): Session {
    SessionWith(Answering(Exiting, RESPONSE).(outgoing := [])).(taken := [RESPONSE[0]], up := [RESPONSE[1]],
                                                                pump := Delivering(0, RESPONSE[0]))
  }

  lemma ReachHeldByPump(reached: State -> bool)
    requires Inductive(reached)
    ensures var l := Sent().(session := HeldByPump()); reached(Pair(l)) && Proper(l)
  {
    ReachAnswered(reached);
    var l := Sent().(session := SessionWith(Answering(Exiting, RESPONSE)));
    var t1 := SessionWith(Answering(Exiting, RESPONSE).(outgoing := [RESPONSE[1]])).(up := [RESPONSE[0]]);
    assert RESPONSE[1..] == [RESPONSE[1]];
    SessionMoves(reached, l, AgentWrite, t1);
    var t2 := SessionWith(Answering(Exiting, RESPONSE).(outgoing := [])).(up := RESPONSE);
    assert t1.up + [t1.agent.outgoing[0]] == RESPONSE && t1.agent.outgoing[1..] == [];
    SessionMoves(reached, l.(session := t1), AgentWrite, t2);
    assert RESPONSE[1..] == [RESPONSE[1]];
    SessionMoves(reached, l.(session := t2), PumpTake, HeldByPump());
  }

  /** The session is replaced, its first half of closing runs, and the pump drops the chunk. */
  lemma ReachDropped(reached: State -> bool) returns (s: State)
    requires Inductive(reached)
    ensures reached(s) && s.WellIndexed() && |s.sessions| == 2 && s.queries == [Sent().query]
    ensures s.sessions[0] == HeldByPump().(closing := true, done := true, pump := Idle, abandoned := [RESPONSE[0]])
  {
    ReachHeldByPump(reached);
    var a := Pair(Sent().(session := HeldByPump()));
    var b := Next(a, Register("i"));
    assert b == State(map["i" := 1], 1, [HeldByPump().(closing := true), NewSession("i")], a.queries);
    var c := Next(b, BySession(0, CloseDone));
    assert c == b.(sessions := [HeldByPump().(closing := true, done := true), NewSession("i")]);
    s := Next(c, BySession(0, PumpDrop));
  }

  /**
   If the session closes while a response is being delivered, the pump may lose the chunk and
   still deliver the completion: the query then succeeds without the chunk that was produced.
   */
  lemma ClosingCanTruncate() returns (s: State)
    ensures Reachable(s) && UniqueIds(s) && |s.queries| == 1 && |s.sessions| == 2 && |s.sessions[0].agent.handlers| == 1
    ensures s.queries[0].position == Removing(Succeeded([])) && !s.queries[0].whileOpen
    ensures s.sessions[0].agent.handlers[0].origin == 0 && ChunksOf(s.sessions[0].agent.handlers[0]) == [SAMPLE]
    ensures s.sessions[0].abandoned == [ChunkMessage(SAMPLE)]
  {
    var reached: State -> bool := s => Reachable(s);
    ReachableIsInductive(reached);
    s := ReachTruncated(reached);
  }

  lemma ReachTruncated(reached: State -> bool) returns (s: State)
    requires Inductive(reached)
    ensures reached(s) && UniqueIds(s) && |s.queries| == 1 && |s.sessions| == 2 && |s.sessions[0].agent.handlers| == 1
    ensures s.queries[0].position == Removing(Succeeded([])) && !s.queries[0].whileOpen
    ensures s.sessions[0].agent.handlers[0].origin == 0 && ChunksOf(s.sessions[0].agent.handlers[0]) == [SAMPLE]
    ensures s.sessions[0].abandoned == [ChunkMessage(SAMPLE)]
  {
    var a := ReachDropped(reached);
    var b := Next(a, BySession(0, PumpTake));
    NextWellIndexed(a, BySession(0, PumpTake));
    assert b.sessions[0].pump == Delivering(0, RESPONSE[1]);
    var c := Next(b, ByQuery(0, Accept));
    NextWellIndexed(b, ByQuery(0, Accept));
    assert c.queries[0].inbox == [Message(RESPONSE[1])];
    s := Next(c, ByQuery(0, Receive));
  }
}
