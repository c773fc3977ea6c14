/**
 The runtime query protocol as a transition system: the broker and its sessions, the queries
 that pass through it, the server's message pump and the Agent's bounded worker loop. Each
 action is one atomic step of one goroutine, so a sequence of actions is one interleaving.
 Contexts and deadlines may end at any moment.
 */
module QueryMachine {
  import opened Options
  import opened QueryTypes

  /** Where a call of `Query` stands; the last four positions run its deferred calls. */
  datatype Position =
    | Looked                         // has its session, holds nothing
    | HoldsGlobal                    // took a global token
    | HoldsBoth                      // and a token of the session
    | Added                          // and owns an entry of the session's pending map
    | Receiving                      // and has sent its request
    | Removing(outcome: Outcome)     // returning: next gives up the pending entry
    | FreeingActive(outcome: Outcome)
    | FreeingGlobal(outcome: Outcome)
    | Returned(outcome: Outcome)
  {
    predicate HasGlobal() { !Looked? && !Returned? }
    predicate HasActive() { HasGlobal() && !HoldsGlobal? && !FreeingGlobal? }
    predicate HasEntry() { Added? || Receiving? || Removing? }
    predicate Returning() { Removing? || FreeingActive? || FreeingGlobal? || Returned? }
  }

  /**
   `inbox` is the buffered delivery channel. `sent`, `got` and `whileOpen` are history: whether
   the request was sent, the deliveries taken from the inbox, and whether the session was still
   open when the query succeeded.
   */
  datatype Query = Query(installation: InstallationId, id: RequestId, session: nat, position: Position,
                         progress: Progress, inbox: seq<Delivery>,
                         sent: bool, got: seq<Delivery>, whileOpen: bool)

  datatype Pump = Idle | Delivering(target: nat, message: UpMessage) | Exited

  datatype Answer = Produced(body: string, size: nat) | NoChunk | Failed

  datatype HandlerPosition = Running | Answered | ChunkQueued | Exiting | SlotFreed | Gone

  /** One goroutine of the Agent; `origin` and `emitted` (messages it queued) are history. */
  datatype Handler = Handler(id: RequestId, origin: nat, position: HandlerPosition,
                             cancelled: bool, answer: Option<Answer>, emitted: seq<UpMessage>)

  datatype Agent = Agent(running: bool, slots: nat, cancels: map<RequestId, nat>,
                         handlers: seq<Handler>, outgoing: seq<UpMessage>)

  /**
   A session with its stream and the Agent at the other end. `down` and `up` are the two
   directions of the stream. `taken` and `abandoned` are history: what the pump took from `up`,
   and what it gave up delivering because the session was done.
   */
  datatype Session = Session(installation: InstallationId, closing: bool, done: bool, cleared: bool,
                             active: nat, pending: map<RequestId, nat>,
                             outbound: seq<DownMessage>, down: seq<DownMessage>,
                             pump: Pump, taken: seq<UpMessage>, abandoned: seq<UpMessage>, up: seq<UpMessage>,
                               agent: Agent)
  {
    /** Everything sent to the Agent and not yet read by it, oldest first */
    function Downstream(): seq<DownMessage> { down + outbound }

    /** Everything the Agent ever queued, oldest first */
    function Upstream(): seq<UpMessage> { taken + up + agent.outgoing }
  }

  datatype State = State(registry: map<InstallationId, nat>, global: nat,
                         sessions: seq<Session>, queries: seq<Query>)
  {
    predicate WellIndexed() {
      && (forall q :: 0 <= q < |queries| ==> queries[q].session < |sessions|)
      && (forall i :: i in registry ==> registry[i] < |sessions|)
      && (forall i, r :: 0 <= i < |sessions| && r in sessions[i].pending ==> sessions[i].pending[r] < |queries|)
    }
  }

  const INITIAL := State(map[], 0, [], [])

  function NewSession(installation: InstallationId): Session {
    Session(installation, false, false, false, 0, map[], [], [], Idle, [], [], [], Agent(true, 0, map[], [], []))
  }

  function NewQuery(installation: InstallationId, id: RequestId, session: nat): Query {
    Query(installation, id, session, Looked, NOTHING_RECEIVED, [], false, [], false)
  }

  // ---------- Steps of a query, which touch the query, its session and the global tokens

  datatype QueryAction =
    | Refuse(outcome: Outcome)       // session validation or the deadline check failed
    | AcquireGlobal
    | AcquireActive
    | GiveUp                         // the query's context ended
    | Add
    | Send
    | SeeDone                        // observed that the session is done
    | Accept                         // the pump puts its message into the inbox
    | Receive
    | Remove
    | FreeActive
    | FreeGlobal

  datatype Local = Local(query: Query, session: Session, global: nat)

  predicate QueryEnabled(l: Local, q: nat, a: QueryAction) {
    var Local(query, session, global) := l;
    match a
    case Refuse(o) => query.position.Looked? && (o.Unavailable? || o.Rejected?)
    case AcquireGlobal => query.position.Looked? && global < MAX_QUERIES_GLOBAL
    case AcquireActive => query.position.HoldsGlobal? && session.active < MAX_QUERIES_PER_CLUSTER
    case GiveUp => query.position.Looked? || query.position.HoldsGlobal? || query.position.Added?
      || query.position.Receiving?
    case Add => query.position.HoldsBoth?
    case Send => query.position.Added? && |session.outbound| < OUTBOUND_CAPACITY
    case SeeDone => (query.position.Added? || query.position.Receiving?) && session.done
    case Accept => session.pump.Delivering? && session.pump.target == q && |query.inbox| < INBOX_CAPACITY
    case Receive => query.position.Receiving? && |query.inbox| > 0
    case Remove => query.position.Removing?
    case FreeActive => query.position.FreeingActive? && session.active > 0
    case FreeGlobal => query.position.FreeingGlobal? && global > 0
  }

  function QueryNext(l: Local, q: nat, a: QueryAction): (r: Local)
    requires QueryEnabled(l, q, a)
  {
    var Local(query, session, global) := l;
    match a
    case Refuse(o) => l.(query := query.(position := Returned(o)))
    case AcquireGlobal => Local(query.(position := HoldsGlobal), session, global + 1)
    case AcquireActive => Local(query.(position := HoldsBoth), session.(active := session.active + 1), global)
    case GiveUp =>
      (match query.position
       case Looked => l.(query := query.(position := Returned(Cancelled)))
       case HoldsGlobal => l.(query := query.(position := FreeingGlobal(Cancelled)))
       case Added => l.(query := query.(position := Removing(Cancelled)))
       case _ =>
         // the cancellation is sent only when the outbound channel has room for it
         var outbound := if |session.outbound| < OUTBOUND_CAPACITY then session.outbound + [Cancel(query.id)]
           else session.outbound;
         Local(query.(position := Removing(Cancelled)), session.(outbound := outbound), global))
    case Add =>
      if query.id in session.pending then l.(query := query.(position := FreeingActive(Rejected)))
      else Local(query.(position := Added), session.(pending := session.pending[query.id := q]), global)
    case Send =>
      Local(query.(position := Receiving, sent := true),
            session.(outbound := session.outbound + [Request(query.id, q)]), global)
    case SeeDone => l.(query := query.(position := Removing(Unavailable)))
    case Accept =>
      Local(query.(inbox := query.inbox + [Message(session.pump.message)]), session.(pump := Idle), global)
    case Receive =>
      var taken := query.(inbox := query.inbox[1..], got := query.got + [query.inbox[0]]);
      (match React(query.id, query.progress, query.inbox[0])
       case Continue(p) => l.(query := taken.(progress := p))
       case Stop(o) => l.(query := taken.(position := Removing(o), whileOpen := !session.done)))
    case Remove =>
      Local(query.(position := FreeingActive(query.position.outcome)),
            session.(pending := session.pending - {query.id}), global)
    case FreeActive =>
      Local(query.(position := FreeingGlobal(query.position.outcome)), session.(active := session.active - 1), global)
    case FreeGlobal => Local(query.(position := Returned(query.position.outcome)), session, global - 1)
  }

  // ---------- Steps of one handler goroutine of the Agent

  datatype HandlerAction =
    | ContextEnds                    // its deadline passes
    | AnswerQuery(answer: Answer)
    | QueueChunk
    | QueueComplete
    | SkipChunk                      // its context ended before the chunk was queued
    | SkipComplete                   // the stream's context ended before the completion was queued
    | FreeSlot
    | Forget

  predicate WantsChunk(h: Handler) {
    h.position.Answered? && h.answer.Some? && h.answer.value.Produced?
  }

  predicate WantsComplete(h: Handler) {
    h.answer.Some? && if h.answer.value.Produced? then h.position.ChunkQueued? else h.position.Answered?
  }

  predicate HandlerEnabled(h: Handler, a: HandlerAction) {
    match a
    case ContextEnds => true
    case AnswerQuery(_) => h.position.Running?
    case QueueChunk => WantsChunk(h)
    case QueueComplete => WantsComplete(h)
    case SkipChunk => WantsChunk(h) && h.cancelled
    case SkipComplete => WantsComplete(h)
    case FreeSlot => h.position.Exiting?
    case Forget => h.position.SlotFreed?
  }

  function ChunkOf(h: Handler): Chunk
    requires h.answer.Some? && h.answer.value.Produced?
  {
    Chunk(h.id, 1, h.answer.value.body, h.answer.value.size)
  }

  function CompletionOf(h: Handler): UpMessage
    requires h.answer.Some?
  {
    CompleteMessage(h.id, !h.answer.value.Failed?)
  }

  /** What the step puts on the Agent's outgoing channel */
  function Emits(h: Handler, a: HandlerAction): seq<UpMessage>
    requires HandlerEnabled(h, a)
  {
    match a
    case QueueChunk => [ChunkMessage(ChunkOf(h))]
    case QueueComplete => [CompletionOf(h)]
    case _ => []
  }

  function HandlerNext(h: Handler, a: HandlerAction): Handler
    requires HandlerEnabled(h, a)
  {
    match a
    case ContextEnds => h.(cancelled := true)
    case AnswerQuery(v) => h.(position := Answered, answer := Some(v))
    case QueueChunk => h.(position := ChunkQueued, emitted := h.emitted + Emits(h, a))
    case QueueComplete => h.(position := Exiting, emitted := h.emitted + Emits(h, a))
    case SkipChunk => h.(position := Exiting)
    case SkipComplete => h.(position := Exiting)
    case FreeSlot => h.(position := SlotFreed)
    case Forget => h.(position := Gone)
  }

  // ---------- Steps of the Agent

  datatype AgentAction =
    | ByHandler(h: nat, ha: HandlerAction)
    | Read(message: DownMessage)     // the loop reads a message of the stream
    | StopLoop                       // the loop ends

  predicate AgentEnabled(agent: Agent, a: AgentAction) {
    match a
    case ByHandler(h, ha) =>
      && h < |agent.handlers| && HandlerEnabled(agent.handlers[h], ha)
      && (ha.QueueChunk? || ha.QueueComplete? ==> |agent.outgoing| < OUTGOING_CAPACITY)
      && (ha.FreeSlot? ==> agent.slots > 0)
    case _ => agent.running
  }

  /** A stopping Agent cancels every handler it still has on record. */
  function StopAgent(agent: Agent): Agent {
    var handlers := seq(|agent.handlers|, k requires 0 <= k < |agent.handlers| =>
      if k in agent.cancels.Values then agent.handlers[k].(cancelled := true) else agent.handlers[k]);
    agent.(running := false, cancels := map[], handlers := handlers)
  }

  function NewHandler(id: RequestId, origin: nat): Handler {
    Handler(id, origin, Running, false, None, [])
  }

  function AgentNext(agent: Agent, a: AgentAction): Agent
    requires AgentEnabled(agent, a)
  {
    match a
    case ByHandler(h, ha) =>
      var v := agent.handlers[h];
      agent.(handlers := agent.handlers[h := HandlerNext(v, ha)],
             outgoing := agent.outgoing + Emits(v, ha),
             slots := if ha.FreeSlot? then agent.slots - 1 else agent.slots,
             cancels := if ha.Forget? then agent.cancels - {v.id} else agent.cancels)
    case Read(Cancel(id)) =>
      if id in agent.cancels && agent.cancels[id] < |agent.handlers| then
        var h := agent.cancels[id];
        agent.(handlers := agent.handlers[h := agent.handlers[h].(cancelled := true)])
      else agent
    case Read(Request(id, origin)) =>
      if agent.slots < AGENT_SLOTS then
        agent.(slots := agent.slots + 1, cancels := agent.cancels[id := |agent.handlers|],
               handlers := agent.handlers + [NewHandler(id, origin)])
      else StopAgent(agent)          // concurrency exceeded
    case StopLoop => StopAgent(agent)
  }

  // ---------- Steps of a session: closing it, the pump, the stream and the Agent

  datatype SessionAction =
    | CloseDone                      // close, first half: the done channel is closed
    | PumpTake                       // the pump takes a message and looks its query up
    | PumpDrop                       // the pump abandons a delivery because the session is done
    | PumpSend                       // the pump forwards an outbound message
    | AgentRead                      // the Agent reads the next message
    | AgentWrite                     // the Agent's writer sends the next message
    | ByAgent(aa: AgentAction)

  predicate SessionEnabled(s: Session, a: SessionAction) {
    match a
    case CloseDone => s.closing && !s.done
    case PumpTake => s.pump.Idle? && |s.up| > 0
    case PumpDrop => s.pump.Delivering? && s.done
    case PumpSend => s.pump.Idle? && |s.outbound| > 0
    case AgentRead => s.agent.running && |s.down| > 0
    case AgentWrite => |s.agent.outgoing| > 0
    case ByAgent(aa) => !aa.Read? && AgentEnabled(s.agent, aa)
  }

  function SessionNext(s: Session, a: SessionAction): (r: Session)
    requires SessionEnabled(s, a)
  {
    match a
    case CloseDone => s.(done := true)
    case PumpTake =>
      var m := s.up[0];
      var id := m.RequestId();
      s.(taken := s.taken + [m], up := s.up[1..],
         pump := if id in s.pending then Delivering(s.pending[id], m) else Idle)
    case PumpDrop => s.(pump := Idle, abandoned := s.abandoned + [s.pump.message])
    case PumpSend => s.(outbound := s.outbound[1..], down := s.down + [s.outbound[0]])
    case AgentRead => s.(down := s.down[1..], agent := AgentNext(s.agent, Read(s.down[0])))
    case AgentWrite => s.(up := s.up + [s.agent.outgoing[0]], agent := s.agent.(outgoing := s.agent.outgoing[1..]))
    case ByAgent(aa) => s.(agent := AgentNext(s.agent, aa))
  }

  // ---------- The whole system

  datatype Action =
    | Start(installation: InstallationId, id: RequestId)
    | ByQuery(q: nat, qa: QueryAction)
    | BySession(i: nat, sa: SessionAction)
    | CloseClear(i: nat)             // close, second half: notices, then the pending map is emptied
    | Register(installation: InstallationId)
    | Unregister(i: nat)             // the pump's function returns

  function LocalView(s: State, q: nat): Local
    requires s.WellIndexed() && q < |s.queries|
  {
    Local(s.queries[q], s.sessions[s.queries[q].session], s.global)
  }

  predicate Enabled(s: State, a: Action)
    requires s.WellIndexed()
  {
    match a
    case Start(installation, _) => installation in s.registry
    case ByQuery(q, qa) => q < |s.queries| && QueryEnabled(LocalView(s, q), q, qa)
    case BySession(i, sa) => i < |s.sessions| && SessionEnabled(s.sessions[i], sa)
    case CloseClear(i) => i < |s.sessions| && s.sessions[i].done && !s.sessions[i].cleared
    case Register(_) => true
    case Unregister(i) => i < |s.sessions| && s.sessions[i].pump.Idle?
  }

  /** A pending query learns that its session closed, if its inbox has room. */
  function Notified(query: Query, q: nat, pending: map<RequestId, nat>): Query {
    if query.id in pending && pending[query.id] == q then query.(inbox := Offered(query.inbox, ClosedNotice)) else query
  }

  function NotifyAll(s: State, i: nat): seq<Query>
    requires i < |s.sessions|
  {
    seq(|s.queries|, q requires 0 <= q < |s.queries| =>
      if s.queries[q].session == i then Notified(s.queries[q], q, s.sessions[i].pending) else s.queries[q])
  }

  function Next(s: State, a: Action): (r: State)
    requires s.WellIndexed() && Enabled(s, a)
  {
    match a
    case Start(installation, id) => s.(queries := s.queries + [NewQuery(installation, id, s.registry[installation])])
    case ByQuery(q, qa) =>
      var Local(query, session, global) := QueryNext(LocalView(s, q), q, qa);
      s.(global := global, queries := s.queries[q := query], sessions := s.sessions[s.queries[q].session := session])
    case BySession(i, sa) => s.(sessions := s.sessions[i := SessionNext(s.sessions[i], sa)])
    case CloseClear(i) =>
      s.(queries := NotifyAll(s, i), sessions := s.sessions[i := s.sessions[i].(pending := map[], cleared := true)])
    case Register(installation) =>
      var sessions :=
        if installation in s.registry
        then var previous := s.registry[installation]; s.sessions[previous := s.sessions[previous].(closing := true)]
        else s.sessions;
      s.(registry := s.registry[installation := |s.sessions|], sessions := sessions + [NewSession(installation)])
    case Unregister(i) =>
      var session := s.sessions[i];
      s.(registry := if session.installation in s.registry && s.registry[session.installation] == i
                     then s.registry - {session.installation} else s.registry,
         sessions := s.sessions[i := session.(pump := Exited, closing := true)])
  }

  lemma SessionKeepsPending(s: Session, a: SessionAction)
    requires SessionEnabled(s, a)
    ensures SessionNext(s, a).pending == s.pending && SessionNext(s, a).cleared == s.cleared
  {
  }

  /** A query's step can only add the query itself to the pending map. */
  lemma QueryAddsItself(l: Local, q: nat, a: QueryAction)
    requires QueryEnabled(l, q, a)
    ensures var r := QueryNext(l, q, a);
            && r.query.session == l.query.session
            && forall k :: k in r.session.pending ==>
                 r.session.pending[k] == q || (k in l.session.pending && r.session.pending[k] == l.session.pending[k])
  {
  }

  lemma NextWellIndexed(s: State, a: Action)
    requires s.WellIndexed() && Enabled(s, a)
    ensures Next(s, a).WellIndexed()
    ensures |s.sessions| <= |Next(s, a).sessions| && |s.queries| <= |Next(s, a).queries|
  {
    match a
    case ByQuery(q, qa) => QueryAddsItself(LocalView(s, q), q, qa);
    case BySession(i, sa) => SessionKeepsPending(s.sessions[i], sa);
    case _ =>
  }

  /** The state after a run, or None when some action of the run was not enabled */
  function Run(actions: seq<Action>): (r: Option<State>)
    ensures r.Some? ==> r.value.WellIndexed()
  {
    if actions == [] then Some(INITIAL)
    else
      var last := |actions| - 1;
      match Run(actions[..last])
      case None => None
      case Some(s) =>
        if Enabled(s, actions[last]) then
          NextWellIndexed(s, actions[last]);
          Some(Next(s, actions[last]))
        else None
  }

  ghost predicate Reachable(s: State) {
    exists actions :: Run(actions) == Some(s)
  }

  lemma Extend(actions: seq<Action>, s: State, a: Action)
    requires Run(actions) == Some(s) && Enabled(s, a)
    ensures Run(actions + [a]) == Some(Next(s, a))
  {
    assert (actions + [a])[..|actions + [a]| - 1] == actions;
  }
}
