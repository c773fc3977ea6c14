/**
 Server and Agent composed over the two first-in first-out streams of the control channel. An
 action is one step of one side; transports, registries and the executor choose its inputs.
 */
module ControlChannel {
  import opened Options
  import opened Bindings
  import opened ControlMessages
  import S = ControlServer
  import A = ControlAgent

  datatype Config = Config(server: S.Config, agent: A.Config)

  datatype State = State(server: S.Server, agent: A.AgentSide, toServer: seq<Up>, toAgent: seq<Down>)

  datatype Action =
    | ServerReceives(world: S.World)
    | ServerLoses(world: S.World)                                // the receive fails or the stream is closed
    | AgentReceives(result: Option<Result>, sent: bool)
    | AgentLoses                                                 // the receive fails or times out
    | AgentTicks(sample: A.Sample)
    | AgentCancelled

  function Initial(c: Config): State {
    State(S.Fresh, A.Begin(c.agent), [Hello(A.HelloOf(c.agent))], [])
  }

  function ServerMoves(c: Config, st: State, input: S.Input, left: seq<Up>): State {
    var s := S.Step(c.server, st.server, input);
    st.(server := s, toServer := left,
        toAgent := if |s.sent| > |st.server.sent| then st.toAgent + [s.sent[|s.sent| - 1]] else st.toAgent)
  }

  function AgentMoves(c: Config, st: State, input: A.Input, left: seq<Down>): State {
    var a := A.Step(c.agent, st.agent, input);
    st.(agent := a, toAgent := left,
        toServer := if |a.sent| > |st.agent.sent| then st.toServer + [a.sent[|a.sent| - 1]] else st.toServer)
  }

  /** Who has stopped receives nothing; an Agent that waits for its ticker does not receive either. */
  predicate Enabled(st: State, action: Action) {
    match action
    case ServerReceives(_) => st.server.stopped.None? && st.toServer != []
    case ServerLoses(_) => st.server.stopped.None?
    case AgentReceives(_, _) => st.agent.stopped.None? && st.toAgent != [] && !st.agent.phase.Ticking?
    case AgentLoses => st.agent.stopped.None? && !st.agent.phase.Ticking?
    case AgentTicks(_) => st.agent.stopped.None? && st.agent.phase.Ticking?
    case AgentCancelled => st.agent.stopped.None? && st.agent.phase.Ticking?
  }

  function Next(c: Config, st: State, action: Action): State
    requires Enabled(st, action)
  {
    match action
    case ServerReceives(w) => ServerMoves(c, st, S.Input(Some(st.toServer[0]), w), st.toServer[1..])
    case ServerLoses(w) => ServerMoves(c, st, S.Input(None, w), st.toServer)
    case AgentReceives(result, sent) => AgentMoves(c, st, A.Receive(Some(st.toAgent[0]), result, sent), st.toAgent[1..])
    case AgentLoses => AgentMoves(c, st, A.Receive(None, None, false), st.toAgent)
    case AgentTicks(sample) => AgentMoves(c, st, A.Tick(sample), st.toAgent)
    case AgentCancelled => AgentMoves(c, st, A.Cancel, st.toAgent)
  }

  /**
   What the surroundings promise: session identifiers are not empty, registries announce acceptable
   targets, the executor echoes the command, and the observer reports at most once for each target.
   */
  predicate Fair(st: State, action: Action) {
    match action
    case ServerReceives(w) => w.session != "" && (w.targets.Some? ==> Acceptable(w.targets.value))
    case AgentReceives(result, _) =>
      st.toAgent != [] && st.toAgent[0].Perform? ==> result.Some? && Answers(result.value, st.toAgent[0].command)
    case AgentTicks(sample) => st.agent.targets.Some? ==> |sample.bindings| <= |st.agent.targets.value|
    case _ => true
  }

  predicate Possible(c: Config, actions: seq<Action>)
    decreases |actions|, 0
  {
    actions == [] ||
    var before := actions[..|actions| - 1];
    && Possible(c, before)
    && Enabled(After(c, before), actions[|actions| - 1])
    && Fair(After(c, before), actions[|actions| - 1])
  }

  function After(c: Config, actions: seq<Action>): State
    requires Possible(c, actions)
    decreases |actions|, 1
  {
    if actions == [] then Initial(c) else Next(c, After(c, actions[..|actions| - 1]), actions[|actions| - 1])
  }

  /** The two sides fit: the server accepts the Agent's hello and the Agent accepts the server's. */
  predicate Suitable(c: Config) {
    && S.Accepts(c.server, A.HelloOf(c.agent))
    && 1 <= c.server.interval <= 300
    && c.server.trustBundle == c.agent.trustBundle != ""
    && (c.server.hasDispatcher ==> c.agent.hasExecutor)
  }

  /** The Agent reports bindings; the server always advertises that it takes them. */
  predicate Observes(c: Config) {
    c.agent.hasBindings && BINDING_OBSERVATION in c.agent.capabilities
  }

  // ---------- The invariant

  function WelcomeOf(c: Config, session: string): ServerHello {
    ServerHello(PROTOCOL, c.server.interval, S.Advertised, session, c.server.trustBundle)
  }

  /** The handshake's results agree on both sides. */
  predicate Linked(c: Config, st: State) {
    && (!st.server.phase.AwaitHello? ==>
          && st.server.session != ""
          && st.server.capability == (CAPABILITY_OBSERVATION in c.agent.capabilities)
          && st.server.binding == (c.server.hasBindings && BINDING_OBSERVATION in c.agent.capabilities))
    && st.agent.welcome == (if st.agent.phase.AwaitWelcome? then None else Some(WelcomeOf(c, st.server.session)))
  }

  /** The registry saw the heartbeats 1, 2, 3, ... */
  predicate Counted(touched: seq<nat>) {
    |touched| < A.WORD && forall i :: 0 <= i < |touched| ==> touched[i] == i + 1
  }

  predicate GoodBeat(c: Config, st: State, h: Heartbeat) {
    && h.session == st.server.session && h.sequence == st.agent.sequence == (|st.server.touched| + 1) % A.WORD
    && (h.capability != [] || h.capabilityComplete ==> CAPABILITY_OBSERVATION in c.agent.capabilities)
    && (h.bindings != [] || h.bindingsComplete ==> Observes(c))
    && |h.bindings| <= MAX_TARGETS
  }

  predicate GoodAck(st: State, d: Down) {
    && d.Ack? && d.sequence == st.agent.sequence == |st.server.touched|
    && st.server.announced != []
    && var last := st.server.announced[|st.server.announced| - 1];
    Acceptable(last) && (forall i :: 0 <= i < |last| ==> Announced(last[i])) && d.targets == AllToWire(last)
  }

  /** The Agent holds the targets announced last. */
  predicate Current(c: Config, st: State) {
    st.agent.targets == if Observes(c) && st.server.announced != []
      then Some(st.server.announced[|st.server.announced| - 1]) else None
  }

  predicate Alive(st: State) {
    st.server.stopped.None? && st.agent.stopped.None?
  }

  /** Where the two sides are, and what is under way between them */
  predicate InStep(c: Config, st: State) {
    var server, agent := st.server.phase, st.agent.phase;
    if server.AwaitHello? then
      && agent.AwaitWelcome? && st.toAgent == [] && st.agent.sequence == |st.server.touched| == 0
      && st.server.announced == [] && Current(c, st)
      && (st.toServer == [Hello(A.HelloOf(c.agent))] || (st.toServer == [] && !Alive(st)))
    else if agent.AwaitWelcome? then
      && server.AwaitHeartbeat? && st.toServer == [] && st.agent.sequence == |st.server.touched| == 0
      && st.server.announced == [] && Current(c, st)
      && (st.toAgent == [Welcome(WelcomeOf(c, st.server.session))] || (st.toAgent == [] && !Alive(st)))
    else if agent.Ticking? then
      && server.AwaitHeartbeat? && st.toServer == [] && st.toAgent == [] && Current(c, st)
      && (st.agent.stopped.None? ==> st.agent.sequence == |st.server.touched|)
    else if server.AwaitHeartbeat? then
      || (st.toAgent == [] && !agent.answered && |st.toServer| == 1 && st.toServer[0].Beat?
          && GoodBeat(c, st, st.toServer[0].beat))
      || (st.toServer == [] && |st.toAgent| == 1 && GoodAck(st, st.toAgent[0]))
      || (st.toServer == [] && st.toAgent == [] && !Alive(st))
    else
      && server.sequence == st.agent.sequence == |st.server.touched|
      && (|| (st.toServer == [] && st.toAgent == [Perform(server.command)] && !agent.answered && c.server.hasDispatcher)
          || (st.toAgent == [] && |st.toServer| == 1 && st.toServer[0].Outcome?
              && Answers(st.toServer[0].result, server.command))
          || (st.toServer == [] && st.toAgent == [] && !Alive(st)))
  }

  predicate ServerBreach(why: S.Stop) {
    why in {S.HelloRejected, S.HeartbeatExpected, S.SessionRejected, S.CapabilityNotNegotiated, S.BindingNotNegotiated,
            S.BindingMalformed, S.ResultMismatch}
  }

  predicate AgentBreach(why: A.Stop) {
    why in {A.TrustBundleUpdateRequired, A.HelloIncompatible, A.NoExecutor, A.InvalidResult, A.InvalidAck,
            A.InvalidTargets}
  }

  /** The only protocol errors: the heartbeat number wraps to zero, or bindings meet a server without their registry. */
  predicate Excused(c: Config, st: State) {
    && (st.server.stopped.Some? && ServerBreach(st.server.stopped.value) ==>
          || (st.server.stopped.value.SessionRejected? && |st.server.touched| == A.WORD - 1)
          || (st.server.stopped.value.BindingNotNegotiated? && Observes(c) && !c.server.hasBindings))
    && (st.agent.stopped.Some? ==> !AgentBreach(st.agent.stopped.value))
  }

  predicate Known(c: Config, st: State) {
    st.agent.targets.Some? ==> Observes(c) && |st.agent.targets.value| <= MAX_TARGETS
  }

  predicate Inv(c: Config, st: State) {
    Linked(c, st) && Counted(st.server.touched) && Known(c, st) && InStep(c, st) && Excused(c, st)
  }

  // ---------- Every step keeps it

  lemma HelloKeeps(c: Config, st: State, w: S.World)
    requires Suitable(c) && Inv(c, st) && Enabled(st, ServerReceives(w)) && Fair(st, ServerReceives(w))
    requires st.server.phase.AwaitHello?
    ensures Inv(c, Next(c, st, ServerReceives(w)))
  {
  }

  lemma ObjectionExcused(c: Config, st: State, h: Heartbeat, w: S.World)
    requires Linked(c, st) && !st.server.phase.AwaitHello? && GoodBeat(c, st, h)
    ensures var objection := S.Objection(st.server, h, w);
            objection.Some? && ServerBreach(objection.value) ==>
              objection.value.BindingNotNegotiated? && Observes(c) && !c.server.hasBindings
  {
  }

  /** `s` is the server in the middle of a turn: it has received, and answers next. */
  predicate Midway(c: Config, st: State, s: S.Server) {
    && Linked(c, st) && Counted(s.touched) && Known(c, st) && Excused(c, st)
    && s == st.server.(touched := s.touched, reconciled := s.reconciled, dispatch := s.dispatch)
    && s.stopped.None? && !s.phase.AwaitHello?
    && st.agent.phase.AwaitAck? && st.toAgent == []
    && (s.phase.AwaitResult? ==> s.phase.sequence == st.agent.sequence == |s.touched|)
  }

  /** The state after the server's answer */
  function Answered(st: State, s: S.Server): State {
    State(s, st.agent, [], if |s.sent| > |st.server.sent| then [s.sent[|s.sent| - 1]] else [])
  }

  lemma HaltKeeps(c: Config, st: State, s: S.Server, why: S.Stop)
    requires Midway(c, st, s)
    requires ServerBreach(why) ==> || (why.SessionRejected? && |s.touched| == A.WORD - 1)
                                   || (why.BindingNotNegotiated? && Observes(c) && !c.server.hasBindings)
    ensures Inv(c, Answered(st, S.Halt(s, why)))
  {
  }

  /** An accepted heartbeat is acknowledged with acceptable targets. */
  lemma AcknowledgeKeeps(c: Config, st: State, s: S.Server, w: S.World)
    requires Midway(c, st, s) && |s.touched| == st.agent.sequence && (w.targets.Some? ==> Acceptable(w.targets.value))
    ensures Inv(c, Answered(st, S.Acknowledge(s, |s.touched|, w)))
  {
  }

  lemma DispatchKeeps(c: Config, st: State, s: S.Server, command: Command, w: S.World)
    requires Midway(c, st, s) && |s.touched| == st.agent.sequence && s.phase.AwaitHeartbeat? && !st.agent.phase.answered
    requires c.server.hasDispatcher
    ensures Inv(c, Answered(st, S.Dispatched(s, |s.touched|, command, w)))
  {
  }

  lemma HearKeeps(c: Config, st: State, h: Heartbeat, w: S.World)
    requires Midway(c, st, st.server) && st.server.phase.AwaitHeartbeat? && !st.agent.phase.answered
    requires GoodBeat(c, st, h) && (w.targets.Some? ==> Acceptable(w.targets.value))
    ensures Inv(c, Answered(st, S.Hear(c.server, st.server, h, w)))
  {
    if h.sequence == 0 {
      HaltKeeps(c, st, st.server, S.SessionRejected);
    } else {
      var s := st.server.(touched := st.server.touched + [h.sequence]);
      assert s.touched[|st.server.touched|] == |st.server.touched| + 1;
      ObjectionExcused(c, st, h, w);
      var objection := S.Objection(s, h, w);
      HaltKeeps(c, st, s, S.TouchRejected);
      s := s.(reconciled := s.reconciled + S.Calls(s, h, w));
      HaltKeeps(c, st, s, S.CommandUnavailable);
      AcknowledgeKeeps(c, st, s, w);
      if objection.Some? {
        HaltKeeps(c, st, s, objection.value);
      } else if w.next.Next? && c.server.hasDispatcher {
        DispatchKeeps(c, st, s, w.next.command, w);
      }
    }
  }

  lemma HeartbeatKeeps(c: Config, st: State, w: S.World)
    requires Inv(c, st) && Enabled(st, ServerReceives(w)) && Fair(st, ServerReceives(w))
    requires st.server.phase.AwaitHeartbeat?
    ensures Inv(c, Next(c, st, ServerReceives(w)))
  {
    HearKeeps(c, st, st.toServer[0].beat, w);
    assert Next(c, st, ServerReceives(w)) == Answered(st, S.Hear(c.server, st.server, st.toServer[0].beat, w));
  }

  lemma ResultKeeps(c: Config, st: State, w: S.World)
    requires Inv(c, st) && Enabled(st, ServerReceives(w)) && Fair(st, ServerReceives(w)) && st.server.phase.AwaitResult?
    ensures Inv(c, Next(c, st, ServerReceives(w)))
  {
    var handled := st.server.(dispatch := st.server.dispatch + [S.Handled(st.toServer[0].result)]);
    HaltKeeps(c, st, handled, S.ResultRejected);
    AcknowledgeKeeps(c, st, handled, w);
    assert Next(c, st, ServerReceives(w)) == Answered(st, S.Conclude(st.server, st.toServer[0].result, w));
  }

  lemma ServerLossKeeps(c: Config, st: State, w: S.World)
    requires Inv(c, st) && Enabled(st, ServerLoses(w))
    ensures Inv(c, Next(c, st, ServerLoses(w)))
  {
  }

  lemma WelcomeKeeps(c: Config, st: State, result: Option<Result>, sent: bool)
    requires Suitable(c) && Inv(c, st) && Enabled(st, AgentReceives(result, sent)) && st.agent.phase.AwaitWelcome?
    ensures Inv(c, Next(c, st, AgentReceives(result, sent)))
  {
  }

  lemma CommandKeeps(c: Config, st: State, result: Option<Result>, sent: bool)
    requires Suitable(c) && Inv(c, st) && Enabled(st, AgentReceives(result, sent))
    requires Fair(st, AgentReceives(result, sent))
    requires st.agent.phase.AwaitAck? && st.server.phase.AwaitResult?
    ensures Inv(c, Next(c, st, AgentReceives(result, sent)))
  {
  }

  lemma AckKeeps(c: Config, st: State, result: Option<Result>, sent: bool)
    requires Inv(c, st) && Enabled(st, AgentReceives(result, sent))
    requires st.agent.phase.AwaitAck? && st.server.phase.AwaitHeartbeat?
    ensures Inv(c, Next(c, st, AgentReceives(result, sent)))
  {
    TargetsRoundTrip(st.server.announced[|st.server.announced| - 1]);
  }

  lemma BeatIsGood(c: Config, st: State, sample: A.Sample)
    requires Inv(c, st) && Enabled(st, AgentTicks(sample)) && Fair(st, AgentTicks(sample))
    requires (c.agent.hasObserver ==> sample.runtime.Some?)
    ensures var a := st.agent.(sequence := (st.agent.sequence + 1) % A.WORD);
            GoodBeat(c, st.(agent := a), A.BeatOf(c.agent, a.welcome.value, a.sequence, a.targets, sample))
  {
  }

  /** A tick without a heartbeat: collecting the observations or sending them failed */
  lemma HaltedTickKeeps(c: Config, st: State, why: A.Stop)
    requires Inv(c, st) && st.agent.stopped.None? && st.agent.phase.Ticking? && !AgentBreach(why)
    ensures Inv(c, st.(agent := A.Halt(st.agent.(sequence := (st.agent.sequence + 1) % A.WORD), why)))
  {
  }

  lemma SentTickKeeps(c: Config, st: State, sample: A.Sample)
    requires Inv(c, st) && Enabled(st, AgentTicks(sample)) && Fair(st, AgentTicks(sample))
    requires (c.agent.hasObserver ==> sample.runtime.Some?) && sample.sent
    ensures Inv(c, Next(c, st, AgentTicks(sample)))
  {
    BeatIsGood(c, st, sample);
    var a := st.agent.(sequence := (st.agent.sequence + 1) % A.WORD);
    var h := A.BeatOf(c.agent, a.welcome.value, a.sequence, a.targets, sample);
    var sent := a.(phase := A.AwaitAck(false), sent := a.sent + [Beat(h)]);
    assert Next(c, st, AgentTicks(sample)) == st.(agent := sent, toServer := [Beat(h)]);
    assert GoodBeat(c, st.(agent := sent, toServer := [Beat(h)]), h);
  }

  lemma TickKeeps(c: Config, st: State, sample: A.Sample)
    requires Inv(c, st) && Enabled(st, AgentTicks(sample)) && Fair(st, AgentTicks(sample))
    ensures Inv(c, Next(c, st, AgentTicks(sample)))
  {
    if c.agent.hasObserver && sample.runtime.None? {
      HaltedTickKeeps(c, st, A.ObservationFailed);
    } else if !sample.sent {
      HaltedTickKeeps(c, st, A.SendFailed);
    } else {
      SentTickKeeps(c, st, sample);
    }
  }

  lemma AgentLossKeeps(c: Config, st: State, action: Action)
    requires Inv(c, st) && Enabled(st, action) && (action.AgentLoses? || action.AgentCancelled?)
    ensures Inv(c, Next(c, st, action))
  {
  }

  lemma NextKeeps(c: Config, st: State, action: Action)
    requires Suitable(c) && Inv(c, st) && Enabled(st, action) && Fair(st, action)
    ensures Inv(c, Next(c, st, action))
  {
    match action
    case ServerReceives(w) =>
      match st.server.phase {
        case AwaitHello => HelloKeeps(c, st, w);
        case AwaitHeartbeat => HeartbeatKeeps(c, st, w);
        case AwaitResult(_, _) => ResultKeeps(c, st, w);
      }
    case ServerLoses(w) => ServerLossKeeps(c, st, w);
    case AgentReceives(result, sent) =>
      if st.agent.phase.AwaitWelcome? {
        WelcomeKeeps(c, st, result, sent);
      } else if st.server.phase.AwaitResult? {
        CommandKeeps(c, st, result, sent);
      } else {
        AckKeeps(c, st, result, sent);
      }
    case AgentTicks(sample) => TickKeeps(c, st, sample);
    case _ => AgentLossKeeps(c, st, action);
  }

  lemma {:induction false} RunsKeep(c: Config, actions: seq<Action>)
    requires Suitable(c) && Possible(c, actions)
    ensures Inv(c, After(c, actions))
  {
    if actions != [] {
      RunsKeep(c, actions[..|actions| - 1]);
      NextKeeps(c, After(c, actions[..|actions| - 1]), actions[|actions| - 1]);
    }
  }

  // ---------- What holds of every run

  /**
   Exactly one side waits for the one message under way, or nothing is under way and the Agent
   waits for its ticker.
   */
  predicate NotStuck(st: State) {
    || (st.agent.phase.Ticking? && st.toServer == [] && st.toAgent == [])
    || (|st.toServer| == 1 && st.toAgent == [] && !st.agent.phase.Ticking?)
    || (|st.toAgent| == 1 && st.toServer == [] && !st.agent.phase.Ticking?)
  }

  lemma ChannelStaysInStep(c: Config, actions: seq<Action>)
    requires Suitable(c) && Possible(c, actions)
    ensures var st := After(c, actions);
            && Excused(c, st)
            && (forall i :: 0 <= i < |st.server.touched| ==> st.server.touched[i] == i + 1)
            && (Alive(st) ==> NotStuck(st))
            && (Observes(c) && st.agent.phase.Ticking? && st.server.announced != [] ==>
                  st.agent.targets == Some(st.server.announced[|st.server.announced| - 1]))
  {
    RunsKeep(c, actions);
  }

  lemma Extend(c: Config, actions: seq<Action>, action: Action)
    requires Possible(c, actions) && Enabled(After(c, actions), action) && Fair(After(c, actions), action)
    ensures Possible(c, actions + [action]) && After(c, actions + [action]) == Next(c, After(c, actions), action)
  {
    assert (actions + [action])[..|actions|] == actions;
  }

  const Willing := S.World(true, "session", true, true, true, true, true, S.NextNone, true, Some([]), true)
  const Complete := A.Sample(Some([]), [], false, [], true, true)

  lemma FirstHello(c: Config)
    requires Suitable(c)
    ensures var heard := Next(c, Initial(c), ServerReceives(Willing));
            Alive(heard) && heard.server.phase.AwaitHeartbeat? && heard.agent == A.Begin(c.agent) && heard.toAgent != []
              && heard.server.touched == []
  {
  }

  lemma FirstWelcome(c: Config, st: State)
    requires Suitable(c) && Inv(c, st) && Alive(st) && st.agent.phase.AwaitWelcome? && st.toAgent != []
    ensures var welcomed := Next(c, st, AgentReceives(None, false));
            Alive(welcomed) && welcomed.agent.phase.Ticking? && welcomed.agent.targets == st.agent.targets
              && welcomed.server == st.server
  {
  }

  lemma GetsHello(c: Config) returns (actions: seq<Action>)
    requires Suitable(c)
    ensures Possible(c, actions) && After(c, actions) == Next(c, Initial(c), ServerReceives(Willing))
    ensures Inv(c, After(c, actions))
  {
    Extend(c, [], ServerReceives(Willing));
    actions := [] + [ServerReceives(Willing)];
    RunsKeep(c, actions);
  }

  lemma GetsWelcome(c: Config) returns (actions: seq<Action>)
    requires Suitable(c)
    ensures Possible(c, actions) && Alive(After(c, actions)) && After(c, actions).agent.phase.Ticking?
    ensures After(c, actions).server.touched == [] && After(c, actions).agent.targets.None?
  {
    var heard := GetsHello(c);
    FirstHello(c);
    FirstWelcome(c, After(c, heard));
    Extend(c, heard, AgentReceives(None, false));
    actions := heard + [AgentReceives(None, false)];
  }

  lemma Ticks(c: Config, actions: seq<Action>) returns (more: seq<Action>)
    requires Suitable(c) && Possible(c, actions) && Alive(After(c, actions)) && After(c, actions).agent.phase.Ticking?
    ensures Possible(c, more) && After(c, more) == Next(c, After(c, actions), AgentTicks(Complete))
    ensures Inv(c, After(c, more))
    ensures Alive(After(c, more)) && After(c, more).agent.phase == A.AwaitAck(false)
  {
    RunsKeep(c, actions);
    Extend(c, actions, AgentTicks(Complete));
    more := actions + [AgentTicks(Complete)];
    RunsKeep(c, more);
  }

  lemma ServerHears(c: Config, actions: seq<Action>) returns (more: seq<Action>)
    requires Suitable(c) && Possible(c, actions) && Inv(c, After(c, actions)) && Alive(After(c, actions))
    requires After(c, actions).toServer != []
    ensures Possible(c, more) && After(c, more) == Next(c, After(c, actions), ServerReceives(Willing))
    ensures Inv(c, After(c, more))
  {
    Extend(c, actions, ServerReceives(Willing));
    more := actions + [ServerReceives(Willing)];
    RunsKeep(c, more);
  }

  lemma FirstBeat(c: Config, st: State)
    requires Inv(c, st) && Alive(st) && st.agent.phase.Ticking? && st.server.touched == [] && st.agent.targets.None?
    ensures var ticked := Next(c, st, AgentTicks(Complete));
            && ticked.toServer != [] && ticked.server == st.server
            && var heard := Next(c, ticked, ServerReceives(Willing));
            Alive(heard) && heard.agent == ticked.agent && |heard.server.touched| == 1 && heard.toAgent != []
  {
  }

  lemma FirstAck(c: Config, st: State)
    requires Inv(c, st) && Alive(st) && Observes(c) && st.agent.phase.AwaitAck? && st.server.phase.AwaitHeartbeat?
    requires st.toAgent != []
    ensures var acked := Next(c, st, AgentReceives(None, false));
            Alive(acked) && acked.agent.phase.Ticking? && acked.agent.targets.Some? && acked.server == st.server
  {
    TargetsRoundTrip(st.server.announced[|st.server.announced| - 1]);
  }

  lemma GetsBeat(c: Config) returns (actions: seq<Action>)
    requires Suitable(c)
    ensures Possible(c, actions) && Inv(c, After(c, actions)) && Alive(After(c, actions))
    ensures After(c, actions).agent.phase.AwaitAck?
    ensures |After(c, actions).server.touched| == 1 && After(c, actions).server.phase.AwaitHeartbeat?
    ensures After(c, actions).toAgent != []
  {
    var welcomed := GetsWelcome(c);
    RunsKeep(c, welcomed);
    FirstBeat(c, After(c, welcomed));
    var ticked := Ticks(c, welcomed);
    actions := ServerHears(c, ticked);
  }

  lemma GetsAck(c: Config) returns (actions: seq<Action>)
    requires Suitable(c) && Observes(c)
    ensures Possible(c, actions) && Alive(After(c, actions)) && After(c, actions).agent.phase.Ticking?
    ensures |After(c, actions).server.touched| == 1 && After(c, actions).agent.targets.Some?
  {
    var beaten := GetsBeat(c);
    FirstAck(c, After(c, beaten));
    Extend(c, beaten, AgentReceives(None, false));
    actions := beaten + [AgentReceives(None, false)];
  }

  lemma SecondBeat(c: Config, st: State)
    requires Inv(c, st) && Alive(st) && Observes(c) && !c.server.hasBindings
    requires st.agent.phase.Ticking? && |st.server.touched| == 1 && st.agent.targets.Some?
    ensures var ticked := Next(c, st, AgentTicks(Complete));
            ticked.toServer != [] && ticked.server == st.server
            && Next(c, ticked, ServerReceives(Willing)).server.stopped == Some(S.BindingNotNegotiated)
  {
  }

  /** A server without the bindings' registry rejects an Agent that reports bindings, and only then. */
  lemma BindingsNeedTheirRegistry(c: Config)
    requires Suitable(c)
    ensures (exists actions :: Possible(c, actions) && After(c, actions).server.stopped == Some(S.BindingNotNegotiated))
            <==> Observes(c) && !c.server.hasBindings
  {
    forall actions | Possible(c, actions) && After(c, actions).server.stopped == Some(S.BindingNotNegotiated)
      ensures Observes(c) && !c.server.hasBindings
    {
      RunsKeep(c, actions);
    }
    if Observes(c) && !c.server.hasBindings {
      var acked := GetsAck(c);
      RunsKeep(c, acked);
      SecondBeat(c, After(c, acked));
      var ticked := Ticks(c, acked);
      var heard := ServerHears(c, ticked);
    }
  }

  // ---------- The heartbeat number wraps around

  /** The server rejects a heartbeat's number exactly if 2^64 - 1 heartbeats went before it. */
  lemma WrapIsRejected(c: Config, actions: seq<Action>, w: S.World)
    requires Suitable(c) && Possible(c, actions)
    requires var st := After(c, actions);
             Enabled(st, ServerReceives(w)) && st.server.phase.AwaitHeartbeat?
    ensures var st := After(c, actions);
            Next(c, st, ServerReceives(w)).server.stopped == Some(S.SessionRejected) <==>
              |st.server.touched| == A.WORD - 1
  {
    RunsKeep(c, actions);
    RejectsZero(c, After(c, actions), w);
  }

  lemma RejectsZero(c: Config, st: State, w: S.World)
    requires Inv(c, st) && Enabled(st, ServerReceives(w)) && st.server.phase.AwaitHeartbeat?
    ensures Next(c, st, ServerReceives(w)).server.stopped == Some(S.SessionRejected) <==>
            |st.server.touched| == A.WORD - 1
  {
    var h := st.toServer[0].beat;
    assert GoodBeat(c, st, h);
    assert h.sequence == 0 <==> |st.server.touched| == A.WORD - 1;
  }

  /** A heartbeat that reports nothing */
  const Quiet := A.Sample(Some([]), [], false, [], false, true)

  lemma QuietTick(c: Config, st: State)
    requires Inv(c, st) && Alive(st) && st.agent.phase.Ticking?
    ensures var ticked := Next(c, st, AgentTicks(Quiet));
            && Alive(ticked) && ticked.server == st.server && ticked.agent.phase == A.AwaitAck(false)
            && |ticked.toServer| == 1 && ticked.toServer[0].Beat?
            && ticked.toServer[0].beat.capability == [] && !ticked.toServer[0].beat.capabilityComplete
            && ticked.toServer[0].beat.bindings == [] && !ticked.toServer[0].beat.bindingsComplete
  {
  }

  lemma QuietHear(c: Config, st: State)
    requires Inv(c, st) && Alive(st) && st.agent.phase.AwaitAck? && st.server.phase.AwaitHeartbeat?
    requires |st.toServer| == 1 && st.toServer[0].Beat? && |st.server.touched| < A.WORD - 1
    requires st.toServer[0].beat.capability == [] && !st.toServer[0].beat.capabilityComplete
    requires st.toServer[0].beat.bindings == [] && !st.toServer[0].beat.bindingsComplete
    ensures var heard := Next(c, st, ServerReceives(Willing));
            && Alive(heard) && heard.agent == st.agent && heard.server.phase.AwaitHeartbeat? && heard.toAgent != []
            && |heard.server.touched| == |st.server.touched| + 1
  {
    assert GoodBeat(c, st, st.toServer[0].beat);
  }

  lemma QuietAck(c: Config, st: State)
    requires Inv(c, st) && Alive(st) && st.agent.phase.AwaitAck? && st.server.phase.AwaitHeartbeat? && st.toAgent != []
    ensures var acked := Next(c, st, AgentReceives(None, false));
            Alive(acked) && acked.agent.phase.Ticking? && acked.server == st.server
  {
    TargetsRoundTrip(st.server.announced[|st.server.announced| - 1]);
  }

  /** From a state that waits for the ticker, one more heartbeat on the way to the server */
  lemma BeatsQuietly(c: Config, actions: seq<Action>) returns (more: seq<Action>)
    requires Suitable(c) && Possible(c, actions) && Alive(After(c, actions)) && After(c, actions).agent.phase.Ticking?
    ensures Possible(c, more) && Inv(c, After(c, more))
    ensures After(c, more) == Next(c, After(c, actions), AgentTicks(Quiet))
  {
    RunsKeep(c, actions);
    Extend(c, actions, AgentTicks(Quiet));
    more := actions + [AgentTicks(Quiet)];
    RunsKeep(c, more);
  }

  lemma OneMoreTurn(c: Config, actions: seq<Action>) returns (more: seq<Action>)
    requires Suitable(c) && Possible(c, actions) && Alive(After(c, actions)) && After(c, actions).agent.phase.Ticking?
    requires |After(c, actions).server.touched| < A.WORD - 1
    ensures Possible(c, more) && Alive(After(c, more)) && After(c, more).agent.phase.Ticking?
    ensures |After(c, more).server.touched| == |After(c, actions).server.touched| + 1
  {
    RunsKeep(c, actions);
    QuietTick(c, After(c, actions));
    var ticked := BeatsQuietly(c, actions);
    QuietHear(c, After(c, ticked));
    var heard := ServerHears(c, ticked);
    QuietAck(c, After(c, heard));
    Extend(c, heard, AgentReceives(None, false));
    more := heard + [AgentReceives(None, false)];
  }

  /** Every number of heartbeats below 2^64 can be reached with both sides alive. */
  lemma {:induction false} TurnsReach(c: Config, n: nat) returns (actions: seq<Action>)
    requires Suitable(c) && n < A.WORD
    ensures Possible(c, actions) && Alive(After(c, actions)) && After(c, actions).agent.phase.Ticking?
    ensures |After(c, actions).server.touched| == n
  {
    if n == 0 {
      actions := GetsWelcome(c);
    } else {
      var before := TurnsReach(c, n - 1);
      actions := OneMoreTurn(c, before);
    }
  }

  /** The wrap ends the channel in some run of any two fitting sides, and whenever the number is rejected it wrapped. */
  lemma TheNumberWraps(c: Config)
    requires Suitable(c)
    ensures exists actions :: Possible(c, actions) && After(c, actions).server.stopped == Some(S.SessionRejected)
    ensures forall actions :: Possible(c, actions) && After(c, actions).server.stopped == Some(S.SessionRejected) ==>
              |After(c, actions).server.touched| == A.WORD - 1
  {
    var last := TurnsReach(c, A.WORD - 1);
    RunsKeep(c, last);
    QuietTick(c, After(c, last));
    var ticked := BeatsQuietly(c, last);
    RejectsZero(c, After(c, ticked), Willing);
    var heard := ServerHears(c, ticked);
    assert After(c, heard).server.stopped == Some(S.SessionRejected);
    forall actions | Possible(c, actions) && After(c, actions).server.stopped == Some(S.SessionRejected)
      ensures |After(c, actions).server.touched| == A.WORD - 1
    {
      RunsKeep(c, actions);
    }
  }
}
