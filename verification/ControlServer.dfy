/**
 The control plane's side of the control channel. `Step` is what the server does between two
 receives; `Connect` is the loop itself.
 */
module ControlServer {
  import opened Options
  import opened Bindings
  import opened ControlMessages

  /** `installation` is the identity in the peer's certificate. */
  datatype Config = Config(installation: string, interval: int, trustBundle: string, hasBindings: bool,
                           hasDispatcher: bool)

  datatype Stop =
    | StreamEnded | SendFailed
    // the registries and the dispatcher refuse
    | IdsUnavailable | ActivationRejected | TouchRejected | RuntimeRejected | CapabilityRejected | BindingRejected
    | CommandUnavailable | ResultRejected | TargetsUnavailable
    // the peer breaks the protocol
    | HelloRejected | HeartbeatExpected | SessionRejected | CapabilityNotNegotiated | BindingNotNegotiated
    | BindingMalformed | ResultMismatch

  datatype Phase = AwaitHello | AwaitHeartbeat | AwaitResult(command: Command, sequence: nat)

  /** The calls of the dispatcher, in order */
  datatype Dispatch = Obtained(command: Command) | Handled(result: Result) | Abandoned(commandId: string)

  /** What the registry is told when the Agent is activated */
  datatype Activation = Activation(hello: AgentHello, session: string)

  /** The calls that pass on a heartbeat's observations */
  datatype Reconcile =
    | RuntimeCall(sequence: nat, runtime: seq<string>, complete: bool)
    | CapabilityCall(sequence: nat, capability: seq<string>, complete: bool)
    | BindingCall(sequence: nat, bindings: seq<Observation>, complete: bool)

  /**
   `activation`, `touched` and `reconciled` are the calls of the registries, `sent` the messages sent,
   `announced` the targets of the acknowledgements.
   */
  datatype Server = Server(phase: Phase, session: string, capability: bool, binding: bool, stopped: Option<Stop>,
                           activation: Option<Activation>, touched: seq<nat>, reconciled: seq<Reconcile>,
                           dispatch: seq<Dispatch>, sent: seq<Down>, announced: seq<seq<Target>>)

  type Announceable = t: Target | Announced(t) witness Target("", "", 0, None, None)

  datatype Next = NextFailed | NextNone | Next(command: Command)

  /** What registries, dispatcher and transport answer during one step */
  datatype World = World(ids: bool, session: string, activated: bool, touch: bool, runtime: bool, capability: bool,
                         binding: bool, next: Next, handled: bool, targets: Option<seq<Announceable>>,
                         sent: bool)

  /** `received` is None when the receive fails or the stream is at its end. */
  datatype Input = Input(received: Option<Up>, world: World)

  const Fresh := Server(AwaitHello, "", false, false, None, None, [], [], [], [], [])

  // ---------- The handshake

  predicate IsSpace(c: char) {
    || '\t' <= c <= '\r' || c == ' ' || c == '\U{0085}' || c == '\U{00A0}' || c == '\U{1680}'
      || '\U{2000}' <= c <= '\U{200A}'
    || c == '\U{2028}' || c == '\U{2029}' || c == '\U{202F}' || c == '\U{205F}' || c == '\U{3000}'
  }

  predicate Blank(s: string) {
    forall k :: 0 <= k < |s| ==> IsSpace(s[k])
  }

  /** The mode is absent, disabled or namespaced, up to surrounding space. */
  predicate KnownMode(mode: string) {
    exists i, j :: 0 <= i <= j <= |mode| && Blank(mode[..i]) && Blank(mode[j..])
      && mode[i..j] in {"", "Disabled", "Namespaced"}
  }

  predicate Accepts(c: Config, h: AgentHello) {
    && h.installation == c.installation && !Blank(h.version) && |h.version| <= 64 && !Blank(h.clusterUid)
    && !Blank(h.kubernetesVersion)
    && RUNTIME in h.capabilities && (h.protocols == [] || PROTOCOL in h.protocols) && KnownMode(h.mode)
  }

  const Advertised := [RUNTIME, "runtime-observation.v1alpha1", "runtime-query.v1alpha1",
                       "certificate-renewal.v1alpha1", CAPABILITY_OBSERVATION, BINDING_OBSERVATION]

  // ---------- One step

  function Halt(s: Server, why: Stop): Server {
    s.(stopped := Some(why))
  }

  function Greet(c: Config, s: Server, h: AgentHello, w: World): Server {
    if !Accepts(c, h) then Halt(s, HelloRejected)
    else if !w.ids then Halt(s, IdsUnavailable)
    else if !w.activated then Halt(s.(activation := Some(Activation(h, w.session))), ActivationRejected)
    else
      var s := s.(activation := Some(Activation(h, w.session)), session := w.session,
                  capability := CAPABILITY_OBSERVATION in h.capabilities,
                  binding := c.hasBindings && BINDING_OBSERVATION in h.capabilities);
      if !w.sent then Halt(s, SendFailed)
      else
        s.(phase := AwaitHeartbeat,
           sent := s.sent + [Welcome(ServerHello(PROTOCOL, c.interval, Advertised, w.session, c.trustBundle))])
  }

  /** The first objection to the observations of a heartbeat */
  function Objection(s: Server, h: Heartbeat, w: World): Option<Stop> {
    if (h.runtime != [] || h.runtimeComplete) && !w.runtime then Some(RuntimeRejected)
    else if (h.capability != [] || h.capabilityComplete) && !s.capability then Some(CapabilityNotNegotiated)
    else if (h.capability != [] || h.capabilityComplete) && !w.capability then Some(CapabilityRejected)
    else if (h.bindings != [] || h.bindingsComplete) && !s.binding then Some(BindingNotNegotiated)
    else if (h.bindings != [] || h.bindingsComplete) && Receive(h.bindings).None? then Some(BindingMalformed)
    else if (h.bindings != [] || h.bindingsComplete) && !w.binding then Some(BindingRejected)
    else None
  }

  /** The calls made until the first objection; the call that is refused is the last. */
  function Calls(s: Server, h: Heartbeat, w: World): seq<Reconcile> {
    var why := Objection(s, h, w);
    var n := h.sequence;
    (if h.runtime != [] || h.runtimeComplete then [RuntimeCall(n, h.runtime, h.runtimeComplete)] else [])
    + (if (h.capability != [] || h.capabilityComplete) && why !in {Some(RuntimeRejected), Some(CapabilityNotNegotiated)}
       then [CapabilityCall(n, h.capability, h.capabilityComplete)] else [])
    + (if (h.bindings != [] || h.bindingsComplete) && why in {None, Some(BindingRejected)}
       then [BindingCall(n, Receive(h.bindings).value, h.bindingsComplete)] else [])
  }

  function Acknowledge(s: Server, sequence: nat, w: World): Server {
    if s.binding && w.targets.None? then Halt(s, TargetsUnavailable)
    else if !w.sent then Halt(s, SendFailed)
    else
      var targets: seq<Announceable> := if s.binding then w.targets.value else [];
      s.(phase := AwaitHeartbeat, announced := s.announced + [targets],
         sent := s.sent + [Ack(sequence, AllToWire(targets))])
  }

  function Hear(c: Config, s: Server, h: Heartbeat, w: World): Server {
    if h.session != s.session || h.sequence == 0 then Halt(s, SessionRejected)
    else
      var s := s.(touched := s.touched + [h.sequence]);
      if !w.touch then Halt(s, TouchRejected)
      else
        var why, s := Objection(s, h, w), s.(reconciled := s.reconciled + Calls(s, h, w));
        if why.Some? then Halt(s, why.value)
        else if !c.hasDispatcher || w.next.NextNone? then Acknowledge(s, h.sequence, w)
        else if w.next.NextFailed? then Halt(s, CommandUnavailable)
        else Dispatched(s, h.sequence, w.next.command, w)
  }

  function Dispatched(s: Server, sequence: nat, command: Command, w: World): Server {
    if !w.sent then
      Halt(s.(dispatch := s.dispatch + [Obtained(command), Abandoned(command.id)]), SendFailed)
    else
      s.(dispatch := s.dispatch + [Obtained(command)], phase := AwaitResult(command, sequence),
         sent := s.sent + [Perform(command)])
  }

  function Abandon(s: Server, why: Stop): Server
    requires s.phase.AwaitResult?
  {
    Halt(s.(dispatch := s.dispatch + [Abandoned(s.phase.command.id)]), why)
  }

  function Conclude(s: Server, r: Result, w: World): Server
    requires s.phase.AwaitResult?
  {
    if !Answers(r, s.phase.command) then Abandon(s, ResultMismatch)
    else
      var s := s.(dispatch := s.dispatch + [Handled(r)]);
      if !w.handled then Halt(s, ResultRejected) else Acknowledge(s, s.phase.sequence, w)
  }

  function Step(c: Config, s: Server, input: Input): Server {
    if s.stopped.Some? then s
    else match s.phase
      case AwaitHello =>
        if input.received.None? then Halt(s, StreamEnded)
        else if input.received.value.Hello? then Greet(c, s, input.received.value.hello, input.world)
        else Halt(s, HelloRejected)
      case AwaitHeartbeat =>
        if input.received.None? then Halt(s, StreamEnded)
        else if input.received.value.Beat? then Hear(c, s, input.received.value.beat, input.world)
        else Halt(s, HeartbeatExpected)
      case AwaitResult(_, _) =>
        if input.received.None? then Abandon(s, StreamEnded)
        else if input.received.value.Outcome? then Conclude(s, input.received.value.result, input.world)
        else Abandon(s, ResultMismatch)
  }

  /** The server after any number of receives, whatever the peer sends */
  function After(c: Config, inputs: seq<Input>): Server {
    if inputs == [] then Fresh else Step(c, After(c, inputs[..|inputs| - 1]), inputs[|inputs| - 1])
  }

  // ---------- Command resolution

  predicate Resolves(d: Dispatch, c: Command) {
    match d
    case Obtained(_) => false
    case Handled(r) => Answers(r, c)
    case Abandoned(id) => id == c.id
  }

  /** Commands are obtained one at a time, and each is resolved before the next. */
  predicate Alternates(ds: seq<Dispatch>) {
    forall i :: 0 <= i < |ds| ==>
      if i % 2 == 0 then ds[i].Obtained? else ds[i - 1].Obtained? && Resolves(ds[i], ds[i - 1].command)
  }

  /** Only a server that waits for a result has a command open, and it is the one it waits for. */
  predicate Resolved(s: Server) {
    && Alternates(s.dispatch)
    && (|s.dispatch| % 2 == 1 <==> s.stopped.None? && s.phase.AwaitResult?)
    && (|s.dispatch| % 2 == 1 ==> s.dispatch[|s.dispatch| - 1] == Obtained(s.phase.command))
  }

  lemma AlternatesMore(ds: seq<Dispatch>, d: Dispatch)
    requires Alternates(ds)
    requires if |ds| % 2 == 0 then d.Obtained? else ds[|ds| - 1].Obtained? && Resolves(d, ds[|ds| - 1].command)
    ensures Alternates(ds + [d])
  {
    var more := ds + [d];
    assert more[|ds|] == d && forall i :: 0 <= i < |ds| ==> more[i] == ds[i];
  }

  lemma HearKeepsResolved(c: Config, s: Server, h: Heartbeat, w: World)
    requires Resolved(s) && s.stopped.None? && s.phase.AwaitHeartbeat?
    ensures Resolved(Hear(c, s, h, w))
  {
    if w.next.Next? {
      var more := s.dispatch + [Obtained(w.next.command)];
      AlternatesMore(s.dispatch, Obtained(w.next.command));
      AlternatesMore(more, Abandoned(w.next.command.id));
      assert more + [Abandoned(w.next.command.id)]
          == s.dispatch + [Obtained(w.next.command), Abandoned(w.next.command.id)];
    }
  }

  lemma StepKeepsResolved(c: Config, s: Server, input: Input)
    requires Resolved(s)
    ensures Resolved(Step(c, s, input))
  {
    if s.stopped.None? && s.phase.AwaitHeartbeat? && input.received.Some? && input.received.value.Beat? {
      HearKeepsResolved(c, s, input.received.value.beat, input.world);
    } else if s.stopped.None? && s.phase.AwaitResult? {
      AlternatesMore(s.dispatch, Abandoned(s.phase.command.id));
      if input.received.Some? && input.received.value.Outcome?
        && Answers(input.received.value.result, s.phase.command) {
        AlternatesMore(s.dispatch, Handled(input.received.value.result));
      }
    }
  }

  /**
   Whatever the peer and the registries do, every obtained command is resolved once, by its own
   result or by giving it up.
   */
  lemma {:induction false} CommandsAreResolved(c: Config, inputs: seq<Input>)
    ensures Resolved(After(c, inputs))
  {
    if inputs != [] {
      CommandsAreResolved(c, inputs[..|inputs| - 1]);
      StepKeepsResolved(c, After(c, inputs[..|inputs| - 1]), inputs[|inputs| - 1]);
    }
  }

  // ---------- The loop

  /** One turn of the loop: the heartbeat and, if a command was sent, the receive that follows it */
  datatype Turn = Turn(heartbeat: Input, result: Input)

  /** The inputs the loop has read after the first `n` turns, when it reads on */
  function Reads(c: Config, hello: Input, turns: seq<Turn>): seq<Input> {
    if turns == [] then [hello]
    else
      var before := Reads(c, hello, turns[..|turns| - 1]);
      var turn := turns[|turns| - 1];
      if After(c, before).stopped.Some? then before
      else if After(c, before + [turn.heartbeat]).phase.AwaitResult? then before + [turn.heartbeat, turn.result]
      else before + [turn.heartbeat]
  }

  lemma AfterOne(c: Config, inputs: seq<Input>, input: Input)
    ensures After(c, inputs + [input]) == Step(c, After(c, inputs), input)
  {
    assert (inputs + [input])[..|inputs|] == inputs;
  }

  lemma AfterTwo(c: Config, inputs: seq<Input>, first: Input, second: Input)
    ensures After(c, inputs + [first, second]) == Step(c, Step(c, After(c, inputs), first), second)
  {
    AfterOne(c, inputs, first);
    AfterOne(c, inputs + [first], second);
    assert inputs + [first] + [second] == inputs + [first, second];
  }

  /** The server after a turn that it begins waiting for a heartbeat */
  function AfterTurn(c: Config, s: Server, turn: Turn): Server {
    var heard := Step(c, s, turn.heartbeat);
    if heard.phase.AwaitResult? then Step(c, heard, turn.result) else heard
  }

  lemma ReadsMore(c: Config, hello: Input, turns: seq<Turn>, n: nat)
    requires n < |turns|
    ensures var s := After(c, Reads(c, hello, turns[..n]));
            if s.stopped.Some? then Reads(c, hello, turns[..n + 1]) == Reads(c, hello, turns[..n])
            else After(c, Reads(c, hello, turns[..n + 1])) == AfterTurn(c, s, turns[n])
  {
    assert turns[..n + 1][..n] == turns[..n];
    AfterOne(c, Reads(c, hello, turns[..n]), turns[n].heartbeat);
    AfterTwo(c, Reads(c, hello, turns[..n]), turns[n].heartbeat, turns[n].result);
  }

  lemma {:induction false} StoppedReadsNothing(c: Config, hello: Input, turns: seq<Turn>, n: nat)
    requires n <= |turns| && After(c, Reads(c, hello, turns[..n])).stopped.Some?
    ensures Reads(c, hello, turns) == Reads(c, hello, turns[..n])
    decreases |turns| - n
  {
    if n == |turns| {
      assert turns[..n] == turns;
    } else {
      ReadsMore(c, hello, turns, n);
      StoppedReadsNothing(c, hello, turns, n + 1);
    }
  }

  method Observe(s: Server, h: Heartbeat, w: World) returns (objection: Option<Stop>, calls: seq<Reconcile>)
    ensures objection == Objection(s, h, w) && calls == Calls(s, h, w)
  {
    calls := [];
    if |h.runtime| > 0 || h.runtimeComplete {
      calls := calls + [RuntimeCall(h.sequence, h.runtime, h.runtimeComplete)];
      if !w.runtime {
        return Some(RuntimeRejected), calls;
      }
    }
    if |h.capability| > 0 || h.capabilityComplete {
      if !s.capability {
        return Some(CapabilityNotNegotiated), calls;
      }
      calls := calls + [CapabilityCall(h.sequence, h.capability, h.capabilityComplete)];
      if !w.capability {
        return Some(CapabilityRejected), calls;
      }
    }
    if |h.bindings| > 0 || h.bindingsComplete {
      if !s.binding {
        return Some(BindingNotNegotiated), calls;
      }
      var observations := ObservationsFromWire(h.bindings);
      if observations.None? {
        return Some(BindingMalformed), calls;
      }
      calls := calls + [BindingCall(h.sequence, observations.value, h.bindingsComplete)];
      if !w.binding {
        return Some(BindingRejected), calls;
      }
    }
    return None, calls;
  }

  /** One turn of the loop after a heartbeat was received */
  method Serve(c: Config, before: Server, h: Heartbeat, turn: Turn) returns (s: Server)
    requires before.stopped.None? && before.phase.AwaitHeartbeat? && turn.heartbeat.received == Some(Beat(h))
    ensures s == AfterTurn(c, before, turn)
    ensures s.stopped.Some? || s.phase.AwaitHeartbeat?
  {
    s := before;
    var w := turn.heartbeat.world;
    if h.session != s.session || h.sequence == 0 {
      return s.(stopped := Some(SessionRejected));
    }
    s := s.(touched := s.touched + [h.sequence]);
    if !w.touch {
      return s.(stopped := Some(TouchRejected));
    }
    var objection, calls := Observe(s, h, w);
    s := s.(reconciled := s.reconciled + calls);
    if objection.Some? {
      return s.(stopped := objection);
    }
    if c.hasDispatcher {
      if w.next.NextFailed? {
        return s.(stopped := Some(CommandUnavailable));
      }
      if w.next.Next? {
        var command := w.next.command;
        s := s.(dispatch := s.dispatch + [Obtained(command)]);
        if !w.sent {
          assert s.dispatch + [Abandoned(command.id)] == before.dispatch + [Obtained(command), Abandoned(command.id)];
          return s.(dispatch := s.dispatch + [Abandoned(command.id)], stopped := Some(SendFailed));
        }
        s := s.(phase := AwaitResult(command, h.sequence), sent := s.sent + [Perform(command)]);
        var received := turn.result.received;
        if received.None? {
          return s.(dispatch := s.dispatch + [Abandoned(command.id)], stopped := Some(StreamEnded));
        }
        if !received.value.Outcome? || !Answers(received.value.result, command) {
          return s.(dispatch := s.dispatch + [Abandoned(command.id)], stopped := Some(ResultMismatch));
        }
        s := s.(dispatch := s.dispatch + [Handled(received.value.result)]);
        w := turn.result.world;
        if !w.handled {
          return s.(stopped := Some(ResultRejected));
        }
      }
    }
    var targets: seq<Announceable> := [];
    if s.binding {
      if w.targets.None? {
        return s.(stopped := Some(TargetsUnavailable));
      }
      targets := w.targets.value;
    }
    if !w.sent {
      return s.(stopped := Some(SendFailed));
    }
    var wire := TargetsToWire(targets);
    s := s.(phase := AwaitHeartbeat, announced := s.announced + [targets], sent := s.sent + [Ack(h.sequence, wire)]);
  }

  /** The part before the loop */
  method Welcomed(c: Config, hello: Input) returns (s: Server)
    ensures s == Step(c, Fresh, hello)
  {
    s := Fresh;
    var w := hello.world;
    if hello.received.None? {
      return s.(stopped := Some(StreamEnded));
    }
    if !hello.received.value.Hello? || !Accepts(c, hello.received.value.hello) {
      return s.(stopped := Some(HelloRejected));
    }
    if !w.ids {
      return s.(stopped := Some(IdsUnavailable));
    }
    s := s.(activation := Some(Activation(hello.received.value.hello, w.session)));
    if !w.activated {
      return s.(stopped := Some(ActivationRejected));
    }
    var capabilities := hello.received.value.hello.capabilities;
    s := s.(session := w.session, capability := CAPABILITY_OBSERVATION in capabilities,
            binding := c.hasBindings && BINDING_OBSERVATION in capabilities);
    if !w.sent {
      return s.(stopped := Some(SendFailed));
    }
    s := s.(phase := AwaitHeartbeat,
            sent := s.sent + [Welcome(ServerHello(PROTOCOL, c.interval, Advertised, w.session, c.trustBundle))]);
  }

  /** The loop computes the step function's run over exactly the messages it reads. */
  method Connect(c: Config, hello: Input, turns: seq<Turn>) returns (s: Server)
    ensures s == After(c, Reads(c, hello, turns))
    ensures Resolved(s)
  {
    AfterOne(c, [], hello);
    assert [] + [hello] == [hello];
    CommandsAreResolved(c, Reads(c, hello, turns));
    s := Welcomed(c, hello);
    var n := 0;
    assert turns[..0] == [];
    while n < |turns| && s.stopped.None?
      invariant 0 <= n <= |turns|
      invariant s == After(c, Reads(c, hello, turns[..n]))
      invariant s.stopped.Some? || s.phase.AwaitHeartbeat?
    {
      var turn := turns[n];
      ReadsMore(c, hello, turns, n);
      if turn.heartbeat.received.None? {
        s := s.(stopped := Some(StreamEnded));
      } else if !turn.heartbeat.received.value.Beat? {
        s := s.(stopped := Some(HeartbeatExpected));
      } else {
        s := Serve(c, s, turn.heartbeat.received.value.beat, turn);
      }
      n := n + 1;
    }
    if s.stopped.Some? {
      StoppedReadsNothing(c, hello, turns, n);
    } else {
      assert turns[..n] == turns;
    }
  }
}
