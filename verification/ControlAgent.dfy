/**
 The Agent's side of the control channel. `Step` is what the Agent does between two waits;
 `RunControlChannel` is the loop itself.
 */
module ControlAgent {
  import opened Options
  import opened Bindings
  import opened ControlMessages

  const WORD := 0x1_0000_0000_0000_0000

  datatype Config = Config(installation: string, trustBundle: string, version: string, clusterUid: string,
                           kubernetesVersion: string, capabilities: seq<string>, mode: string,
                           hasExecutor: bool, hasObserver: bool, hasCapabilities: bool, hasBindings: bool)

  datatype Stop =
    | Cancelled | ObservationFailed | SendFailed | ReceiveFailed | TrustBundleUpdateRequired
    // the peer or the executor breaks the protocol
    | HelloIncompatible | NoExecutor | InvalidResult | InvalidAck | InvalidTargets

  /** AwaitAck remembers whether this turn's command was already answered. */
  datatype Phase = AwaitWelcome | Ticking | AwaitAck(answered: bool)

  /** `targets` is None until the first acknowledgement; `sent` are the messages sent. */
  datatype AgentSide = AgentSide(phase: Phase, welcome: Option<ServerHello>, sequence: nat,
                                 targets: Option<seq<Target>>, stopped: Option<Stop>, sent: seq<Up>)

  /** What a tick finds: observations (None when collecting fails), snapshots, and whether the send succeeds */
  datatype Sample = Sample(runtime: Option<seq<string>>, capability: seq<string>, capabilityComplete: bool,
                           bindings: seq<Observation>, bindingsComplete: bool, sent: bool)

  /** `received` is None when the receive fails or times out, `result` None when the executor returns nothing. */
  datatype Input = Tick(sample: Sample) | Cancel | Receive(received: Option<Down>, result: Option<Result>, sent: bool)

  function HelloOf(c: Config): AgentHello {
    AgentHello(c.installation, c.version, c.clusterUid, c.kubernetesVersion, c.capabilities, [PROTOCOL], c.trustBundle,
               c.mode)
  }

  function Begin(c: Config): AgentSide {
    AgentSide(AwaitWelcome, None, 0, None, None, [Hello(HelloOf(c))])
  }

  predicate Compatible(w: ServerHello) {
    w.protocol == PROTOCOL && w.session != "" && 1 <= w.interval <= 300
      && (w.capabilities == [] || RUNTIME in w.capabilities)
  }

  predicate ObservesCapabilities(c: Config, w: ServerHello) {
    c.hasCapabilities && CAPABILITY_OBSERVATION in c.capabilities && CAPABILITY_OBSERVATION in w.capabilities
  }

  predicate ObservesBindings(c: Config, w: ServerHello) {
    c.hasBindings && BINDING_OBSERVATION in c.capabilities && BINDING_OBSERVATION in w.capabilities
  }

  function Halt(a: AgentSide, why: Stop): AgentSide {
    a.(stopped := Some(why))
  }

  function Greeted(c: Config, a: AgentSide, w: ServerHello): AgentSide {
    if !Compatible(w) then Halt(a, HelloIncompatible)
    else if w.trustBundle == "" || w.trustBundle != c.trustBundle then Halt(a, TrustBundleUpdateRequired)
    else a.(phase := Ticking, welcome := Some(w))
  }

  function BeatOf(c: Config, w: ServerHello, sequence: nat, targets: Option<seq<Target>>, s: Sample): Heartbeat
    requires c.hasObserver ==> s.runtime.Some?
  {
    Heartbeat(sequence, w.session,
              if c.hasObserver then s.runtime.value else [], c.hasObserver,
              if ObservesCapabilities(c, w) then s.capability else [],
              ObservesCapabilities(c, w) && s.capabilityComplete,
              if ObservesBindings(c, w) && targets.Some? then Report(s.bindings) else [],
              ObservesBindings(c, w) && targets.Some? && s.bindingsComplete)
  }

  function Ticked(c: Config, a: AgentSide, s: Sample): AgentSide
    requires a.welcome.Some?
  {
    var a := a.(sequence := (a.sequence + 1) % WORD);
    if c.hasObserver && s.runtime.None? then Halt(a, ObservationFailed)
    else if !s.sent then Halt(a, SendFailed)
    else a.(phase := AwaitAck(false), sent := a.sent + [Beat(BeatOf(c, a.welcome.value, a.sequence, a.targets, s))])
  }

  function Answer(c: Config, a: AgentSide, command: Command, result: Option<Result>, sent: bool): AgentSide {
    if !c.hasExecutor then Halt(a, NoExecutor)
    else if result.None? || !Answers(result.value, command) then Halt(a, InvalidResult)
    else if !sent then Halt(a, SendFailed)
    else a.(phase := AwaitAck(true), sent := a.sent + [Outcome(result.value)])
  }

  function Acknowledged(c: Config, a: AgentSide, d: Down): AgentSide
    requires a.welcome.Some?
  {
    if !d.Ack? || d.sequence != a.sequence then Halt(a, InvalidAck)
    else if !ObservesBindings(c, a.welcome.value) then a.(phase := Ticking)
    else if Adopt(d.targets).None? then Halt(a, InvalidTargets)
    else a.(phase := Ticking, targets := Adopt(d.targets))
  }

  /** An input the Agent is not waiting for leaves it as it is. */
  function Step(c: Config, a: AgentSide, input: Input): AgentSide {
    if a.stopped.Some? then a
    else match a.phase
      case AwaitWelcome =>
        if !input.Receive? then a
        else if input.received.None? then Halt(a, ReceiveFailed)
        else if input.received.value.Welcome? then Greeted(c, a, input.received.value.welcome)
        else Halt(a, HelloIncompatible)
      case Ticking =>
        if input.Cancel? then Halt(a, Cancelled)
        else if input.Tick? && a.welcome.Some? then Ticked(c, a, input.sample)
        else a
      case AwaitAck(answered) =>
        if !input.Receive? || a.welcome.None? then a
        else if input.received.None? then Halt(a, ReceiveFailed)
        else if !answered && input.received.value.Perform?
          then Answer(c, a, input.received.value.command, input.result, input.sent)
        else Acknowledged(c, a, input.received.value)
  }

  // ---------- The loop

  /** One turn: a tick or the end of the context, the reply, and the reply that follows an answered command */
  datatype Turn = Turn(cancelled: bool, sample: Sample, first: Option<Down>, result: Option<Result>, resultSent: bool,
                       second: Option<Down>)

  function AfterTurn(c: Config, a: AgentSide, t: Turn): AgentSide {
    var ticked := Step(c, a, if t.cancelled then Cancel else Tick(t.sample));
    var replied := Step(c, ticked, Receive(t.first, t.result, t.resultSent));
    if replied.phase == AwaitAck(true) then Step(c, replied, Receive(t.second, None, false)) else replied
  }

  function After(c: Config, first: Option<Down>, turns: seq<Turn>): AgentSide {
    if turns == [] then Step(c, Begin(c), Receive(first, None, false))
    else AfterTurn(c, After(c, first, turns[..|turns| - 1]), turns[|turns| - 1])
  }

  lemma AfterMore(c: Config, first: Option<Down>, turns: seq<Turn>, n: nat)
    requires n < |turns|
    ensures After(c, first, turns[..n + 1]) == AfterTurn(c, After(c, first, turns[..n]), turns[n])
  {
    assert turns[..n + 1][..n] == turns[..n];
  }

  lemma {:induction false} StoppedStays(c: Config, first: Option<Down>, turns: seq<Turn>, n: nat)
    requires n <= |turns| && After(c, first, turns[..n]).stopped.Some?
    ensures After(c, first, turns) == After(c, first, turns[..n])
    decreases |turns| - n
  {
    if n == |turns| {
      assert turns[..n] == turns;
    } else {
      AfterMore(c, first, turns, n);
      StoppedStays(c, first, turns, n + 1);
    }
  }

  /** In some turn the executor returned this result for the command of that turn, and it was sent. */
  ghost predicate Executed(turns: seq<Turn>, r: Result) {
    exists k :: 0 <= k < |turns| && ExecutedIn(turns[k], r)
  }

  predicate ExecutedIn(t: Turn, r: Result) {
    && t.result == Some(r) && t.resultSent && t.first.Some? && t.first.value.Perform?
    && Answers(r, t.first.value.command)
  }

  /** Every result that was sent is the executor's own. */
  ghost predicate SendsExecuted(turns: seq<Turn>, sent: seq<Up>) {
    forall i :: 0 <= i < |sent| && sent[i].Outcome? ==> Executed(turns, sent[i].result)
  }

  /** A step sends at most one message, and a result only in answer to a command. */
  ghost predicate Sends(before: seq<Up>, input: Input, after: seq<Up>) {
    || after == before
    || (&& |after| == |before| + 1 && before <= after
        && (after[|before|].Outcome? ==>
              && input.Receive? && input.sent && input.result == Some(after[|before|].result)
              && input.received.Some? && input.received.value.Perform?
              && Answers(after[|before|].result, input.received.value.command)))
  }

  lemma StepSends(c: Config, a: AgentSide, input: Input)
    ensures Sends(a.sent, input, Step(c, a, input).sent)
  {
  }

  lemma TurnSends(c: Config, a: AgentSide, t: Turn)
    ensures var sent := AfterTurn(c, a, t).sent;
            && a.sent <= sent
            && forall i :: |a.sent| <= i < |sent| && sent[i].Outcome? ==> ExecutedIn(t, sent[i].result)
  {
    var tick := if t.cancelled then Cancel else Tick(t.sample);
    var ticked := Step(c, a, tick);
    var replied := Step(c, ticked, Receive(t.first, t.result, t.resultSent));
    var last := Step(c, replied, Receive(t.second, None, false));
    StepSends(c, a, tick);
    StepSends(c, ticked, Receive(t.first, t.result, t.resultSent));
    StepSends(c, replied, Receive(t.second, None, false));
    SendsThrice(a.sent, tick, ticked.sent, t, replied.sent, last.sent);
  }

  lemma SendsThrice(a: seq<Up>, tick: Input, b: seq<Up>, t: Turn, d: seq<Up>, e: seq<Up>)
    requires !tick.Receive? && Sends(a, tick, b) && Sends(b, Receive(t.first, t.result, t.resultSent), d)
    requires Sends(d, Receive(t.second, None, false), e)
    ensures a <= d <= e
    ensures forall i :: |a| <= i < |d| && d[i].Outcome? ==> ExecutedIn(t, d[i].result)
    ensures forall i :: |a| <= i < |e| && e[i].Outcome? ==> ExecutedIn(t, e[i].result)
  {
  }

  lemma ExecutedStays(turns: seq<Turn>, n: nat, r: Result)
    requires n <= |turns| && Executed(turns[..n], r)
    ensures Executed(turns, r)
  {
    var k :| 0 <= k < n && ExecutedIn(turns[..n][k], r);
    assert turns[k] == turns[..n][k];
  }

  lemma {:induction false} ResultsAreTheExecutors(c: Config, first: Option<Down>, turns: seq<Turn>)
    ensures SendsExecuted(turns, After(c, first, turns).sent)
  {
    if turns != [] {
      var n := |turns| - 1;
      var a := After(c, first, turns[..n]);
      var sent := AfterTurn(c, a, turns[n]).sent;
      ResultsAreTheExecutors(c, first, turns[..n]);
      TurnSends(c, a, turns[n]);
      forall i | 0 <= i < |sent| && sent[i].Outcome? ensures Executed(turns, sent[i].result) {
        if i < |a.sent| {
          assert sent[i] == a.sent[i];
          ExecutedStays(turns, n, sent[i].result);
        }
      }
    }
  }

  method CollectHeartbeat(c: Config, w: ServerHello, sequence: nat, targets: seq<Target>, initialized: bool, s: Sample)
    returns (beat: Option<Heartbeat>)
    ensures beat.None? <==> c.hasObserver && s.runtime.None?
    ensures beat.Some? ==> beat.value == BeatOf(c, w, sequence, if initialized then Some(targets) else None, s)
  {
    var h := Heartbeat(sequence, w.session, [], false, [], false, [], false);
    if c.hasObserver {
      if s.runtime.None? {
        return None;
      }
      h := h.(runtime := s.runtime.value, runtimeComplete := true);
    }
    if c.hasCapabilities && CAPABILITY_OBSERVATION in c.capabilities && CAPABILITY_OBSERVATION in w.capabilities {
      h := h.(capability := s.capability, capabilityComplete := s.capabilityComplete);
    }
    if c.hasBindings && initialized && BINDING_OBSERVATION in c.capabilities && BINDING_OBSERVATION in w.capabilities {
      h := h.(bindings := Report(s.bindings), bindingsComplete := s.bindingsComplete);
    }
    return Some(h);
  }

  /** One turn of the loop; the targets and the flag that they are known are two variables, as in the loop. */
  method Turned(c: Config, a: AgentSide, t: Turn) returns (r: AgentSide)
    requires a.stopped.None? && a.phase.Ticking? && a.welcome.Some?
    ensures r == AfterTurn(c, a, t)
    ensures r.stopped.Some? || (r.phase.Ticking? && r.welcome.Some?)
  {
    r := a;
    if t.cancelled {
      return r.(stopped := Some(Cancelled));
    }
    var w := a.welcome.value;
    var initialized, targets := a.targets.Some?, if a.targets.Some? then a.targets.value else [];
    r := r.(sequence := (r.sequence + 1) % WORD);
    var beat := CollectHeartbeat(c, w, r.sequence, targets, initialized, t.sample);
    if beat.None? {
      return r.(stopped := Some(ObservationFailed));
    }
    if !t.sample.sent {
      return r.(stopped := Some(SendFailed));
    }
    r := r.(phase := AwaitAck(false), sent := r.sent + [Beat(beat.value)]);
    var reply := t.first;
    if reply.None? {
      return r.(stopped := Some(ReceiveFailed));
    }
    if reply.value.Perform? {
      if !c.hasExecutor {
        return r.(stopped := Some(NoExecutor));
      }
      if t.result.None? || !Answers(t.result.value, reply.value.command) {
        return r.(stopped := Some(InvalidResult));
      }
      if !t.resultSent {
        return r.(stopped := Some(SendFailed));
      }
      r := r.(phase := AwaitAck(true), sent := r.sent + [Outcome(t.result.value)]);
      reply := t.second;
      if reply.None? {
        return r.(stopped := Some(ReceiveFailed));
      }
    }
    if !reply.value.Ack? || reply.value.sequence != r.sequence {
      return r.(stopped := Some(InvalidAck));
    }
    if c.hasBindings && BINDING_OBSERVATION in c.capabilities && BINDING_OBSERVATION in w.capabilities {
      var adopted := TargetsFromWire(reply.value.targets);
      if adopted.None? {
        return r.(stopped := Some(InvalidTargets));
      }
      targets, initialized := adopted.value, true;
    }
    r := r.(phase := Ticking, targets := if initialized then Some(targets) else None);
  }

  /** The part before the loop */
  method Greeting(c: Config, first: Option<Down>) returns (a: AgentSide)
    ensures a == Step(c, Begin(c), Receive(first, None, false))
    ensures a.stopped.Some? || (a.phase.Ticking? && a.welcome.Some?)
  {
    a := Begin(c);
    if first.None? {
      return a.(stopped := Some(ReceiveFailed));
    }
    if !first.value.Welcome? || !Compatible(first.value.welcome) {
      return a.(stopped := Some(HelloIncompatible));
    }
    if first.value.welcome.trustBundle == "" || first.value.welcome.trustBundle != c.trustBundle {
      return a.(stopped := Some(TrustBundleUpdateRequired));
    }
    a := a.(phase := Ticking, welcome := Some(first.value.welcome));
  }

  /** The loop computes the step function's run over the turns it takes. */
  method RunControlChannel(c: Config, first: Option<Down>, turns: seq<Turn>) returns (a: AgentSide)
    ensures a == After(c, first, turns)
    ensures SendsExecuted(turns, a.sent)
  {
    ResultsAreTheExecutors(c, first, turns);
    a := Greeting(c, first);
    assert turns[..0] == [];
    var n := 0;
    while n < |turns| && a.stopped.None?
      invariant 0 <= n <= |turns|
      invariant a == After(c, first, turns[..n])
      invariant a.stopped.Some? || (a.phase.Ticking? && a.welcome.Some?)
    {
      AfterMore(c, first, turns, n);
      a := Turned(c, a, turns[n]);
      n := n + 1;
    }
    if a.stopped.Some? {
      StoppedStays(c, first, turns, n);
    } else {
      assert turns[..n] == turns;
    }
  }
}
