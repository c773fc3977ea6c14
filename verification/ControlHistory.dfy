/**
 What passes over the control channel, end to end. Over every run of two fitting sides: the
 registries are told what the Agent said of itself and what its observers found, the dispatcher
 handles the results that the executor returned for its own commands, and the targets announced
 are the registry's.
 */
module ControlHistory {
  import opened Options
  import opened Bindings
  import opened ControlMessages
  import opened ControlChannel
  import S = ControlServer
  import A = ControlAgent

  // ---------- Results

  /** At step `j` the Agent had `command` before it, and the executor returned `r`, which was sent. */
  ghost predicate PerformedAt(c: Config, actions: seq<Action>, j: nat, command: Command, r: Result) {
    && j < |actions| && actions[j] == AgentReceives(Some(r), true)
    && Possible(c, actions[..j])
    && After(c, actions[..j]).toAgent != [] && After(c, actions[..j]).toAgent[0] == Perform(command)
  }

  ghost predicate Performed(c: Config, actions: seq<Action>, command: Command, r: Result) {
    exists j :: PerformedAt(c, actions, j, command, r)
  }

  /** The dispatcher gave out this command. */
  ghost predicate Requested(actions: seq<Action>, command: Command) {
    exists j :: 0 <= j < |actions| && actions[j].ServerReceives? && actions[j].world.next == S.Next(command)
  }

  /** The stream broke, or the command could not be sent. */
  ghost predicate BrokenOff(actions: seq<Action>, command: Command) {
    exists j :: 0 <= j < |actions| &&
      (actions[j].ServerLoses?
       || (actions[j].ServerReceives? && actions[j].world.next == S.Next(command) && !actions[j].world.sent))
  }

  /** Why the dispatcher was told of a command's end */
  ghost predicate Justified(c: Config, actions: seq<Action>, command: Command, d: S.Dispatch) {
    match d
    case Obtained(_) => false
    case Handled(r) => Performed(c, actions, command, r)
    case Abandoned(id) => id == command.id && BrokenOff(actions, command)
  }

  ghost predicate TracedAt(c: Config, actions: seq<Action>, ds: seq<S.Dispatch>, i: nat)
    requires i < |ds|
  {
    if i % 2 == 0 then ds[i].Obtained? && Requested(actions, ds[i].command)
    else ds[i - 1].Obtained? && Justified(c, actions, ds[i - 1].command, ds[i])
  }

  /** Commands alternate with their ends, and all of them have a reason. */
  ghost predicate DispatchTraced(c: Config, actions: seq<Action>, ds: seq<S.Dispatch>) {
    forall i :: 0 <= i < |ds| ==> TracedAt(c, actions, ds, i)
  }

  /** The result under way was returned for the command that the server waits for. */
  ghost predicate ResultTraced(c: Config, actions: seq<Action>, st: State) {
    st.server.phase.AwaitResult? && st.toServer != [] && st.toServer[0].Outcome? ==>
      Performed(c, actions, st.server.phase.command, st.toServer[0].result)
  }

  lemma PrefixOfPrefix<T>(s: seq<T>, n: nat, j: nat)
    requires j <= n <= |s|
    ensures s[..n][..j] == s[..j]
  {
  }

  lemma PerformedStays(c: Config, actions: seq<Action>, n: nat, command: Command, r: Result)
    requires n <= |actions| && Performed(c, actions[..n], command, r)
    ensures Performed(c, actions, command, r)
  {
    var j :| PerformedAt(c, actions[..n], j, command, r);
    PrefixOfPrefix(actions, n, j);
    assert PerformedAt(c, actions, j, command, r);
  }

  lemma RequestedStays(actions: seq<Action>, n: nat, command: Command)
    requires n <= |actions|
    ensures Requested(actions[..n], command) ==> Requested(actions, command)
    ensures BrokenOff(actions[..n], command) ==> BrokenOff(actions, command)
  {
    if BrokenOff(actions[..n], command) {
      var j :| 0 <= j < n &&
        (actions[..n][j].ServerLoses?
         || (actions[..n][j].ServerReceives? && actions[..n][j].world.next == S.Next(command)
             && !actions[..n][j].world.sent));
      assert actions[j] == actions[..n][j];
    }
  }

  lemma JustifiedStays(c: Config, actions: seq<Action>, n: nat, command: Command, d: S.Dispatch)
    requires n <= |actions| && Justified(c, actions[..n], command, d)
    ensures Justified(c, actions, command, d)
  {
    RequestedStays(actions, n, command);
    if d.Handled? {
      PerformedStays(c, actions, n, command, d.result);
    }
  }

  lemma TracedStays(c: Config, actions: seq<Action>, n: nat, ds: seq<S.Dispatch>)
    requires n <= |actions| && DispatchTraced(c, actions[..n], ds)
    ensures DispatchTraced(c, actions, ds)
  {
    forall i | 0 <= i < |ds| ensures TracedAt(c, actions, ds, i) {
      assert TracedAt(c, actions[..n], ds, i);
      if i % 2 == 0 {
        RequestedStays(actions, n, ds[i].command);
      } else {
        JustifiedStays(c, actions, n, ds[i - 1].command, ds[i]);
      }
    }
  }

  lemma TracedMore(c: Config, actions: seq<Action>, ds: seq<S.Dispatch>, d: S.Dispatch)
    requires DispatchTraced(c, actions, ds) && TracedAt(c, actions, ds + [d], |ds|)
    ensures DispatchTraced(c, actions, ds + [d])
  {
    var more := ds + [d];
    forall i | 0 <= i < |ds| ensures TracedAt(c, actions, more, i) {
      assert TracedAt(c, actions, ds, i) && more[i] == ds[i] && (i > 0 ==> more[i - 1] == ds[i - 1]);
    }
  }

  /** What one step of the channel tells the dispatcher */
  ghost predicate Tells(st: State, action: Action, next: State) {
    var d, e := st.server.dispatch, next.server.dispatch;
    || e == d
    || (&& action.ServerReceives? && st.server.phase.AwaitHeartbeat? && action.world.next.Next?
        && var command := action.world.next.command;
           if action.world.sent then e == d + [S.Obtained(command)]
           else e == d + [S.Obtained(command), S.Abandoned(command.id)])
    || (&& action.ServerReceives? && st.server.phase.AwaitResult? && st.toServer != [] && st.toServer[0].Outcome?
        && e == d + [S.Handled(st.toServer[0].result)])
    || (action.ServerLoses? && st.server.phase.AwaitResult? && e == d + [S.Abandoned(st.server.phase.command.id)])
  }

  lemma StepTells(c: Config, st: State, action: Action)
    requires Inv(c, st) && Enabled(st, action)
    ensures Tells(st, action, Next(c, st, action))
  {
  }

  /** A result comes under way only by the Agent's answer to the command that the server waits for. */
  lemma ResultComes(c: Config, st: State, action: Action)
    requires Inv(c, st) && Enabled(st, action)
    ensures var next := Next(c, st, action);
            next.server.phase.AwaitResult? && next.toServer != [] && next.toServer[0].Outcome? ==>
              && st.server.phase.AwaitResult? && next.server.phase == st.server.phase
              && (|| (st.toServer != [] && next.toServer[0] == st.toServer[0])
                  || (&& action == AgentReceives(Some(next.toServer[0].result), true)
                      && st.toAgent != [] && st.toAgent[0] == Perform(st.server.phase.command)))
  {
  }

  lemma ResultStaysTraced(c: Config, actions: seq<Action>)
    requires Suitable(c) && Possible(c, actions) && actions != []
    requires ResultTraced(c, actions[..|actions| - 1], After(c, actions[..|actions| - 1]))
    ensures ResultTraced(c, actions, After(c, actions))
  {
    var n := |actions| - 1;
    var st, next := After(c, actions[..n]), After(c, actions);
    RunsKeep(c, actions[..n]);
    ResultComes(c, st, actions[n]);
    if next.server.phase.AwaitResult? && next.toServer != [] && next.toServer[0].Outcome? {
      var command, r := next.server.phase.command, next.toServer[0].result;
      if actions[n] == AgentReceives(Some(r), true) && st.toAgent != [] && st.toAgent[0] == Perform(command) {
        assert PerformedAt(c, actions, n, command, r);
      } else {
        PerformedStays(c, actions, n, command, r);
      }
    }
  }

  /** The dispatcher's new calls are justified by the step and by what went before. */
  lemma TellingIsTraced(c: Config, actions: seq<Action>, st: State, next: State)
    requires actions != [] && Tells(st, actions[|actions| - 1], next)
    requires S.Resolved(st.server) && st.server.stopped.None?
    requires DispatchTraced(c, actions, st.server.dispatch) && ResultTraced(c, actions, st)
    ensures DispatchTraced(c, actions, next.server.dispatch)
  {
    var action, d, e := actions[|actions| - 1], st.server.dispatch, next.server.dispatch;
    if e == d {
    } else if action.ServerLoses? {
      TracedMore(c, actions, d, S.Abandoned(st.server.phase.command.id));
    } else if st.server.phase.AwaitResult? {
      TracedMore(c, actions, d, S.Handled(st.toServer[0].result));
    } else {
      var command := action.world.next.command;
      TracedMore(c, actions, d, S.Obtained(command));
      if !action.world.sent {
        TracedMore(c, actions, d + [S.Obtained(command)], S.Abandoned(command.id));
        assert d + [S.Obtained(command)] + [S.Abandoned(command.id)] == e;
      }
    }
  }

  lemma {:induction false} RunsResolve(c: Config, actions: seq<Action>)
    requires Possible(c, actions)
    ensures S.Resolved(After(c, actions).server)
  {
    if actions != [] {
      var n := |actions| - 1;
      RunsResolve(c, actions[..n]);
      var st := After(c, actions[..n]);
      match actions[n]
      case ServerReceives(w) => S.StepKeepsResolved(c.server, st.server, S.Input(Some(st.toServer[0]), w));
      case ServerLoses(w) => S.StepKeepsResolved(c.server, st.server, S.Input(None, w));
      case _ =>
    }
  }

  lemma {:induction false} RunsTrace(c: Config, actions: seq<Action>)
    requires Suitable(c) && Possible(c, actions)
    ensures DispatchTraced(c, actions, After(c, actions).server.dispatch) && ResultTraced(c, actions, After(c, actions))
  {
    if actions != [] {
      var n := |actions| - 1;
      var st := After(c, actions[..n]);
      RunsTrace(c, actions[..n]);
      ResultStaysTraced(c, actions);
      TracedStays(c, actions, n, st.server.dispatch);
      if st.server.phase.AwaitResult? && st.toServer != [] && st.toServer[0].Outcome? {
        PerformedStays(c, actions, n, st.server.phase.command, st.toServer[0].result);
      }
      RunsKeep(c, actions[..n]);
      RunsResolve(c, actions[..n]);
      StepTells(c, st, actions[n]);
      if Next(c, st, actions[n]).server.dispatch != st.server.dispatch {
        ServerIsUp(c, st, actions[n]);
        TellingIsTraced(c, actions, st, Next(c, st, actions[n]));
      }
    }
  }

  lemma ServerIsUp(c: Config, st: State, action: Action)
    requires Enabled(st, action) && Next(c, st, action).server.dispatch != st.server.dispatch
    ensures st.server.stopped.None?
  {
  }

  lemma TracedPair(c: Config, actions: seq<Action>, d: seq<S.Dispatch>, i: nat)
    requires DispatchTraced(c, actions, d) && S.Alternates(d) && i < |d| && !d[i].Obtained?
    ensures i > 0 && d[i - 1].Obtained? && Requested(actions, d[i - 1].command)
    ensures Justified(c, actions, d[i - 1].command, d[i]) && S.Resolves(d[i], d[i - 1].command)
  {
    assert TracedAt(c, actions, d, i);
    assert TracedAt(c, actions, d, i - 1);
  }

  /**
   Every result that the dispatcher handles is one that the executor returned, earlier in the run,
   for the command that the dispatcher gave out just before.
   */
  lemma HandledResultsWerePerformed(c: Config, actions: seq<Action>, i: nat)
    requires Suitable(c) && Possible(c, actions)
    requires i < |After(c, actions).server.dispatch| && After(c, actions).server.dispatch[i].Handled?
    ensures var d := After(c, actions).server.dispatch;
            && i > 0 && d[i - 1].Obtained? && Requested(actions, d[i - 1].command)
            && Performed(c, actions, d[i - 1].command, d[i].result) && Answers(d[i].result, d[i - 1].command)
  {
    RunsTrace(c, actions);
    RunsResolve(c, actions);
    TracedPair(c, actions, After(c, actions).server.dispatch, i);
  }

  /** A command is given up only because the stream broke or the command could not be sent. */
  lemma AbandonedCommandsWereBrokenOff(c: Config, actions: seq<Action>, i: nat)
    requires Suitable(c) && Possible(c, actions)
    requires i < |After(c, actions).server.dispatch| && After(c, actions).server.dispatch[i].Abandoned?
    ensures var d := After(c, actions).server.dispatch;
            && i > 0 && d[i - 1].Obtained? && Requested(actions, d[i - 1].command)
            && d[i].commandId == d[i - 1].command.id && BrokenOff(actions, d[i - 1].command)
  {
    RunsTrace(c, actions);
    RunsResolve(c, actions);
    TracedPair(c, actions, After(c, actions).server.dispatch, i);
  }

  /** A result that arrives is handled. */
  lemma ArrivingResultsAreHandled(c: Config, actions: seq<Action>, w: S.World)
    requires Suitable(c) && Possible(c, actions)
    requires Enabled(After(c, actions), ServerReceives(w)) && After(c, actions).server.phase.AwaitResult?
    ensures exists r :: Performed(c, actions, After(c, actions).server.phase.command, r)
                        && Next(c, After(c, actions), ServerReceives(w)).server.dispatch
                             == After(c, actions).server.dispatch + [S.Handled(r)]
  {
    RunsKeep(c, actions);
    RunsTrace(c, actions);
    var st := After(c, actions);
    assert st.toServer[0].Outcome?;
    var r := st.toServer[0].result;
    assert Performed(c, actions, st.server.phase.command, r);
    assert Next(c, st, ServerReceives(w)).server.dispatch == st.server.dispatch + [S.Handled(r)];
  }

  // ---------- Observations

  /** What the observers found at the last tick */
  function LastSample(actions: seq<Action>): Option<A.Sample> {
    if actions == [] then None
    else if actions[|actions| - 1].AgentTicks? then Some(actions[|actions| - 1].sample)
    else LastSample(actions[..|actions| - 1])
  }

  predicate HasRuntime(c: Config) { c.agent.hasObserver }

  predicate HasCapabilities(c: Config, s: A.Sample) {
    c.agent.hasCapabilities && CAPABILITY_OBSERVATION in c.agent.capabilities
      && (s.capability != [] || s.capabilityComplete)
  }

  predicate HasBindings(c: Config, known: bool, s: A.Sample) {
    Observes(c) && known && (s.bindings != [] || s.bindingsComplete)
  }

  /** The observers' findings pass all checks of the server and its registries. */
  predicate Welcomed(c: Config, known: bool, s: A.Sample, w: S.World) {
    && (HasRuntime(c) ==> w.runtime)
    && (HasCapabilities(c, s) ==> w.capability)
    && (HasBindings(c, known, s) ==> c.server.hasBindings && w.binding)
  }

  /**
   What the registries must be told of the `n`-th heartbeat: all that the observers found, each kind
   under its own name, up to the first that is refused. `known` says that the Agent knew its targets.
   */
  ghost predicate Told(c: Config, known: bool, s: A.Sample, n: nat, w: S.World, calls: seq<S.Reconcile>) {
    var runtime := if HasRuntime(c) && s.runtime.Some? then [S.RuntimeCall(n, s.runtime.value, true)] else [];
    var capability := if HasCapabilities(c, s) then [S.CapabilityCall(n, s.capability, s.capabilityComplete)] else [];
    if runtime != [] && !w.runtime then calls == runtime
    else if capability != [] && !w.capability then calls == runtime + capability
    else if HasBindings(c, known, s) && c.server.hasBindings then
      && |calls| > 0 && calls[..|calls| - 1] == runtime + capability
      && var last := calls[|calls| - 1];
         && last.BindingCall? && last.sequence == n && last.complete == s.bindingsComplete
         && Arrived(s.bindings, last.bindings)
    else calls == runtime + capability
  }

  /** The observations arrive in order, rounded down to the second and with one form of facts. */
  ghost predicate Arrived(sent: seq<Observation>, got: seq<Observation>) {
    |got| == |sent| && forall i :: 0 <= i < |sent| ==>
      && got[i].(sampledAt := 0, storage := None) == sent[i].(sampledAt := 0, storage := None)
      && got[i].storage == (if sent[i].publication.Some? then None else sent[i].storage)
      && got[i].sampledAt <= sent[i].sampledAt < got[i].sampledAt + NANOS && got[i].sampledAt % NANOS == 0
  }

  lemma ReportedArrives(os: seq<Observation>)
    requires |os| <= MAX_TARGETS
    ensures Receive(Report(os)).Some? && Arrived(os, Receive(Report(os)).value)
  {
    var got := Receive(Report(os)).value;
    forall i | 0 <= i < |os|
      ensures got[i] == ObservationFromWire(ObservationToWire(os[i]))
    {
    }
  }

  /** The heartbeat under way carries the last sample. */
  ghost predicate BeatTraced(c: Config, actions: seq<Action>, st: State) {
    st.toServer != [] && st.toServer[0].Beat? ==>
      && LastSample(actions).Some? && st.agent.welcome.Some?
      && var sample := LastSample(actions).value;
         && (c.agent.hasObserver ==> sample.runtime.Some?)
         && (st.agent.targets.Some? ==> |sample.bindings| <= MAX_TARGETS)
         && st.toServer[0].beat
            == A.BeatOf(c.agent, st.agent.welcome.value, st.agent.sequence, st.agent.targets, sample)
  }

  lemma BeatComes(c: Config, st: State, action: Action)
    requires Inv(c, st) && Enabled(st, action) && Fair(st, action)
    ensures var next := Next(c, st, action);
            next.toServer != [] && next.toServer[0].Beat? ==>
              || (&& st.toServer != [] && next.toServer[0] == st.toServer[0] && !action.AgentTicks?
                  && next.agent.welcome == st.agent.welcome && next.agent.sequence == st.agent.sequence
                  && next.agent.targets == st.agent.targets)
              || (&& action.AgentTicks? && (c.agent.hasObserver ==> action.sample.runtime.Some?)
                  && next.agent.welcome.Some? && (next.agent.targets.Some? ==> |action.sample.bindings| <= MAX_TARGETS)
                  && next.toServer[0].beat == A.BeatOf(c.agent, next.agent.welcome.value, next.agent.sequence,
                                                       next.agent.targets, action.sample))
  {
  }

  lemma {:induction false} RunsTraceBeats(c: Config, actions: seq<Action>)
    requires Suitable(c) && Possible(c, actions)
    ensures BeatTraced(c, actions, After(c, actions))
  {
    if actions != [] {
      var n := |actions| - 1;
      RunsTraceBeats(c, actions[..n]);
      RunsKeep(c, actions[..n]);
      BeatComes(c, After(c, actions[..n]), actions[n]);
    }
  }

  /** The heartbeat says of each kind what the sample found, and of a kind without findings nothing. */
  ghost predicate Says(c: Config, known: bool, s: A.Sample, h: Heartbeat) {
    && (h.runtime != [] || h.runtimeComplete <==> HasRuntime(c))
    && (HasRuntime(c) ==> s.runtime == Some(h.runtime) && h.runtimeComplete)
    && (h.capability != [] || h.capabilityComplete <==> HasCapabilities(c, s))
    && (HasCapabilities(c, s) ==> h.capability == s.capability && h.capabilityComplete == s.capabilityComplete)
    && (h.bindings != [] || h.bindingsComplete <==> HasBindings(c, known, s))
    && (HasBindings(c, known, s) ==>
          && h.bindingsComplete == s.bindingsComplete
          && Receive(h.bindings).Some? && Arrived(s.bindings, Receive(h.bindings).value))
  }

  lemma BeatSays(c: Config, st: State, s: A.Sample, n: nat)
    requires Linked(c, st) && !st.agent.phase.AwaitWelcome?
    requires (c.agent.hasObserver ==> s.runtime.Some?) && (st.agent.targets.Some? ==> |s.bindings| <= MAX_TARGETS)
    ensures Says(c, st.agent.targets.Some?, s,
                 A.BeatOf(c.agent, st.agent.welcome.value, n, st.agent.targets, s))
  {
    if st.agent.targets.Some? {
      ReportedArrives(s.bindings);
    }
  }

  /** The server's registries take both kinds that need negotiation exactly if the two sides offer them. */
  predicate Negotiated(c: Config, server: S.Server) {
    && server.capability == (CAPABILITY_OBSERVATION in c.agent.capabilities)
    && server.binding == (c.server.hasBindings && BINDING_OBSERVATION in c.agent.capabilities)
  }

  lemma SaidIsTold(c: Config, server: S.Server, known: bool, s: A.Sample, h: Heartbeat, w: S.World)
    requires Negotiated(c, server) && Says(c, known, s, h)
    ensures Told(c, known, s, h.sequence, w, S.Calls(server, h, w))
  {
    if HasRuntime(c) && !w.runtime {
      assert S.Calls(server, h, w) == [S.RuntimeCall(h.sequence, h.runtime, true)];
    } else if HasCapabilities(c, s) && !w.capability {
    } else if HasBindings(c, known, s) && c.server.hasBindings {
      var calls := S.Calls(server, h, w);
      assert calls[|calls| - 1] == S.BindingCall(h.sequence, Receive(h.bindings).value, h.bindingsComplete);
    }
  }

  lemma SaidIsWelcomed(c: Config, server: S.Server, known: bool, s: A.Sample, h: Heartbeat, w: S.World)
    requires Negotiated(c, server) && Says(c, known, s, h)
    ensures S.Objection(server, h, w).None? <==> Welcomed(c, known, s, w)
  {
  }

  /** The state in which the server takes up the next heartbeat */
  ghost predicate Hearing(c: Config, actions: seq<Action>, w: S.World) {
    && Suitable(c) && Possible(c, actions) && Enabled(After(c, actions), ServerReceives(w))
    && After(c, actions).server.phase.AwaitHeartbeat?
  }

  /** The heartbeat under way carries this sample, and is the only message. */
  ghost predicate Carries(c: Config, st: State, s: A.Sample) {
    && Linked(c, st) && st.server.phase.AwaitHeartbeat? && !st.agent.phase.AwaitWelcome? && st.server.stopped.None?
    && st.toAgent == [] && st.toServer != [] && st.toServer[0].Beat? && GoodBeat(c, st, st.toServer[0].beat)
    && (c.agent.hasObserver ==> s.runtime.Some?) && (st.agent.targets.Some? ==> |s.bindings| <= MAX_TARGETS)
    && st.toServer[0].beat == A.BeatOf(c.agent, st.agent.welcome.value, st.agent.sequence, st.agent.targets, s)
  }

  lemma HearingSample(c: Config, actions: seq<Action>, w: S.World)
    requires Hearing(c, actions, w)
    ensures LastSample(actions).Some? && Carries(c, After(c, actions), LastSample(actions).value)
    ensures var st := After(c, actions);
            Next(c, st, ServerReceives(w)) == Answered(st, S.Hear(c.server, st.server, st.toServer[0].beat, w))
  {
    RunsKeep(c, actions);
    RunsTraceBeats(c, actions);
  }

  /** From `st` to `next` the registries are told of the sample. */
  ghost predicate Reports(c: Config, st: State, next: State, s: A.Sample, w: S.World) {
    var before, after, n := st.server.reconciled, next.server.reconciled, |st.server.touched| + 1;
    if n % A.WORD == 0 || !w.touch then after == before
    else before <= after && Told(c, st.agent.targets.Some?, s, n % A.WORD, w, after[|before|..])
  }

  lemma HeardReports(c: Config, server: S.Server, h: Heartbeat, w: S.World)
    requires h.session == server.session && h.sequence != 0 && w.touch
    ensures var before, after := server.reconciled, S.Hear(c.server, server, h, w).reconciled;
            before <= after && after[|before|..] == S.Calls(server, h, w)
  {
    var s := server.(touched := server.touched + [h.sequence]);
    assert S.Calls(s, h, w) == S.Calls(server, h, w);
    assert S.Hear(c.server, server, h, w).reconciled == server.reconciled + S.Calls(server, h, w);
  }

  lemma CarriedReports(c: Config, st: State, s: A.Sample, w: S.World)
    requires Carries(c, st, s)
    ensures Reports(c, st, Answered(st, S.Hear(c.server, st.server, st.toServer[0].beat, w)), s, w)
  {
    var h := st.toServer[0].beat;
    if h.sequence != 0 && w.touch {
      HeardReports(c, st.server, h, w);
      BeatSays(c, st, s, h.sequence);
      SaidIsTold(c, st.server, st.agent.targets.Some?, s, h, w);
    }
  }

  /**
   The registries are told exactly what the Agent's observers found at the tick, once the
   heartbeat has been taken up; a heartbeat that is refused, or whose number wrapped, tells nothing.
   */
  lemma HeartbeatsAreReported(c: Config, actions: seq<Action>, w: S.World)
    requires Hearing(c, actions, w)
    ensures LastSample(actions).Some?
    ensures Reports(c, After(c, actions), Next(c, After(c, actions), ServerReceives(w)), LastSample(actions).value, w)
  {
    HearingSample(c, actions, w);
    CarriedReports(c, After(c, actions), LastSample(actions).value, w);
  }

  /** No other step tells the registries anything of the observations. */
  lemma OnlyHeartbeatsReport(c: Config, st: State, action: Action)
    requires Enabled(st, action) && !(action.ServerReceives? && st.server.phase.AwaitHeartbeat?)
    ensures Next(c, st, action).server.reconciled == st.server.reconciled
  {
  }

  // ---------- Commands and targets

  /** The targets of an acknowledgement: the registry's, if bindings were negotiated */
  function RegistrysTargets(c: Config, w: S.World): Option<seq<Target>> {
    if c.server.hasBindings && BINDING_OBSERVATION in c.agent.capabilities then w.targets else Some([])
  }

  /** What the dispatcher and the registry of targets give is what is under way to the Agent. */
  ghost predicate Served(c: Config, st: State, next: State, n: nat, w: S.World) {
    if c.server.hasDispatcher && w.next.Next? then
      && next.server.announced == st.server.announced
      && next.server.dispatch == st.server.dispatch + [S.Obtained(w.next.command)]
                                 + (if w.sent then [] else [S.Abandoned(w.next.command.id)])
      && next.toAgent == (if w.sent then [Perform(w.next.command)] else [])
    else if c.server.hasDispatcher && w.next.NextFailed? then
      next.server.stopped == Some(S.CommandUnavailable) && next.toAgent == []
        && next.server.announced == st.server.announced && next.server.dispatch == st.server.dispatch
    else next.server.dispatch == st.server.dispatch && AcknowledgedWith(c, st, next, n, w)
  }

  ghost predicate AcknowledgedWith(c: Config, st: State, next: State, n: nat, w: S.World) {
    var targets := RegistrysTargets(c, w);
    if targets.None? || !w.sent then next.server.announced == st.server.announced && next.toAgent == []
    else
      && next.server.announced == st.server.announced + [targets.value]
      && |next.toAgent| == 1 && next.toAgent[0].Ack? && next.toAgent[0].sequence == n
      && (Acceptable(targets.value) ==> Adopt(next.toAgent[0].targets) == Some(targets.value))
  }

  lemma AcknowledgementCarries(c: Config, st: State, s: S.Server, n: nat, w: S.World)
    requires s == st.server.(touched := s.touched, reconciled := s.reconciled, dispatch := s.dispatch)
    requires s.stopped.None? && Linked(c, st) && !s.phase.AwaitHello? && st.toAgent == []
    ensures AcknowledgedWith(c, st, Answered(st, S.Acknowledge(s, n, w)), n, w)
    ensures S.Acknowledge(s, n, w).dispatch == s.dispatch
  {
    if s.binding && w.targets.Some? {
      TargetsRoundTrip(w.targets.value);
    } else {
      TargetsRoundTrip([]);
    }
  }

  /** Past the objections the server has only noted the heartbeat. */
  lemma HearPasses(c: Config, server: S.Server, h: Heartbeat, w: S.World) returns (s: S.Server)
    requires h.session == server.session && h.sequence != 0 && w.touch && S.Objection(server, h, w).None?
    ensures s == server.(touched := s.touched, reconciled := s.reconciled)
    ensures S.Hear(c.server, server, h, w) ==
              if !c.server.hasDispatcher || w.next.NextNone? then S.Acknowledge(s, h.sequence, w)
              else if w.next.NextFailed? then S.Halt(s, S.CommandUnavailable)
              else S.Dispatched(s, h.sequence, w.next.command, w)
  {
    s := server.(touched := server.touched + [h.sequence]);
    assert S.Objection(s, h, w) == S.Objection(server, h, w);
    s := s.(reconciled := s.reconciled + S.Calls(s, h, w));
  }

  lemma HeardServes(c: Config, st: State, h: Heartbeat, w: S.World)
    requires Linked(c, st) && st.server.phase.AwaitHeartbeat? && st.server.stopped.None? && st.toAgent == []
    requires h.session == st.server.session && h.sequence != 0 && w.touch && S.Objection(st.server, h, w).None?
    ensures Served(c, st, Answered(st, S.Hear(c.server, st.server, h, w)), h.sequence, w)
  {
    var s := HearPasses(c, st.server, h, w);
    AcknowledgementCarries(c, st, s, h.sequence, w);
  }

  /** From `st` to `next` a heartbeat that is taken up and whose observations pass is served. */
  ghost predicate Serves(c: Config, st: State, next: State, s: A.Sample, w: S.World) {
    var n := (|st.server.touched| + 1) % A.WORD;
    n != 0 && w.touch && Welcomed(c, st.agent.targets.Some?, s, w) ==> Served(c, st, next, n, w)
  }

  lemma CarriedServes(c: Config, st: State, s: A.Sample, w: S.World)
    requires Carries(c, st, s)
    ensures Serves(c, st, Answered(st, S.Hear(c.server, st.server, st.toServer[0].beat, w)), s, w)
  {
    var h := st.toServer[0].beat;
    BeatSays(c, st, s, h.sequence);
    SaidIsWelcomed(c, st.server, st.agent.targets.Some?, s, h, w);
    if h.sequence != 0 && w.touch && Welcomed(c, st.agent.targets.Some?, s, w) {
      HeardServes(c, st, h, w);
    }
  }

  /**
   After a heartbeat whose observations pass, the dispatcher's command, if it has one, is under way
   to the Agent, and otherwise an acknowledgement from which the Agent adopts the registry's targets.
   */
  lemma HeartbeatsAreServed(c: Config, actions: seq<Action>, w: S.World)
    requires Hearing(c, actions, w)
    ensures LastSample(actions).Some?
    ensures Serves(c, After(c, actions), Next(c, After(c, actions), ServerReceives(w)), LastSample(actions).value, w)
  {
    HearingSample(c, actions, w);
    CarriedServes(c, After(c, actions), LastSample(actions).value, w);
  }

  /** A result that is handled is acknowledged like the heartbeat before it. */
  lemma ResultsAreAcknowledged(c: Config, actions: seq<Action>, w: S.World)
    requires Suitable(c) && Possible(c, actions) && w.handled
    requires Enabled(After(c, actions), ServerReceives(w)) && After(c, actions).server.phase.AwaitResult?
    ensures var st := After(c, actions);
            AcknowledgedWith(c, st, Next(c, st, ServerReceives(w)), |st.server.touched|, w)
  {
    RunsKeep(c, actions);
    var st := After(c, actions);
    var s := st.server.(dispatch := st.server.dispatch + [S.Handled(st.toServer[0].result)]);
    AcknowledgementCarries(c, st, s, |s.touched|, w);
    assert Next(c, st, ServerReceives(w)) == Answered(st, S.Acknowledge(s, |s.touched|, w));
  }

  /** No other step announces targets. */
  lemma OnlyAcknowledgementsAnnounce(c: Config, st: State, action: Action)
    requires Enabled(st, action) && !action.ServerReceives?
    ensures Next(c, st, action).server.announced == st.server.announced
  {
  }

  // ---------- The handshake

  /** The registry gave out this session. */
  ghost predicate Opened(actions: seq<Action>, session: string) {
    exists j :: 0 <= j < |actions| && actions[j].ServerReceives? && actions[j].world.session == session
  }

  /** The registry is told what the Agent says of itself, and both sides go on under the registry's session. */
  ghost predicate Introduced(c: Config, actions: seq<Action>, st: State) {
    && (st.server.activation.Some? ==>
          && st.server.activation.value.hello
             == AgentHello(c.agent.installation, c.agent.version, c.agent.clusterUid, c.agent.kubernetesVersion,
                           c.agent.capabilities, ["v1alpha1"], c.agent.trustBundle, c.agent.mode)
          && Opened(actions, st.server.activation.value.session))
    && (!st.server.phase.AwaitHello? ==>
          st.server.activation.Some? && st.server.session == st.server.activation.value.session)
    && (st.agent.welcome.Some? ==>
          && st.server.activation.Some? && st.agent.welcome.value.session == st.server.activation.value.session
          && st.agent.welcome.value.interval == c.server.interval
          && st.agent.welcome.value.trustBundle == c.agent.trustBundle)
  }

  lemma OpenedStays(actions: seq<Action>, n: nat, session: string)
    requires n <= |actions| && Opened(actions[..n], session)
    ensures Opened(actions, session)
  {
    var j :| 0 <= j < n && actions[..n][j].ServerReceives? && actions[..n][j].world.session == session;
    assert actions[j] == actions[..n][j];
  }

  /** What a step may change of the registration and the session */
  ghost predicate Registers(c: Config, st: State, action: Action, next: State) {
    || SameRegistration(st.server, next.server)
    || (&& action.ServerReceives? && st.server.phase.AwaitHello?
        && next.server.activation == Some(S.Activation(A.HelloOf(c.agent), action.world.session))
        && (!next.server.phase.AwaitHello? ==> next.server.session == action.world.session))
  }

  lemma HelloRegisters(c: Config, st: State, w: S.World)
    requires Inv(c, st) && Enabled(st, ServerReceives(w)) && st.server.phase.AwaitHello?
    ensures Registers(c, st, ServerReceives(w), Next(c, st, ServerReceives(w)))
  {
  }

  ghost predicate SameRegistration(server: S.Server, next: S.Server) {
    next.activation == server.activation && next.session == server.session
      && next.phase.AwaitHello? == server.phase.AwaitHello?
  }

  lemma HearingKeepsRegistration(c: Config, server: S.Server, h: Heartbeat, w: S.World)
    requires !server.phase.AwaitHello?
    ensures SameRegistration(server, S.Hear(c.server, server, h, w))
  {
  }

  lemma RegistrationStays(c: Config, server: S.Server, input: S.Input)
    requires server.stopped.None? && !(server.phase.AwaitHello? && input.received.Some?)
    ensures SameRegistration(server, S.Step(c.server, server, input))
  {
    if server.phase.AwaitHeartbeat? && input.received.Some? && input.received.value.Beat? {
      HearingKeepsRegistration(c, server, input.received.value.beat, input.world);
    }
  }

  lemma OthersRegister(c: Config, st: State, action: Action)
    requires Enabled(st, action) && !(action.ServerReceives? && st.server.phase.AwaitHello?)
    ensures Registers(c, st, action, Next(c, st, action))
  {
    match action
    case ServerReceives(w) => RegistrationStays(c, st.server, S.Input(Some(st.toServer[0]), w));
    case ServerLoses(w) => RegistrationStays(c, st.server, S.Input(None, w));
    case _ =>
  }

  lemma {:induction false} TheAgentIsIntroduced(c: Config, actions: seq<Action>)
    requires Suitable(c) && Possible(c, actions)
    ensures Introduced(c, actions, After(c, actions))
  {
    RunsKeep(c, actions);
    if actions != [] {
      var n := |actions| - 1;
      var st, next := After(c, actions[..n]), After(c, actions);
      TheAgentIsIntroduced(c, actions[..n]);
      RunsKeep(c, actions[..n]);
      if actions[n].ServerReceives? && st.server.phase.AwaitHello? {
        HelloRegisters(c, st, actions[n].world);
      } else {
        OthersRegister(c, st, actions[n]);
      }
      if next.server.activation == st.server.activation && st.server.activation.Some? {
        OpenedStays(actions, n, st.server.activation.value.session);
      }
    }
  }
}
