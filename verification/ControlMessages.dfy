/** The messages of the control channel, and the handshake both sides check. */
module ControlMessages {
  import opened Options
  import opened Bindings
  import Executor

  const PROTOCOL := "v1alpha1"
  const RUNTIME := "runtime.v1alpha1"
  const CAPABILITY_OBSERVATION := "capability-observation.v1alpha1"
  const BINDING_OBSERVATION := "binding-observation.v1alpha1"

  datatype AgentHello = AgentHello(installation: string, version: string, clusterUid: string, kubernetesVersion: string,
                                   capabilities: seq<string>, protocols: seq<string>, trustBundle: string, mode: string)
  datatype ServerHello = ServerHello(protocol: string, interval: int, capabilities: seq<string>, session: string,
                                     trustBundle: string)

  type Command = Executor.Command
  datatype Result = Result(commandId: string, fencingToken: int, errorCode: string)

  /** Runtime and capability observations are opaque here. */
  datatype Heartbeat = Heartbeat(sequence: nat, session: string, runtime: seq<string>, runtimeComplete: bool,
                                 capability: seq<string>, capabilityComplete: bool,
                                 bindings: seq<WireObservation>, bindingsComplete: bool)

  datatype Up = Hello(hello: AgentHello) | Beat(beat: Heartbeat) | Outcome(result: Result)
  datatype Down =
    | Welcome(welcome: ServerHello)
    | Perform(command: Command)
    | Ack(sequence: nat, targets: seq<WireTarget>)

  /** The result answers the command: same identifier, same fencing token. */
  predicate Answers(r: Result, c: Command) {
    r.commandId == c.id && r.fencingToken == c.fencingToken
  }
}
