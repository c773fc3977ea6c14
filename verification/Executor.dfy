/**
 The Agent's executor: it applies one command of the control plane and fills in the result,
 step by step around the calls of the runtime client.
 */
module Executor {
  import opened Options

  const READY := "Ready"
  const DEGRADED := "Degraded"
  const RETAINED := "Retained"
  const PROVISIONING := "Provisioning"
  const SCHEMA := "runtime.v1alpha1"

  datatype Kind =
    | EnsurePlacement | EnsureVolume | ExpandVolume | DeleteVolume | DeleteAppEnvironment | ApplyDeployment
    | UnsupportedKind

  datatype Volume = Volume(publicId: string, sizeGiB: int)
  datatype Intent = Intent(image: string, stateful: bool, volume: Option<Volume>)

  /** The decoded payload; which parts are present depends on the sender. */
  datatype Payload = Payload(deployment: Option<Intent>, volumeSize: Option<int>, placement: bool)

  /** `payload` is None when it cannot be decoded. */
  datatype Command = Command(id: string, operation: string, fencingToken: int, desiredVersion: int, schema: string,
                             deadlineUnix: int, kind: Kind, payload: Option<Payload>)

  datatype Fault = DeadlineExceeded | OwnershipConflict | OtherFault
  datatype Reply<+T> = Value(value: T) | Error(fault: Fault)

  datatype VolumeObservation = VolumeObservation(present: bool, state: string, message: string, sizeGiB: int)
  datatype Observation = Observation(present: bool, state: string, message: string, release: string)

  /** What the runtime client answers to the calls of this command */
  datatype Client = Client(placementReady: Reply<bool>, applyVolume: Reply<()>, volume: Reply<VolumeObservation>,
                           apply: Reply<()>, delete: Reply<()>, deployment: Reply<Observation>, collect: Reply<()>)

  class RuntimeResult {
    const commandId: string
    const fencingToken: int
    var state: string
    var errorCode: string
    var message: string
    var retryable: bool
    var release: string
    var volumeState: string
    var observedSizeGiB: int

    constructor (commandId: string, fencingToken: int)
      ensures this.commandId == commandId && this.fencingToken == fencingToken && state == "" && errorCode == ""
      ensures !retryable
    {
      this.commandId, this.fencingToken := commandId, fencingToken;
      state, errorCode, message, retryable, release, volumeState, observedSizeGiB := "", "", "", false, "", "", 0;
    }

    method Fail(code: string, message: string, retryable: bool)
      requires code != ""
      modifies this
      ensures state == DEGRADED && errorCode == code && this.retryable == retryable
    {
      state, errorCode, this.message, this.retryable := DEGRADED, code, message, retryable;
    }
  }

  // ---------- When a command has been achieved

  predicate Achieved(kind: Kind, payload: Payload, client: Client) {
    match kind
    case EnsurePlacement => payload.placement && client.placementReady == Value(true)
    case EnsureVolume => payload.volumeSize.Some? && client.applyVolume.Value? && client.volume.Value?
                         && client.volume.value.present
                         && (client.volume.value.state == PROVISIONING
                               || Holds(client.volume.value, payload.volumeSize.value))
    case ExpandVolume => payload.volumeSize.Some? && client.applyVolume.Value? && client.volume.Value?
                         && Holds(client.volume.value, payload.volumeSize.value)
    case DeleteVolume => payload.volumeSize.Some? && client.applyVolume.Value? && client.volume.Value?
                         && client.volume.value.present && client.volume.value.state == RETAINED
    case DeleteAppEnvironment =>
      client.delete.Value? && client.deployment.Value? && !client.deployment.value.present && client.collect.Value?
    case ApplyDeployment =>
      && payload.deployment.Some? && client.apply.Value? && client.deployment.Value?
      && client.deployment.value.present && client.deployment.value.state == READY
      && client.deployment.value.release == payload.deployment.value.image
      && (payload.deployment.value.stateful && payload.deployment.value.volume.Some? ==>
            client.volume.Value? && Holds(client.volume.value, payload.deployment.value.volume.value.sizeGiB))
      && client.collect.Value?
    case UnsupportedKind => false
  }

  /** The volume is ready and at least as large as wanted. */
  predicate Holds(v: VolumeObservation, sizeGiB: int) {
    v.present && v.state == READY && v.sizeGiB >= sizeGiB
  }

  /**
   A call of the runtime client failed with this fault, after everything before it went as wanted.
   Calls that come later in the operation are not made.
   */
  predicate StoppedBy(kind: Kind, payload: Payload, client: Client, fault: Fault) {
    match kind
    case EnsurePlacement => payload.placement && client.placementReady == Error(fault)
    case DeleteAppEnvironment =>
      || client.delete == Error(fault)
      || (client.delete.Value? && client.deployment == Error(fault))
      || (client.delete.Value? && client.deployment.Value? && !client.deployment.value.present
          && client.collect == Error(fault))
    case ApplyDeployment =>
      && payload.deployment.Some?
      && (|| client.apply == Error(fault)
          || (client.apply.Value? && client.deployment == Error(fault))
          || (client.apply.Value? && client.deployment.Value? && Runs(client.deployment.value, payload.deployment.value)
              && if Mounts(payload.deployment.value) && !client.volume.Value? then client.volume == Error(fault)
                 else
                   && (Mounts(payload.deployment.value) ==>
                         Holds(client.volume.value, payload.deployment.value.volume.value.sizeGiB))
                   && client.collect == Error(fault)))
    case UnsupportedKind => false
    case _ =>
      && payload.volumeSize.Some?
      && (client.applyVolume == Error(fault) || (client.applyVolume.Value? && client.volume == Error(fault)))
  }

  predicate Runs(o: Observation, intent: Intent) {
    o.present && o.state == READY && o.release == intent.image
  }

  predicate Mounts(intent: Intent) {
    intent.stateful && intent.volume.Some?
  }

  /** What a successful result shows of the runtime */
  predicate Shows(result: RuntimeResult, kind: Kind, payload: Payload, client: Client)
    requires Achieved(kind, payload, client)
    reads result
  {
    match kind
    case EnsurePlacement => true
    case UnsupportedKind => true
    case DeleteAppEnvironment => result.message == client.deployment.value.message
    case ApplyDeployment =>
      && result.release == payload.deployment.value.image && result.message == client.deployment.value.message
      && (Mounts(payload.deployment.value) ==> ShowsVolume(result, client.volume.value))
    case _ => result.message == client.volume.value.message && ShowsVolume(result, client.volume.value)
  }

  predicate ShowsVolume(result: RuntimeResult, v: VolumeObservation)
    reads result
  {
    result.volumeState == v.state && result.observedSizeGiB == v.sizeGiB
  }

  /** The command is complete. */
  predicate Complete(c: Command) {
    c.id != "" && c.operation != "" && c.fencingToken >= 1 && c.desiredVersion >= 1
  }

  predicate Compatible(c: Command) {
    c.schema == "" || c.schema == SCHEMA
  }

  predicate Timely(c: Command, now: real) {
    c.deadlineUnix > 0 && c.deadlineUnix as real > now
  }

  /** The command may be started: complete, of a known schema, and not past its deadline. */
  predicate Admissible(c: Command, now: real) {
    Complete(c) && Compatible(c) && Timely(c, now) && c.payload.Some?
  }

  datatype Failure = NoFailure | Unsupported | NotReached | Of(fault: Fault)

  method Perform(kind: Kind, payload: Payload, client: Client, result: RuntimeResult) returns (f: Failure)
    requires result.state == "" && result.errorCode == ""
    modifies result
    ensures f.NoFailure? <==> Achieved(kind, payload, client)
    ensures f.NoFailure? ==> result.state == READY && Shows(result, kind, payload, client)
    ensures forall fault :: StoppedBy(kind, payload, client, fault) <==> f == Of(fault)
    ensures f.Unsupported? <==> kind.UnsupportedKind?
    ensures result.errorCode == "" && result.retryable == old(result.retryable)
  {
    match kind
    case EnsurePlacement =>
      if !payload.placement {
        return NotReached;
      }
      if client.placementReady.Error? {
        return Of(client.placementReady.fault);
      }
      if !client.placementReady.value {
        return NotReached;
      }
      result.state := READY;
      return NoFailure;
    case DeleteAppEnvironment =>
      if client.delete.Error? {
        return Of(client.delete.fault);
      }
      if client.deployment.Error? {
        return Of(client.deployment.fault);
      }
      if client.deployment.value.present {
        return NotReached;
      }
      if client.collect.Error? {
        return Of(client.collect.fault);
      }
      result.state, result.message := READY, client.deployment.value.message;
      return NoFailure;
    case ApplyDeployment => f := PerformApply(payload, client, result);
    case UnsupportedKind => return Unsupported;
    case _ => f := PerformVolume(kind, payload, client, result);
  }

  method PerformVolume(kind: Kind, payload: Payload, client: Client, result: RuntimeResult) returns (f: Failure)
    requires kind.EnsureVolume? || kind.ExpandVolume? || kind.DeleteVolume?
    requires result.errorCode == ""
    modifies result
    ensures f.NoFailure? <==> Achieved(kind, payload, client)
    ensures f.NoFailure? ==> result.state == READY && Shows(result, kind, payload, client)
    ensures forall fault :: StoppedBy(kind, payload, client, fault) <==> f == Of(fault)
    ensures f.Unsupported? <==> kind.UnsupportedKind?
    ensures result.errorCode == "" && result.retryable == old(result.retryable)
  {
    if payload.volumeSize.None? {
      return NotReached;
    }
    if client.applyVolume.Error? {
      return Of(client.applyVolume.fault);
    }
    if client.volume.Error? {
      return Of(client.volume.fault);
    }
    var observed := client.volume.value;
    result.volumeState, result.observedSizeGiB := observed.state, observed.sizeGiB;
    var expected := if kind.DeleteVolume? then RETAINED else READY;
    var waitingForConsumer := kind.EnsureVolume? && observed.present && observed.state == PROVISIONING;
    if !waitingForConsumer && (!observed.present || observed.state != expected
                               || (expected == READY && observed.sizeGiB < payload.volumeSize.value)) {
      return NotReached;
    }
    result.state, result.message := READY, observed.message;
    return NoFailure;
  }

  method PerformApply(payload: Payload, client: Client, result: RuntimeResult) returns (f: Failure)
    requires result.errorCode == ""
    modifies result
    ensures f.NoFailure? <==> Achieved(ApplyDeployment, payload, client)
    ensures f.NoFailure? ==> result.state == READY && Shows(result, ApplyDeployment, payload, client)
    ensures forall fault :: StoppedBy(ApplyDeployment, payload, client, fault) <==> f == Of(fault)
    ensures !f.Unsupported?
    ensures result.errorCode == "" && result.retryable == old(result.retryable)
  {
    if payload.deployment.None? {
      return NotReached;
    }
    var intent := payload.deployment.value;
    if client.apply.Error? {
      return Of(client.apply.fault);
    }
    if client.deployment.Error? {
      return Of(client.deployment.fault);
    }
    var observed := client.deployment.value;
    result.state, result.message, result.release := observed.state, observed.message, observed.release;
    if !observed.present || observed.state != READY || observed.release != intent.image {
      return NotReached;
    }
    if intent.stateful && intent.volume.Some? {
      if client.volume.Error? {
        return Of(client.volume.fault);
      }
      var volume := client.volume.value;
      result.volumeState, result.observedSizeGiB := volume.state, volume.sizeGiB;
      if !volume.present || volume.state != READY || volume.sizeGiB < intent.volume.value.sizeGiB {
        return NotReached;
      }
    }
    if client.collect.Error? {
      return Of(client.collect.fault);
    }
    return NoFailure;
  }

  /** The first reason against the command, or what became of it once it was started */
  function Verdict(c: Command, now: real, client: Option<Client>, timedOut: bool): (code: string)
    ensures code == "runtime_unconfigured" <==> client.None?
    ensures code == "command_incompatible" <==> client.Some? && Complete(c) && !Compatible(c)
    ensures code == "command_expired" <==> client.Some? && Complete(c) && Compatible(c) && !Timely(c, now)
    ensures code == "command_invalid" <==>
              client.Some? && (!Complete(c) || (Compatible(c) && Timely(c, now) && c.payload.None?))
    ensures code in {"", "runtime_timeout", "command_unsupported", "runtime_ownership_conflict", "runtime_error"} <==>
              client.Some? && Admissible(c, now)
    ensures client.Some? && Admissible(c, now) ==> code == Outcome(c.kind, c.payload.value, client.value, timedOut)
  {
    if client.None? then "runtime_unconfigured"
    else if !Complete(c) then "command_invalid"
    else if !Compatible(c) then "command_incompatible"
    else if !Timely(c, now) then "command_expired"
    else if c.payload.None? then "command_invalid"
    else Outcome(c.kind, c.payload.value, client.value, timedOut)
  }

  /** The code of a command that was started. Running out of time outweighs the other failures, but not success. */
  function Outcome(kind: Kind, payload: Payload, client: Client, timedOut: bool): (code: string)
    ensures code == "" <==> Achieved(kind, payload, client)
    ensures code == "runtime_timeout" <==>
              !Achieved(kind, payload, client) && (timedOut || StoppedBy(kind, payload, client, DeadlineExceeded))
    ensures code == "command_unsupported" <==> !timedOut && kind.UnsupportedKind?
    ensures code == "runtime_ownership_conflict" <==> !timedOut && StoppedBy(kind, payload, client, OwnershipConflict)
    ensures code in {"", "runtime_timeout", "command_unsupported", "runtime_ownership_conflict", "runtime_error"}
  {
    if Achieved(kind, payload, client) then ""
    else if timedOut || StoppedBy(kind, payload, client, DeadlineExceeded) then "runtime_timeout"
    else if kind.UnsupportedKind? then "command_unsupported"
    else if StoppedBy(kind, payload, client, OwnershipConflict) then "runtime_ownership_conflict"
    else "runtime_error"
  }

  /** Performs an admissible command and reports what became of it. */
  method Start(kind: Kind, payload: Payload, client: Client, timedOut: bool, result: RuntimeResult)
    requires result.state == "" && result.errorCode == "" && !result.retryable
    modifies result
    ensures result.errorCode == Outcome(kind, payload, client, timedOut)
    ensures result.state == if result.errorCode == "" then READY else DEGRADED
    ensures result.retryable <==> result.errorCode == "runtime_timeout" || result.errorCode == "runtime_error"
    ensures result.errorCode == "" ==> Shows(result, kind, payload, client)
  {
    var f := Perform(kind, payload, client, result);
    if !f.NoFailure? {
      if timedOut || f == Of(DeadlineExceeded) {
        result.Fail("runtime_timeout", "runtime command did not complete before its deadline", true);
      } else if f.Unsupported? {
        result.Fail("command_unsupported", "runtime command kind is unsupported", false);
      } else if f == Of(OwnershipConflict) {
        result.Fail("runtime_ownership_conflict", "runtime object ownership conflict", false);
      } else {
        result.Fail("runtime_error", "runtime operation failed", true);
      }
    }
  }

  /**
   The result always echoes the command's identifier and fencing token. It reports success
   exactly when the command was admissible and its goal was observed; every failure is Degraded.
   */
  method Execute(c: Command, now: real, client: Option<Client>, timedOut: bool) returns (result: RuntimeResult)
    ensures fresh(result) && result.commandId == c.id && result.fencingToken == c.fencingToken
    ensures result.errorCode == "" <==>
              client.Some? && Admissible(c, now) && Achieved(c.kind, c.payload.value, client.value)
    ensures result.errorCode == "" ==> result.state == READY
    ensures result.errorCode != "" ==> result.state == DEGRADED
    ensures result.retryable <==> result.errorCode in {"command_expired", "runtime_timeout", "runtime_error"}
    ensures result.errorCode == Verdict(c, now, client, timedOut)
    ensures result.errorCode == "" ==> Shows(result, c.kind, c.payload.value, client.value)
  {
    result := new RuntimeResult(c.id, c.fencingToken);
    if client.None? {
      result.Fail("runtime_unconfigured", "Agent runtime is not configured", false);
    } else if c.id == "" || c.operation == "" || c.fencingToken < 1 || c.desiredVersion < 1 {
      result.Fail("command_invalid", "runtime command metadata is invalid", false);
    } else if c.schema != "" && c.schema != SCHEMA {
      result.Fail("command_incompatible", "runtime command schema is not supported", false);
    } else if c.deadlineUnix <= 0 || c.deadlineUnix as real <= now {
      result.Fail("command_expired", "runtime command deadline has elapsed", true);
    } else if c.payload.None? {
      result.Fail("command_invalid", "runtime command payload is invalid", false);
    } else {
      Start(c.kind, c.payload.value, client.value, timedOut, result);
    }
  }
}
