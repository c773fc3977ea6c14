# Molejo: a verified model

Molejo's control plane drives Kubernetes clusters through an Agent that connects outwards. This
project models the protocols between the two and the state that each side must keep consistent
across interleavings and crashes, and proves what they promise. `dafny verify dfyconfig.toml`
checks all of it.

- **Runtime queries** (`Query*.dfy`). The broker with its two semaphores and replaceable sessions,
  the server's message pump and the Agent's bounded worker loop are one transition system; each
  action is one atomic step of one goroutine, and the two halves of closing a session are separate
  steps. `QueryBroker` holds the mutable session and broker, which `QueryRefinement` ties to the
  transition system, and `QueryTypes.Collect` the receive loop.
- **Configuration** (`Cluster`, `Configuration`, `Decimal`). The cluster is three maps; every API
  call may fail before or after it took effect, others may act between any two calls, and a ghost
  trace records the state after each.
- **Agent identity** (`AgentIdentity`). Reconciliations over one persisted Secret, with crashes and
  ambiguous writes; which key matches which certificate is a parameter.
- **Control channel** (`ControlMessages`, `ControlServer`, `ControlAgent`, `ControlChannel`,
  `ControlHistory`, `Bindings`, `Executor`). Both loops are methods proved against step functions,
  the step functions are composed over two first-in first-out streams, and what passes over them is
  traced from end to end.
- **Metric snapshots** (`SnapshotCache`). The two critical sections on a mutable map, and all
  interleavings of their callers.
- **Feature availability, runtime configuration, deliveries, backoff, cursors**
  (`FeatureAvailability`, `RuntimeConfig`, `RuntimeValidation`, `DeliveryWorker`, `Backoff`, `Cursor`).

Clocks, random draws, registries, GitHub, the Kubernetes client and transports are inputs: they are
parameters or arbitrary choices, so the theorems hold for all their answers; where one supposes
something of them, it is listed under "Left out". Time-outs and cancellations may happen at any
step.

Some expectations turn out to hold only under a condition, which is then proved exactly. A
successful query returns its whole response if and only if the pump abandoned no chunk of it when
the session closed (`QueryTheorems.SuccessIsTheHandlersAnswer`, with a run that loses the chunk in
`QueryTheorems.ClosingCanTruncate`). The server advertises binding observations even without a
registry for them, which ends the channel exactly when the Agent observes bindings
(`ControlChannel.BindingsNeedTheirRegistry`). The server rejects a heartbeat's number exactly when
it wrapped to zero after 2^64 - 1 heartbeats, and such a run exists for any two fitting sides
(`ControlChannel.WrapIsRejected`, `ControlChannel.TheNumberWraps`). Normalising a configuration
panics exactly for a legacy public endpoint without any port (`RuntimeConfig.NormalizeRuntimeConfig`),
while normalising an intent never does; the two agree exactly as
`RuntimeConfig.IntentAgreesWithConfiguration` says. A renewal persists the certificate's installation
but keeps the old one in memory, so the two agree exactly as `AgentIdentity.RenewalAgreesExactly`
says. An identifier has several cursors, and `Cursor.CursorsOf` says which.

## Model

| member | source | states |
|---|---|---|
| `QueryTheorems.SuccessIsTheHandlersAnswer` | services/control-plane-api/internal/clusteragent/runtime_query_broker.go:102-149 | Over every interleaving with unique request identifiers, a successful query returns what the handler of that very request was given as its answer: nothing if it produced nothing, and otherwise its one body under the request's identifier and the number 1, if and only if the pump abandoned no chunk of it, as is so whenever the session was not yet done when the query took the completion; a failed answer never becomes a success |
| `QueryTheorems.AnswersAreGiven` | services/cluster-agent/internal/controlplane/query_connector.go:86-88 | Over every run, the answer a handler holds was given to that very handler by a step of the run |
| `QueryTheorems.ClosingCanTruncate` | services/control-plane-api/internal/clusteragent/runtime_query_broker.go:198-226 | A concrete run: the session closes during a delivery, the pump abandons the chunk, the completion still arrives, and the query succeeds without the chunk |
| `QueryTheorems.TokensAreConserved` | services/control-plane-api/internal/clusteragent/runtime_query_broker.go:91-113 | In every reachable state the global semaphore counts the queries that hold it (at most 32), each session's semaphore its own holders (at most 4); once all queries returned, all tokens and pending entries are back |
| `QueryTheorems.DuplicateSparesTheWinner` | services/control-plane-api/internal/clusteragent/runtime_query_broker.go:102-113 | A query refused as a duplicate, and any step of a query without an entry, leaves every pending entry in place |
| `QueryTheorems.RegistryIsLatest` | services/control-plane-api/internal/clusteragent/runtime_query_broker.go:161-180 | A session is its installation's entry in the broker if and only if its stream has not ended and no later session of that installation was registered; such a session is never closed, and every other session is being closed |
| `QueryTheorems.PumpNeverBlocks` | services/control-plane-api/internal/clusteragent/runtime_query_channel.go:51-79 | With unique identifiers the server's pump can always deliver, because an inbox holds at most two messages when it does |
| `QueryTheorems.InboxIsShort` | services/control-plane-api/internal/clusteragent/runtime_query_broker.go:102-103 | What has arrived for one query, read or not, is never more than three deliveries, so the 17 slots suffice |
| `QueryTheorems.AgentRunsAtMostFour` | services/cluster-agent/internal/controlplane/query_connector.go:54-103 | Whatever the identifiers, the Agent occupies at most four slots, and its slot counter is the number of handlers that hold one |
| `QueryCancels.OutcomesHaveTheirCause` | services/control-plane-api/internal/clusteragent/runtime_query_broker.go:64-150 | Over every run, a query that returns was ended by a step that explains its outcome: cancelled by its own context, unavailable by a refusal, the closed session or its notice, rejected by a refusal, a duplicate or a bad delivery, succeeded by a successful completion |
| `QueryCancels.CancelledForAReason` | services/cluster-agent/internal/controlplane/query_connector.go:66-85 | With unique identifiers, a handler is cancelled only by the end of its own context, the end of the Agent's loop, or because a query that had sent this request gave up |
| `QueryCancels.CancellationReachesItsHandler` | services/cluster-agent/internal/controlplane/query_connector.go:69-72 | A cancellation that the Agent reads cancels the handler of that request, if it is still at work, and no other |
| `QueryCancels.StoppingCancelsAll` | services/cluster-agent/internal/controlplane/query_connector.go:51-52 | When the Agent's loop ends, every handler still at work is cancelled |
| `QueryCancels.ExcessCancelsAll` | services/cluster-agent/internal/controlplane/query_connector.go:77-81 | A request beyond the Agent's slots ends the loop and cancels every handler still at work |
| `QueryCancels.GivingUpAsksToCancel` | services/control-plane-api/internal/clusteragent/runtime_query_broker.go:122-127 | A query that gives up after sending asks the Agent to cancel it exactly if the outbound channel has room |
| `QueryCancels.UnavailableMeansDone` | services/control-plane-api/internal/clusteragent/runtime_query_broker.go:119-131 | A query that sent its request is told that the session is unavailable only if the session is done |
| `QueryCancels.RunsKeepCancels` | services/cluster-agent/internal/controlplane/query_connector.go:69-101 | Every run keeps: cancellations under way come from queries that gave up, and the Agent's record names the handler of each request |
| `QueryTokens.RunsKeepTokens` | services/control-plane-api/internal/clusteragent/runtime_query_broker.go:64-113 | Every run keeps the registry, token and pending-entry invariants |
| `QueryTokens.NextKeepsRegistry` | services/control-plane-api/internal/clusteragent/runtime_query_broker.go:161-180 | Every single step keeps: registered sessions are open, and are the latest of their installation |
| `QueryTokens.NextKeepsTokens` | services/control-plane-api/internal/clusteragent/runtime_query_broker.go:91-101 | Every single step keeps the semaphore counts equal to the number of holders |
| `QueryTokens.NextKeepsPending` | services/control-plane-api/internal/clusteragent/runtime_query_broker.go:182-196 | Every single step keeps: each pending entry belongs to one query on its way, under its own identifier |
| `QueryEndToEnd.RunsKeepFlow` | services/control-plane-api/internal/clusteragent/runtime_query_channel.go:51-79 | Every run keeps the end-to-end invariant: what arrives for a query is an in-order part of what the handler of its request queued |
| `QueryEndToEnd.NextKeepsFlow` | services/control-plane-api/internal/clusteragent/runtime_query_channel.go:62-77 | Every single step of any goroutine keeps the end-to-end invariant |
| `QueryEndToEnd.SuccessIsServed` | services/control-plane-api/internal/clusteragent/runtime_query_broker.go:115-149 | At the moment a query succeeds, its chunks are those that its handler's answer calls for, all of them if the session was still open |
| `QueryLosses.RunsKeepLosses` | services/control-plane-api/internal/clusteragent/runtime_query_broker.go:198-211 | Over every run: of what the pump takes for a pending query, everything arrives except what it abandons because the session is done |
| `QueryLosses.CompleteUnlessAbandoned` | services/control-plane-api/internal/clusteragent/runtime_query_broker.go:204-210 | In every reachable state a successful response is complete if and only if the done branch of a delivery dropped no chunk of it |
| `QueryFlow.AgentKeepsUpstream` | services/cluster-agent/internal/controlplane/query_connector.go:84-117 | Every step of the Agent, of its loop and of its handlers, keeps: what is on the way up is, for each request, exactly what its handler queued, in order |
| `QueryFlow.AgentKeepsHandlers` | services/cluster-agent/internal/controlplane/query_connector.go:66-103 | Every step of the Agent keeps: a handler queues at most one chunk and then one completion, and slots are counted right |
| `QueryMachine.NextWellIndexed` | services/control-plane-api/internal/clusteragent/runtime_query_broker.go:64-113 | Every step of the protocol leaves all references between queries, sessions and handlers intact |
| `QueryTypes.Collect` | services/control-plane-api/internal/clusteragent/runtime_query_broker.go:115-149 | The receive loop succeeds with some chunks if and only if a prefix of the deliveries is a complete response of exactly these chunks within the limits, and it stops there |
| `QueryTypes.ReactKeepsConsistent` | services/control-plane-api/internal/clusteragent/runtime_query_broker.go:119-148 | One delivery extends a consistent partial response, or completes it exactly if the extended deliveries are a complete response |
| `QueryTypes.AfterStop` | services/control-plane-api/internal/clusteragent/runtime_query_broker.go:119-148 | After the loop has stopped no longer prefix would be a complete response |
| `QueryBroker.RuntimeQuerySession.Add` | services/control-plane-api/internal/clusteragent/runtime_query_broker.go:182-190 | Adds an entry exactly if the identifier is not pending, and changes nothing else |
| `QueryBroker.RuntimeQuerySession.Remove` | services/control-plane-api/internal/clusteragent/runtime_query_broker.go:192-196 | Removes that entry and no other |
| `QueryBroker.RuntimeQuerySession.Deliver` | services/control-plane-api/internal/clusteragent/runtime_query_broker.go:198-211 | Delivers to the pending query of that identifier alone; says exactly when it accepts, gives up, finds no query or waits |
| `QueryBroker.RuntimeQuerySession.Close` | services/control-plane-api/internal/clusteragent/runtime_query_broker.go:213-226 | Runs once; notifies each pending query that has room and forgets them all |
| `QueryBroker.RuntimeQueryBroker.Register` | services/control-plane-api/internal/clusteragent/runtime_query_broker.go:161-171 | Installs a fresh session, closes the one it replaces, leaves all others alone |
| `QueryBroker.RuntimeQueryBroker.Unregister` | services/control-plane-api/internal/clusteragent/runtime_query_broker.go:173-180 | Closes the session and removes it only where it is still registered, never its successor |
| `QueryRefinement.AddStep` | services/control-plane-api/internal/clusteragent/runtime_query_broker.go:182-190 | On objects that represent a state, Add is the transition system's step |
| `QueryRefinement.RemoveStep` | services/control-plane-api/internal/clusteragent/runtime_query_broker.go:192-196 | The same for Remove |
| `QueryRefinement.DeliverStep` | services/control-plane-api/internal/clusteragent/runtime_query_broker.go:198-211 | Deliver is taking the message followed by accepting or dropping it; it waits exactly where neither step is possible |
| `QueryRefinement.CloseStep` | services/control-plane-api/internal/clusteragent/runtime_query_broker.go:213-226 | Close is the two halves of closing, one after the other |
| `Configuration.RunOperations` | services/cluster-agent/internal/runtime/runtime.go:136-398 | Whatever the operations, the failures, the crashes and the interference of others: after every single API call each owned Secret has its owned ConfigMap and every reference of a live AppDeployment resolves |
| `Configuration.GarbageCollectConfiguration` | services/cluster-agent/internal/runtime/runtime.go:328-365 | Safe after every call; touches nothing of other owners; when it succeeds only the ConfigMap the live AppDeployment refers to is left, and at most its paired Secret; it fails only if an API call failed, and conflicts only with a foreign AppDeployment, of which it then changed nothing |
| `Configuration.DeleteConfigurationSecret` | services/cluster-agent/internal/runtime/runtime.go:367-382 | Deletes at most the Secret paired with a stale ConfigMap; on success it is gone |
| `Configuration.MaterializeConfiguration` | services/cluster-agent/internal/runtime/runtime.go:256-282 | Keeps all owned objects and safety after every call; on success both references resolve to immutable objects with exactly the given data; a conflict means that something else is in the place of one of them; once the version is stored, the same call writes nothing, meets no conflict, and succeeds unless an API call fails |
| `Configuration.CreateOrVerifyConfigMap` | services/cluster-agent/internal/runtime/runtime.go:284-304 | On success the owned ConfigMap of this version is immutable and holds exactly the data, whether created now or found; a conflict leaves what is in the way alone; a stored version is not written again |
| `Configuration.CreateOrVerifySecret` | services/cluster-agent/internal/runtime/runtime.go:306-326 | The same for the Secret, which is only ever created beside its ConfigMap |
| `Configuration.CollectData` | services/cluster-agent/internal/runtime/runtime.go:261-264 | The loop computes the map of the variables |
| `Configuration.DataNames` | services/cluster-agent/internal/runtime/runtime.go:261-264 | That map has just the names given |
| `Configuration.LastValueWins` | services/cluster-agent/internal/runtime/runtime.go:261-264 | and holds for each the last value given |
| `Configuration.ApplyDeployment` | services/cluster-agent/internal/runtime/runtime.go:136-206 | Safe after every call; on success the AppDeployment is the control plane's and refers to this version's configuration, which is there and immutable; other AppDeployments never change, and after a conflict or without its volume neither does this one; applying again meets no conflict, leaves the configuration alone and succeeds unless an API call fails |
| `Configuration.DeleteDeployment` | services/cluster-agent/internal/runtime/runtime.go:473-491 | Safe after every call; changes no configuration and no other AppDeployment; a conflict means a foreign AppDeployment, and nothing of it was changed; it fails only if an API call failed |
| `Configuration.OwnedDeploymentExists` | services/cluster-agent/internal/runtime/runtime.go:493-505 | Reads ownership correctly, tells absence, a foreign object and a failed call apart, and changes nothing |
| `Cluster.ConfigNameInjective` | services/cluster-agent/internal/runtime/runtime.go:260-260 | The name owner-c<version> determines owner and version |
| `Cluster.NamesAsWritten` | services/cluster-agent/internal/runtime/runtime.go:260-271 | Version 12 of web is named web-c12, and its Secret web-c12-secret |
| `Cluster.OwnedName` | services/cluster-agent/internal/runtime/runtime.go:384-398 | Objects created for an owner and a version are recognised as owned under their name |
| `Cluster.OthersKeepSafe` | services/cluster-agent/internal/runtime/runtime.go:384-398 | Actors that respect the ownership annotation cannot break safety |
| `Cluster.PutDeploymentKeepsSafe` | services/cluster-agent/internal/runtime/runtime.go:136-206 | Writing an AppDeployment whose references resolve keeps safety |
| `Cluster.DropConfigKeepsSafe` | services/cluster-agent/internal/runtime/runtime.go:350-364 | Deleting a ConfigMap keeps safety if nothing live refers to it and its Secret is gone |
| `Cluster.DropSecretKeepsSafe` | services/cluster-agent/internal/runtime/runtime.go:367-382 | Deleting a Secret keeps safety if its ConfigMap is stale |
| `Decimal.ParseOfFormat` | services/cluster-agent/internal/runtime/runtime.go:384-398 | Parsing the decimal form of a version within 64 bits gives the version back |
| `AgentIdentity.Live` | services/cluster-agent/internal/agent/runner.go:70-172 | From an empty Secret, after any number of reconciliations with crashes and ambiguous writes, the whole history is in order and the persisted identity is sound: certificate and key match, both triples are all-or-nothing |
| `AgentIdentity.Agent.ReconcileOnce` | services/cluster-agent/internal/agent/runner.go:93-171 | Keeps the invariant and never returns either error about an incomplete identity |
| `AgentIdentity.Agent.EnrollOnce` | services/cluster-agent/internal/agent/runner.go:101-135 | Keeps the invariant; on success the identity in hand has a matching certificate and is the one persisted, field by field |
| `AgentIdentity.Agent.RenewCertificate` | services/cluster-agent/internal/agent/runner.go:182-215 | Keeps the invariant; on success the identity in hand is the persisted one in every field but the installation, and the renewal identity is used up; on failure the old pair stays |
| `AgentIdentity.Agent.EnsureEnrollmentIdentity` | services/cluster-agent/internal/agent/runner.go:225-243 | On success the attempt, key and request in hand are those persisted |
| `AgentIdentity.Agent.EnsureRenewalIdentity` | services/cluster-agent/internal/agent/runner.go:182-197 | Persists a renewal identity before it is used, unless there is one |
| `AgentIdentity.Agent.ClearEnrollmentToken` | services/cluster-agent/internal/agent/runner.go:217-223 | Only called once a certificate is persisted; keeps the invariant, and the token is gone when it completes |
| `AgentIdentity.Agent.ConnectFor` | services/cluster-agent/internal/agent/runner.go:173-180 | The connector only ever receives a certificate that matches its key |
| `AgentIdentity.Agent.ConnectOrRenew` | services/cluster-agent/internal/agent/runner.go:140-171 | An expired certificate is not used; one that is due is renewed first, and failing that used for five minutes at most; any other is connected with, as it is, for the time until it is due |
| `AgentIdentity.EnrollCallsAgree` | services/cluster-agent/internal/agent/runner.go:101-135 | All enrolment calls of a run carry one attempt and request, and none is made once a certificate was persisted |
| `AgentIdentity.RenewCallsAgree` | services/cluster-agent/internal/agent/runner.go:182-215 | Renewal calls with no certificate saved between them carry one attempt and request |
| `AgentIdentity.Agent.Update` | services/cluster-agent/internal/kube/secrets.go:123-136 | The conflict-retry loop changes what each attempt reads; it leaves the Secret old or changed once, and changed if it reports success |
| `AgentIdentity.Agent.SaveEnrollmentIdentity` | services/cluster-agent/internal/kube/secrets.go:58-67 | Writes the whole enrolment triple or nothing |
| `AgentIdentity.Agent.SaveRenewalIdentity` | services/cluster-agent/internal/kube/secrets.go:93-102 | Writes the whole renewal triple or nothing |
| `AgentIdentity.Agent.SaveCertificate` | services/cluster-agent/internal/kube/secrets.go:69-91 | On completion the identity that is read back has the certificate's installation, pair, authorities, bundle and expiry, the new key for a renewal, the old attempt and request, and no renewal identity; otherwise the Secret is as before or as after completion |
| `AgentIdentity.CertificateReadBack` | services/cluster-agent/internal/kube/secrets.go:69-91 | What saving a certificate writes is what loading reads: every field of it, in its own place, and nothing else changed but the renewal identity, which is gone |
| `AgentIdentity.EnrollmentReadBack` | services/cluster-agent/internal/kube/secrets.go:58-67 | The same for the enrolment identity |
| `AgentIdentity.RenewalReadBack` | services/cluster-agent/internal/kube/secrets.go:93-102 | The same for the renewal identity |
| `AgentIdentity.RenewalAgreesExactly` | services/cluster-agent/internal/agent/runner.go:207-214 | After a renewal the identity in hand equals the persisted one if and only if the certificate is for the same installation |
| `AgentIdentity.CertificateStaysSound` | services/cluster-agent/internal/kube/secrets.go:69-91 | Saving a certificate that matches the key it is saved with keeps the identity sound |
| `ControlChannel.ChannelStaysInStep` | services/control-plane-api/internal/clusteragent/grpc_server.go:124-238 | Composed with the Agent, over every run of fitting sides: the registry sees heartbeats 1, 2, 3, ...; no side reaches a protocol error except where the heartbeat number wraps at 2^64 or bindings are reported to a server without their registry; the two are never both waiting for nothing; after each acknowledgement the Agent holds the targets announced last |
| `ControlChannel.BindingsNeedTheirRegistry` | services/control-plane-api/internal/clusteragent/grpc_server.go:119-187 | The not-negotiated error for bindings is reachable if and only if the Agent observes bindings and the server has no binding registry |
| `ControlChannel.TheNumberWraps` | services/cluster-agent/internal/controlplane/connector.go:207-213 | For any two fitting sides some run ends with the server rejecting the wrapped heartbeat number, and every run that ends so had 2^64 - 1 heartbeats before |
| `ControlChannel.WrapIsRejected` | services/control-plane-api/internal/clusteragent/grpc_server.go:136-138 | In every reachable state the server rejects the number of the next heartbeat if and only if 2^64 - 1 heartbeats went before it |
| `ControlChannel.TurnsReach` | services/cluster-agent/internal/controlplane/connector.go:207-279 | Every number of heartbeats below 2^64 is reached by a run with both sides alive |
| `ControlChannel.RunsKeep` | services/cluster-agent/internal/controlplane/connector.go:207-279 | Every run keeps the joint invariant of both sides and the two streams |
| `ControlChannel.NextKeeps` | services/cluster-agent/internal/controlplane/connector.go:207-279 | Every single step of either side keeps the joint invariant |
| `ControlHistory.HandledResultsWerePerformed` | services/control-plane-api/internal/clusteragent/grpc_server.go:201-225 | Over every run of fitting sides, each result that the dispatcher handles is one that the executor returned, earlier in the run, for the command that the dispatcher gave out just before |
| `ControlHistory.ArrivingResultsAreHandled` | services/control-plane-api/internal/clusteragent/grpc_server.go:208-221 | A result that arrives while the server waits is handled, not given up |
| `ControlHistory.AbandonedCommandsWereBrokenOff` | services/control-plane-api/internal/clusteragent/grpc_server.go:201-219 | A command is given up only after it was given out, and because the stream broke or the command could not be sent |
| `ControlHistory.HeartbeatsAreReported` | services/control-plane-api/internal/clusteragent/grpc_server.go:143-200 | The registries are told exactly what the Agent's observers found at the tick: runtime, capability and binding observations under the heartbeat's number, up to the first that is refused; binding observations arrive in order, rounded down to the second |
| `ControlHistory.OnlyHeartbeatsReport` | services/control-plane-api/internal/clusteragent/grpc_server.go:143-200 | No other step tells the registries anything of the observations |
| `ControlHistory.HeartbeatsAreServed` | services/control-plane-api/internal/clusteragent/grpc_server.go:201-236 | After a heartbeat whose observations pass, the dispatcher's own command is under way to the Agent, or else an acknowledgement of that number from which the Agent adopts exactly the registry's targets |
| `ControlHistory.ResultsAreAcknowledged` | services/control-plane-api/internal/clusteragent/grpc_server.go:226-236 | A handled result is followed by the acknowledgement of the heartbeat before it, with the registry's targets |
| `ControlHistory.OnlyAcknowledgementsAnnounce` | services/control-plane-api/internal/clusteragent/grpc_server.go:226-236 | Steps that receive nothing announce no targets |
| `ControlHistory.TheAgentIsIntroduced` | services/control-plane-api/internal/clusteragent/grpc_server.go:100-121 | Over every run, the registry is told exactly what the Agent says of itself, and both sides go on under the session that the registry's call was made with |
| `ControlHistory.RunsTrace` | services/control-plane-api/internal/clusteragent/grpc_server.go:201-225 | Over every run, every call of the dispatcher has its cause, and a result under way was returned for the command the server waits for |
| `ControlHistory.RunsTraceBeats` | services/cluster-agent/internal/controlplane/connector.go:213-246 | Over every run, the heartbeat under way carries what the observers found at the last tick |
| `ControlServer.CommandsAreResolved` | services/control-plane-api/internal/clusteragent/grpc_server.go:201-225 | Whatever the peer sends and the registries answer: each obtained command is followed by exactly one HandleResult or Abandon before the next, HandleResult only sees a result with its identifier and fencing token, and only a server waiting for a result has one open |
| `ControlServer.Connect` | services/control-plane-api/internal/clusteragent/grpc_server.go:88-238 | The loop computes the run of the step function over exactly the messages it reads, and leaves its commands resolved |
| `ControlServer.Serve` | services/control-plane-api/internal/clusteragent/grpc_server.go:124-236 | One turn of the loop is one or two steps of the step function |
| `ControlAgent.RunControlChannel` | services/cluster-agent/internal/controlplane/connector.go:179-279 | The loop computes the run of the Agent's step function over its turns; every result it sends is what the executor returned in some turn for the command of that turn |
| `ControlAgent.Turned` | services/cluster-agent/internal/controlplane/connector.go:207-277 | One turn, with targets and their flag as two variables, is one tick and one or two receives of the step function |
| `ControlAgent.ResultsAreTheExecutors` | services/cluster-agent/internal/controlplane/connector.go:256-267 | Whatever the server sends, each result that the Agent sends is the executor's own for the command of its turn |
| `Bindings.TargetsFromWire` | services/cluster-agent/internal/controlplane/connector.go:281-305 | The conversion yields all targets if they are at most 32, distinct and valid, and nothing otherwise |
| `Bindings.TargetsToWire` | services/control-plane-api/internal/clusteragent/grpc_server.go:240-253 | The conversion keeps every target's form |
| `Bindings.TargetsRoundTrip` | services/cluster-agent/internal/controlplane/connector.go:281-305 | The Agent adopts exactly what the server announced if and only if the targets are acceptable |
| `Bindings.ObservationsFromWire` | services/control-plane-api/internal/clusteragent/grpc_server.go:255-271 | The conversion takes all observations, or none if there are more than 32 |
| `Bindings.ObservationsRoundTrip` | services/cluster-agent/internal/controlplane/connector.go:307-320 | Observations arrive unchanged if and only if there are at most 32, each has one form at most and a time in whole seconds |
| `Executor.Execute` | services/cluster-agent/internal/runtime/executor.go:27-65 | The result echoes identifier and fencing token; its error code is the first reason against the command, or what became of it once it was started; it reports success if and only if the command was admissible and its goal observed, and then shows what was observed; every failure is Degraded, and retryable exactly if the command expired, timed out or failed in the runtime |
| `Executor.Verdict` | services/cluster-agent/internal/runtime/executor.go:29-51 | Says for each code exactly when it is given: no runtime, incomplete command, unknown schema, deadline passed, unreadable payload |
| `Executor.Outcome` | services/cluster-agent/internal/runtime/executor.go:52-63 | Success exactly if the goal was observed; otherwise a timeout if time ran out or a call said so, and else an unsupported kind, an ownership conflict or a runtime error, each exactly by its cause |
| `Executor.Start` | services/cluster-agent/internal/runtime/executor.go:52-64 | Performs the command and reports that outcome |
| `Executor.Perform` | services/cluster-agent/internal/runtime/executor.go:67-162 | No failure if and only if the goal of the kind of command was observed; the failure is a call's fault if and only if that call was reached and failed with it |
| `Executor.PerformApply` | services/cluster-agent/internal/runtime/executor.go:129-158 | For a deployment: the requested image is ready, its volume is large enough, and collection succeeded |
| `Executor.PerformVolume` | services/cluster-agent/internal/runtime/executor.go:84-109 | For a volume: the expected state and size, or still provisioning where that is allowed |
| `SnapshotCache.SingleFlight` | services/control-plane-api/internal/api/metric_snapshot_cache.go:36-70 | In every reachable state at most one caller loads a scope, and one does if and only if the scope's entry has a wait channel |
| `SnapshotCache.EveryWaiterIsWoken` | services/control-plane-api/internal/api/metric_snapshot_cache.go:46-55 | A waiting caller's channel is closed already or its closer is still at work; no channel is closed twice |
| `SnapshotCache.HitsAreGenuine` | services/control-plane-api/internal/api/metric_snapshot_cache.go:38-45 | A hit is the snapshot of a successful load of the same scope that expires after the caller's time |
| `SnapshotCache.FailuresAreNeverCached` | services/control-plane-api/internal/api/metric_snapshot_cache.go:60-66 | Every cached entry, hit or not, is the outcome of a successful load of its scope and expires one time-to-live after it |
| `SnapshotCache.CacheHoldsTheLastLoad` | services/control-plane-api/internal/api/metric_snapshot_cache.go:59-67 | Over every run, while nobody loads a scope its entry is what the last load of it left: the snapshot, expiring one time-to-live after the loading caller's time, or nothing after a failure |
| `SnapshotCache.EnteringIsDecided` | services/control-plane-api/internal/api/metric_snapshot_cache.go:37-57 | Over every run, a caller that enters waits for whoever loads its scope; if nobody does, it returns the snapshot of the last load if and only if its own time is before that expires, and otherwise loads |
| `SnapshotCache.CallersMindTheirOwn` | services/control-plane-api/internal/api/metric_snapshot_cache.go:36-70 | Every caller works for the scope and time of its own call, and returns what its own load gave |
| `SnapshotCache.NextKeeps` | services/control-plane-api/internal/api/metric_snapshot_cache.go:36-70 | Every step of every caller keeps the cache's invariant |
| `SnapshotCache.MetricSnapshotCache.LookUp` | services/control-plane-api/internal/api/metric_snapshot_cache.go:38-57 | The first critical section: a hit exactly on an entry that expires after the caller's time, a wait on a pending entry, and otherwise a new pending entry |
| `SnapshotCache.MetricSnapshotCache.Finish` | services/control-plane-api/internal/api/metric_snapshot_cache.go:60-67 | The second critical section: after a success the entry is the snapshot with the caller's time plus the time to live, after a failure there is none; every other entry stays, and the caller's channel is closed once |
| `FeatureAvailability.Resolve` | services/control-plane-api/internal/featureavailability/resolver.go:11-31 | The loop with both scans gives every feature of the catalog as derived from its latest observation alone |
| `FeatureAvailability.ResolveProvider` | services/control-plane-api/internal/featureavailability/resolver.go:85-120 | Two scans give what one would |
| `FeatureAvailability.ResolveRuntimeQuery` | services/control-plane-api/internal/featureavailability/resolver.go:48-66 | The same for runtime queries |
| `FeatureAvailability.LatestObservationRegardlessFreshness` | services/control-plane-api/internal/featureavailability/resolver.go:152-164 | Finds the first of the latest observations |
| `FeatureAvailability.LatestObservation` | services/control-plane-api/internal/featureavailability/resolver.go:166-178 | Finds the first of the latest unexpired observations |
| `FeatureAvailability.SecondScanAgrees` | services/control-plane-api/internal/featureavailability/resolver.go:89-101 | When the first scan finds an unexpired observation or none, the second finds the same, ties included |
| `FeatureAvailability.SupersededDoesNotMatter` | services/control-plane-api/internal/featureavailability/resolver.go:85-120 | Forgetting any superseded observation changes no feature |
| `FeatureAvailability.TimeOnlyMakesStale` | services/control-plane-api/internal/featureavailability/resolver.go:94-98 | Over the same facts, as time passes a feature keeps its value or becomes Unknown and stale for good |
| `FeatureAvailability.StateByTheFacts` | services/control-plane-api/internal/featureavailability/resolver.go:33-150 | Each state of a feature, if and only if the facts call for it: available if whoever decides about it is there, healthy and without limitations, limited, unavailable, unsupported and not configured likewise |
| `FeatureAvailability.ResolvedAvailability` | services/control-plane-api/internal/featureavailability/resolver.go:11-150 | The same of the features that are resolved, for being available |
| `FeatureAvailability.ExplainedByTheDecider` | services/control-plane-api/internal/featureavailability/resolver.go:100-150 | Reason, time and limitations are those of the observation or provider that decided |
| `RuntimeConfig.NormalizeRuntimeConfig` | services/control-plane-api/internal/domain/domain.go:435-487 | Panics if and only if the configuration lists no ports and no endpoints, has no legacy port and asks for a legacy public endpoint; otherwise computes the normal form on the caller's arrays, and fills protocols and domains in there |
| `RuntimeConfig.NormalizeCompletes` | services/control-plane-api/internal/domain/domain.go:435-487 | Normalising gives exactly the one configuration in which every given value stays and every blank one is its default, field by field |
| `RuntimeConfig.IntentCompletes` | services/control-plane-api/internal/domain/domain.go:489-505 | The same for an intent, except that a legacy exposure always becomes an endpoint on the port named http |
| `RuntimeConfig.LegacyEndpointNeedsPort` | services/control-plane-api/internal/domain/domain.go:449-450 | Such a configuration panics whatever else it holds; a legacy port is enough to avoid it, and then the endpoint names that port |
| `RuntimeConfig.NormalizeIdempotent` | services/control-plane-api/internal/domain/domain.go:435-487 | Normalising twice is normalising once |
| `RuntimeConfig.SettledIsFixpoint` | services/control-plane-api/internal/domain/domain.go:435-487 | Up to unset lists, normalisation leaves a configuration as it is if and only if nothing is left to fill in |
| `RuntimeConfig.IntentRoundTrip` | services/control-plane-api/internal/domain/domain.go:507-514 | Through an intent and back only the parameters are lost |
| `RuntimeConfig.IntentReturns` | services/control-plane-api/internal/domain/domain.go:489-514 | Normalising an intent is idempotent, and a normalised intent comes back from its configuration |
| `RuntimeConfig.IntentAgreesWithConfiguration` | services/control-plane-api/internal/domain/domain.go:489-505 | Both normalisations agree if and only if a legacy endpoint, where there is one, meets a first port named http |
| `RuntimeConfig.NormalizeBoth` | services/control-plane-api/internal/domain/deployment.go:88-89 | Normalising two configurations that may share their arrays gives the normal form of each, and panics if and only if one of them does |
| `RuntimeConfig.PreviewDeployment` | services/control-plane-api/internal/domain/deployment.go:74-110 | Panics if and only if there is an existing deployment and one of the two configurations panics; for an existing deployment a rollout is required if and only if releases or normalised configurations differ, and each change is listed exactly when its part differs |
| `RuntimeConfig.CompareConfigurations` | services/control-plane-api/internal/domain/deployment.go:90-107 | Lists exactly the differing parts |
| `RuntimeValidation.ValidateRuntimeConfig` | services/control-plane-api/internal/domain/domain.go:516-618 | Accepts exactly the valid configurations |
| `RuntimeValidation.ValidatePorts` | services/control-plane-api/internal/domain/domain.go:520-535 | Accepts exactly distinct valid ports and collects their names |
| `RuntimeValidation.ValidateProbes` | services/control-plane-api/internal/domain/domain.go:542-555 | Accepts exactly probes of known kind that name a port |
| `RuntimeValidation.ValidateEndpoints` | services/control-plane-api/internal/domain/domain.go:556-588 | Accepts exactly at most two endpoints of different kinds and names |
| `RuntimeValidation.ValidateEnvironment` | services/control-plane-api/internal/domain/domain.go:589-617 | Accepts exactly variables and parameters whose names are valid and distinct across both |
| `RuntimeValidation.ValidIsFixpoint` | services/control-plane-api/internal/domain/domain.go:516-618 | A valid configuration without legacy fields is unchanged by normalisation, up to unset lists |
| `DeliveryWorker.RunOnce` | services/control-plane-api/internal/delivery/worker.go:42-87 | A claimed delivery is accounted for in full: which calls are made, and with which code and retry it is completed or failed, last and once; handled only if every candidate got its target, ignored only if there was nothing to do |
| `DeliveryWorker.CreateTargetFor` | services/control-plane-api/internal/delivery/worker.go:89-106 | At most three attempts, repeated only after an identifier collision |
| `DeliveryWorker.AdvanceOnce` | services/control-plane-api/internal/delivery/worker.go:108-139 | Fails if and only if listing fails or a target's own call fails with another error than a conflict; earlier targets were handled, the carried error never ends the round |
| `DeliveryWorker.Advance` | services/control-plane-api/internal/delivery/worker.go:114-134 | Writes exactly the status that the build's or deployment's outcome has earned, with its reason; deploys exactly a target that waits for it; otherwise does nothing |
| `DeliveryWorker.EarnedAhead` | services/control-plane-api/internal/delivery/worker.go:114-133 | At most one status is earned, and only one further on |
| `DeliveryWorker.WaitsExactly` | services/control-plane-api/internal/delivery/worker.go:114-133 | Nothing is done exactly for running builds, progressing deployments and finished targets |
| `DeliveryWorker.AccountRetriesRightly` | services/control-plane-api/internal/delivery/worker.go:68-86 | By the account, a failure is retried unless the commit or a target's environment does not exist or the commit is another one |
| `DeliveryWorker.AccountHandlesInFull` | services/control-plane-api/internal/delivery/worker.go:76-86 | By the account, a delivery is handled only if every candidate got its target |
| `DeliveryWorker.CreateDeploymentFor` | services/control-plane-api/internal/delivery/worker.go:141-172 | The deployment is created from the environment just read, under the target's key, and attached only if that succeeded |
| `DeliveryWorker.KeysDiffer` | services/control-plane-api/internal/delivery/worker.go:150-150 | Targets of different public identifiers have different texts to hash into their idempotency keys |
| `Backoff.DelayBounds` | services/cluster-agent/internal/agent/state.go:79-95 | For every draw the delay is at least 1 s and below 38.4 s, so the 60 s clamp never acts |
| `Backoff.DelaysExactly` | services/cluster-agent/internal/agent/state.go:79-95 | The delays of an attempt are exactly those from a fifth below 1, 2, 4, 8, 16 or 32 s up to a fifth above, not below 1 s |
| `Backoff.FirstSixIncrease` | services/cluster-agent/internal/agent/state.go:79-95 | The first six delays after a reset strictly increase, whatever is drawn |
| `Backoff.Counter.Next` | services/cluster-agent/internal/agent/state.go:79-95 | The method returns that delay and advances the counter, which wraps at 2^64 |
| `Backoff.Counter.Reset` | services/cluster-agent/internal/agent/state.go:77-77 | The counter starts again |
| `Cursor.CursorRoundTrip` | services/control-plane-api/internal/domain/cursor.go:9-28 | Every identifier from 1 to 2^63-1 is decoded from its cursor |
| `Cursor.CursorSpellsTheNumber` | services/control-plane-api/internal/domain/cursor.go:9-16 | The cursor is the identifier in base 64, most significant digit first, in eleven characters with two unused bits |
| `Cursor.Alphabet` | services/control-plane-api/internal/domain/cursor.go:15-15 | The characters are those of table 2 of RFC 4648 |
| `Cursor.EncodeInjective` | services/control-plane-api/internal/domain/cursor.go:9-16 | Different identifiers have different cursors |
| `Cursor.DecodedFits` | services/control-plane-api/internal/domain/cursor.go:18-28 | No decoded identifier is below 1 or above 2^63-1 |
| `Cursor.CanonicalCursor` | services/control-plane-api/internal/domain/cursor.go:18-28 | A cursor that decodes is the one issued for its identifier if and only if it has no line breaks and no stray trailing bits |
| `Cursor.CursorsOf` | services/control-plane-api/internal/domain/cursor.go:18-28 | A cursor decodes to an identifier if and only if, without its line breaks, it has eleven characters and differs from the issued cursor at most in the two low bits of the last one |
| `Cursor.StrayBitsAreIgnored` | services/control-plane-api/internal/domain/cursor.go:18-28 | Any two low bits of the last character give a cursor of the same identifier |
| `Cursor.LineBreaksAreSkipped` | services/control-plane-api/internal/domain/cursor.go:18-28 | Line breaks never change what a cursor decodes to |
| `Cursor.BytesRoundTrip` | services/control-plane-api/internal/domain/cursor.go:9-28 | Unpadded base64 decoding inverts encoding for every byte string |

## Left out

- Liveness: fairness, tickers and real time are not modelled; the theorems are about safety, and `ControlChannel.ChannelStaysInStep` and `SnapshotCache.EveryWaiterIsWoken` add that nobody waits for something that nobody will do.
- Queries that return before they reach a session (unknown installation, invalid session, bad deadline) hold nothing and are not actions of the transition system.
- QueryTheorems.SuccessIsTheHandlersAnswer: needs unique request identifiers, which the callers draw at random.
- Configuration.RunOperations: starts from a safe cluster, in which every annotated object carries the label that the collector lists by, every owned Secret has its ConfigMap and every reference of a live AppDeployment resolves, as an empty one does; a write that takes effect long after its call failed is not modelled.
- Configuration.DeleteDeployment: success does not promise that the object is gone, because Kubernetes may keep it until its finalizers have run.
- AgentIdentity.Live: one Agent process at a time; key generation, certificate parsing and TLS are a relation between keys and certificates.
- ControlChannel.ChannelStaysInStep: supposes what the surroundings promise, namely acceptable targets, an executor that echoes its command (proved of `Executor.Execute`) and at most one binding observation for each target.
- ControlHistory.HandledResultsWerePerformed: under the same suppositions, as are the other laws of `ControlHistory`.
- ControlHistory.TheAgentIsIntroduced: the provisioning mode is shown as the Agent writes it, where the registry is told the mode that was parsed from it.
- ControlServer.Connect: runtime and capability observations are opaque, and the peer's certificate was checked before; lengths of text are counted in characters.
- The correction of command deadlines for the clock difference would only add arithmetic.
- FeatureAvailability.Resolve: the final sort by identifier, since the catalog is in that order already.
- RuntimeConfig.NormalizeRuntimeConfig: arrays are shared whole; slices that overlap in part are not modelled.
- RuntimeConfig.IntentReturns: models conversion on values; the fields of an intent that normalisation does not touch are one opaque field.
- RuntimeValidation.ValidateRuntimeConfig: does not model which error message is returned; lengths of text are counted in characters where the code counts bytes.
- RuntimeValidation.ValidateEnvironment: lengths of names and values are counted in characters where the code counts bytes.
- DeliveryWorker.KeysDiffer: speaks of the text that is hashed into the key; the hash itself is not modelled.
- DeliveryWorker.RunOnce: does not model errors of the final Complete or Fail call itself, nor the lease of a claim.
- Status reporting, observation of deployments and volumes, and metrics would only add easy members.
- HTTP handlers, the SQL store, authorization, cryptography, pod logs, the command line and the console are not part of this model.
