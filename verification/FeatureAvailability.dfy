/**
 Feature availability: what a workspace can use, derived from facts about its cluster, its
 providers and the Agent's capability observations.
 */
module FeatureAvailability {
  import opened Options

  const CONTRACT := "v1alpha1"

  /** The identifiers of the catalog; observations and bindings may carry any other. */
  datatype Id =
    | BuildManaged | ControlPlaneEvents | ParametersPlain | ParametersSecret | PublicationHttp | PublicationTcp
    | ReleaseExternal | ReleaseHistory | RuntimeEvents | RuntimeLogs | RuntimeMetrics | WorkloadApply
    | WorkloadObserve | SourceGitHub | StorageExpand | StorageRwo | EventsHistorical | LogsHistorical
    | MetricsHistorical | Provisioning | Other(name: string)

  const Catalog := [
    BuildManaged, ControlPlaneEvents, ParametersPlain, ParametersSecret, PublicationHttp, PublicationTcp,
    ReleaseExternal, ReleaseHistory, RuntimeEvents, RuntimeLogs, RuntimeMetrics, WorkloadApply, WorkloadObserve,
    SourceGitHub, StorageExpand, StorageRwo, EventsHistorical, LogsHistorical, MetricsHistorical, Provisioning]

  datatype Availability = Available | Limited | NotConfigured | Unavailable | Unsupported | Unknown

  /** Times are numbers; an observation without `expires` never expires. */
  datatype Observation = Observation(id: Id, contract: string, support: string, health: string, reason: string,
                                     limitations: seq<string>, sampledAt: int, receivedAt: int, expires: Option<int>)

  datatype Binding = Binding(configured: bool, health: string, conformanceRequired: bool, conformant: bool,
                             reason: string,
                             limitations: seq<string>, observedAt: Option<int>)

  datatype Facts = Facts(attached: bool, connected: bool, capabilities: seq<string>, observations: seq<Observation>,
                         providers: map<Id, Binding>, mode: string)

  datatype Feature = Feature(id: Id, contract: string, state: Availability, reason: string, limitations: seq<string>,
                             observedAt: Option<int>)

  // ---------- The two scans

  predicate Expired(o: Observation, now: int) {
    o.expires.Some? && o.expires.value <= now
  }

  /** The observation counts in a scan for `id`; with `now` given, only while it has not expired. */
  predicate Counts(o: Observation, id: Id, now: Option<int>) {
    o.id == id && o.contract == CONTRACT && (now.Some? ==> !Expired(o, now.value))
  }

  /**
   Among the first `n`, position `k` holds the latest counting observation, and the first of those
   received at the same time.
   */
  predicate IsLatest(os: seq<Observation>, n: nat, id: Id, now: Option<int>, k: int)
    requires n <= |os|
  {
    && 0 <= k < n && Counts(os[k], id, now)
    && (forall j :: 0 <= j < n && Counts(os[j], id, now) ==> os[j].receivedAt <= os[k].receivedAt)
    && (forall j :: 0 <= j < k && Counts(os[j], id, now) ==> os[j].receivedAt < os[k].receivedAt)
  }

  ghost predicate Latest(os: seq<Observation>, id: Id, now: Option<int>, r: Option<Observation>) {
    if r.None? then forall j :: 0 <= j < |os| ==> !Counts(os[j], id, now)
    else exists k :: IsLatest(os, |os|, id, now, k) && os[k] == r.value
  }

  lemma LatestIsUnique(os: seq<Observation>, id: Id, now: Option<int>, a: Option<Observation>, b: Option<Observation>)
    requires Latest(os, id, now, a) && Latest(os, id, now, b)
    ensures a == b
  {
    if a.Some? && b.Some? {
      var i :| IsLatest(os, |os|, id, now, i) && os[i] == a.value;
      var j :| IsLatest(os, |os|, id, now, j) && os[j] == b.value;
      assert i == j;
    }
  }

  method LatestObservationRegardlessFreshness(id: Id, os: seq<Observation>) returns (latest: Option<Observation>)
    ensures Latest(os, id, None, latest)
  {
    latest := None;
    ghost var at := 0;
    for n := 0 to |os|
      invariant latest.None? ==> forall j :: 0 <= j < n ==> !Counts(os[j], id, None)
      invariant latest.Some? ==> IsLatest(os, n, id, None, at) && os[at] == latest.value
    {
      var observation := os[n];
      if observation.id != id || observation.contract != CONTRACT {
        continue;
      }
      if latest.None? || observation.receivedAt > latest.value.receivedAt {
        latest, at := Some(observation), n;
      }
    }
  }

  method LatestObservation(now: int, id: Id, os: seq<Observation>) returns (latest: Option<Observation>)
    ensures Latest(os, id, Some(now), latest)
  {
    latest := None;
    ghost var at := 0;
    for n := 0 to |os|
      invariant latest.None? ==> forall j :: 0 <= j < n ==> !Counts(os[j], id, Some(now))
      invariant latest.Some? ==> IsLatest(os, n, id, Some(now), at) && os[at] == latest.value
    {
      var observation := os[n];
      if observation.id != id || observation.contract != CONTRACT
        || (observation.expires.Some? && observation.expires.value <= now) {
        continue;
      }
      if latest.None? || observation.receivedAt > latest.value.receivedAt {
        latest, at := Some(observation), n;
      }
    }
  }

  /**
   If the first scan finds an unexpired observation, the second scan finds the same one; if it
   finds none, so does the second.
   */
  lemma SecondScanAgrees(os: seq<Observation>, id: Id, now: int, any: Option<Observation>, current: Option<Observation>)
    requires Latest(os, id, None, any) && Latest(os, id, Some(now), current)
    ensures any.None? || !Expired(any.value, now) ==> current == any
  {
    if any.Some? && !Expired(any.value, now) {
      var k :| IsLatest(os, |os|, id, None, k) && os[k] == any.value;
      assert IsLatest(os, |os|, id, Some(now), k);
      LatestIsUnique(os, id, Some(now), any, current);
    }
  }

  // ---------- Resolution, given the latest observation only

  function Plain(id: Id): Feature {
    Feature(id, CONTRACT, Available, "", [], None)
  }

  function First(value: string, fallback: string): string {
    if value != "" then value else fallback
  }

  function MissingReason(id: Id): string {
    if id in {StorageRwo, StorageExpand, PublicationHttp} then "binding_missing"
    else if id == ParametersSecret then "secret_backend_missing"
    else if id in {LogsHistorical, MetricsHistorical, EventsHistorical} then "historical_backend_missing"
    else "provider_not_configured"
  }

  function FromRuntime(f: Feature, facts: Facts): Feature {
    if !facts.attached then f.(state := NotConfigured, reason := "cluster_not_attached")
    else if !facts.connected then f.(state := Unknown, reason := "cluster_agent_offline")
    else if "runtime.v1alpha1" !in facts.capabilities
      then f.(state := Unsupported, reason := "cluster_capability_incompatible")
    else f.(state := Available)
  }

  function FromWorkspaceProvisioning(f: Feature, facts: Facts): Feature {
    var f := FromRuntime(f, facts);
    if !f.state.Available? then f
    else if "workspace-provisioning.v1alpha1" !in facts.capabilities
      then f.(state := Unsupported, reason := "cluster_capability_incompatible")
    else if facts.mode != "Namespaced" then f.(state := NotConfigured, reason := "workspace_provisioning_disabled")
    else f
  }

  function FromBinding(f: Feature, facts: Facts): Feature {
    if f.id !in facts.providers || !facts.providers[f.id].configured
      then f.(state := NotConfigured, reason := MissingReason(f.id))
    else
      var b := facts.providers[f.id];
      var f := f.(limitations := b.limitations, observedAt := b.observedAt);
      if b.health == "Healthy" then
        if b.conformanceRequired && !b.conformant
          then f.(state := Unknown, reason := First(b.reason, "provider_health_unknown"))
        else if b.limitations != [] then f.(state := Limited, reason := b.reason)
        else f.(state := Available)
      else if b.health == "Degraded" then f.(state := Limited, reason := First(b.reason, "binding_degraded"))
      else if b.health == "Unavailable" then f.(state := Unavailable, reason := First(b.reason, "provider_unreachable"))
      else f.(state := Unknown, reason := First(b.reason, "provider_health_unknown"))
  }

  predicate OnlyByBinding(id: Id) {
    id in {MetricsHistorical, StorageRwo, StorageExpand, PublicationHttp}
  }

  function FromObservation(f: Feature, o: Observation): Feature {
    var f := f.(observedAt := Some(o.sampledAt), limitations := o.limitations);
    if o.support == "Unsupported" then f.(state := Unsupported, reason := o.reason)
    else if o.support == "Unknown" || o.health == "Unknown" then f.(state := Unknown, reason := o.reason)
    else if o.health == "Healthy" && o.limitations != [] then f.(state := Limited, reason := o.reason)
    else if o.health == "Healthy" then f.(state := Available)
    else if o.health == "Degraded" then f.(state := Limited, reason := o.reason)
    else f.(state := Unavailable, reason := o.reason)
  }

  /** One scan is enough: `latest` is the latest observation of the feature, expired or not. */
  function FromProvider(now: int, f: Feature, facts: Facts, latest: Option<Observation>): Feature {
    if OnlyByBinding(f.id) || latest.None? then FromBinding(f, facts)
    else if !facts.connected then f.(state := Unknown, reason := "cluster_agent_offline")
    else if Expired(latest.value, now) then f.(state := Unknown, reason := "cluster_observation_stale",
                                               observedAt := Some(latest.value.sampledAt))
    else FromObservation(f, latest.value)
  }

  function FromRuntimeQuery(now: int, f: Feature, facts: Facts, latest: Option<Observation>): Feature {
    if !facts.attached then f.(state := NotConfigured, reason := "cluster_not_attached")
    else if !facts.connected then f.(state := Unknown, reason := "cluster_agent_offline")
    else if "runtime-query.v1alpha1" !in facts.capabilities
      then f.(state := Unsupported, reason := "runtime_query_unsupported")
    else if latest.None? then f.(state := Unknown, reason := "cluster_observation_stale")
    else FromProvider(now, f, facts, latest)
  }

  function Derived(now: int, id: Id, facts: Facts, latest: Option<Observation>): Feature {
    var f := Plain(id);
    if id in {ReleaseExternal, ReleaseHistory, ParametersPlain, ControlPlaneEvents} then f
    else if id in {WorkloadApply, WorkloadObserve} then FromRuntime(f, facts)
    else if id == Provisioning then FromWorkspaceProvisioning(f, facts)
    else if id in {RuntimeLogs, RuntimeMetrics, RuntimeEvents} then FromRuntimeQuery(now, f, facts, latest)
    else FromProvider(now, f, facts, latest)
  }

  /** The features are those derived from the latest observations. */
  ghost predicate Resolved(now: int, facts: Facts, features: seq<Feature>) {
    && |features| == |Catalog|
    && forall i, o :: 0 <= i < |Catalog| && Latest(facts.observations, Catalog[i], None, o) ==>
      features[i] == Derived(now, Catalog[i], facts, o)
  }

  // ---------- Resolution as it is computed, with both scans

  method ResolveProvider(now: int, f: Feature, facts: Facts, ghost latest: Option<Observation>) returns (r: Feature)
    requires Latest(facts.observations, f.id, None, latest)
    ensures r == FromProvider(now, f, facts, latest)
  {
    if OnlyByBinding(f.id) {
      return FromBinding(f, facts);
    }
    var any := LatestObservationRegardlessFreshness(f.id, facts.observations);
    LatestIsUnique(facts.observations, f.id, None, any, latest);
    if any.Some? {
      if !facts.connected {
        return f.(state := Unknown, reason := "cluster_agent_offline");
      }
      if Expired(any.value, now) {
        return f.(state := Unknown, reason := "cluster_observation_stale", observedAt := Some(any.value.sampledAt));
      }
    }
    var current := LatestObservation(now, f.id, facts.observations);
    SecondScanAgrees(facts.observations, f.id, now, any, current);
    if current.Some? {
      return FromObservation(f, current.value);
    }
    return FromBinding(f, facts);
  }

  method ResolveRuntimeQuery(now: int, f: Feature, facts: Facts, ghost latest: Option<Observation>) returns (r: Feature)
    requires Latest(facts.observations, f.id, None, latest)
    ensures r == FromRuntimeQuery(now, f, facts, latest)
  {
    if !facts.attached {
      return f.(state := NotConfigured, reason := "cluster_not_attached");
    }
    if !facts.connected {
      return f.(state := Unknown, reason := "cluster_agent_offline");
    }
    if "runtime-query.v1alpha1" !in facts.capabilities {
      return f.(state := Unsupported, reason := "runtime_query_unsupported");
    }
    var any := LatestObservationRegardlessFreshness(f.id, facts.observations);
    LatestIsUnique(facts.observations, f.id, None, any, latest);
    if any.None? {
      return f.(state := Unknown, reason := "cluster_observation_stale");
    }
    r := ResolveProvider(now, f, facts, latest);
  }

  method ResolveFeature(now: int, id: Id, facts: Facts) returns (f: Feature)
    ensures forall o :: Latest(facts.observations, id, None, o) ==> f == Derived(now, id, facts, o)
  {
    f := Plain(id);
    var latest := LatestObservationRegardlessFreshness(id, facts.observations);
    forall o | Latest(facts.observations, id, None, o)
      ensures o == latest
    {
      LatestIsUnique(facts.observations, id, None, o, latest);
    }
    if id in {ReleaseExternal, ReleaseHistory, ParametersPlain, ControlPlaneEvents} {
      return;
    }
    if id in {WorkloadApply, WorkloadObserve} {
      return FromRuntime(f, facts);
    }
    if id == Provisioning {
      return FromWorkspaceProvisioning(f, facts);
    }
    if id in {RuntimeLogs, RuntimeMetrics, RuntimeEvents} {
      f := ResolveRuntimeQuery(now, f, facts, latest);
    } else {
      f := ResolveProvider(now, f, facts, latest);
    }
  }

  method Resolve(now: int, facts: Facts) returns (features: seq<Feature>)
    ensures Resolved(now, facts, features)
  {
    features := [];
    for n := 0 to |Catalog|
      invariant |features| == n
      invariant forall i, o :: 0 <= i < n && Latest(facts.observations, Catalog[i], None, o) ==>
                features[i] == Derived(now, Catalog[i], facts, o)
    {
      var f := ResolveFeature(now, Catalog[n], facts);
      features := features + [f];
    }
  }

  // ---------- What the result depends on

  lemma LatestExists(os: seq<Observation>, id: Id, now: Option<int>) returns (r: Option<Observation>)
    ensures Latest(os, id, now, r)
  {
    r := None;
    var at := 0;
    for n := 0 to |os|
      invariant r.None? ==> forall j :: 0 <= j < n ==> !Counts(os[j], id, now)
      invariant r.Some? ==> IsLatest(os, n, id, now, at) && os[at] == r.value
    {
      if Counts(os[n], id, now) && (r.None? || os[n].receivedAt > r.value.receivedAt) {
        r, at := Some(os[n]), n;
      }
    }
  }

  /** A later observation of the same feature was received, or an earlier one in the list at the same time. */
  predicate Superseded(os: seq<Observation>, k: nat) {
    && k < |os|
    && exists j :: 0 <= j < |os| && j != k && os[j].id == os[k].id && os[j].contract == os[k].contract
                   && (os[j].receivedAt > os[k].receivedAt || (os[j].receivedAt == os[k].receivedAt && j < k))
  }

  function Without(os: seq<Observation>, k: nat): seq<Observation>
    requires k < |os|
  {
    seq(|os| - 1, j requires 0 <= j < |os| - 1 => if j < k then os[j] else os[j + 1])
  }

  lemma LatestIsNotSuperseded(os: seq<Observation>, id: Id, k: nat)
    requires IsLatest(os, |os|, id, None, k)
    ensures !Superseded(os, k)
  {
  }

  lemma LatestMoves(os: seq<Observation>, id: Id, i: nat, k: nat)
    requires IsLatest(os, |os|, id, None, i) && k < |os| && i != k
    ensures IsLatest(Without(os, k), |os| - 1, id, None, if i < k then i else i - 1)
  {
    var less := Without(os, k);
    forall j | 0 <= j < |less| && Counts(less[j], id, None)
      ensures less[j].receivedAt <= os[i].receivedAt
      ensures (j < (if i < k then i else i - 1) ==> less[j].receivedAt < os[i].receivedAt)
    {
      assert Counts(os[if j < k then j else j + 1], id, None);
    }
  }

  lemma SupersededIsNotLatest(os: seq<Observation>, k: nat, id: Id, r: Option<Observation>)
    requires Superseded(os, k) && Latest(os, id, None, r)
    ensures Latest(Without(os, k), id, None, r)
  {
    if r.Some? {
      var i :| IsLatest(os, |os|, id, None, i) && os[i] == r.value;
      LatestIsNotSuperseded(os, id, i);
      LatestMoves(os, id, i, k);
    }
  }

  lemma SameLatest(os: seq<Observation>, k: nat, id: Id, r: Option<Observation>)
    requires Superseded(os, k)
    ensures Latest(os, id, None, r) <==> Latest(Without(os, k), id, None, r)
  {
    var latest := LatestExists(os, id, None);
    SupersededIsNotLatest(os, k, id, latest);
    if Latest(os, id, None, r) {
      LatestIsUnique(os, id, None, r, latest);
    }
    if Latest(Without(os, k), id, None, r) {
      LatestIsUnique(Without(os, k), id, None, r, latest);
    }
  }

  lemma DerivedReadsNoObservations(now: int, id: Id, facts: Facts, os: seq<Observation>, latest: Option<Observation>)
    ensures Derived(now, id, facts, latest) == Derived(now, id, facts.(observations := os), latest)
  {
  }

  /** Forgetting a superseded observation changes no feature. */
  lemma SupersededDoesNotMatter(now: int, facts: Facts, k: nat, features: seq<Feature>)
    requires Superseded(facts.observations, k)
    ensures Resolved(now, facts, features) <==>
            Resolved(now, facts.(observations := Without(facts.observations, k)), features)
  {
    var os := Without(facts.observations, k);
    forall i, o | 0 <= i < |Catalog|
      ensures Latest(facts.observations, Catalog[i], None, o) <==> Latest(os, Catalog[i], None, o)
      ensures Derived(now, Catalog[i], facts, o) == Derived(now, Catalog[i], facts.(observations := os), o)
    {
      SameLatest(facts.observations, k, Catalog[i], o);
      DerivedReadsNoObservations(now, Catalog[i], facts, os, o);
    }
  }

  // ---------- What each state means

  /** Who decides about a feature */
  datatype Decider = Nobody | Agent | AgentsProvisioner | AgentsObservation | Provider | ObservationOrProvider

  function DeciderOf(id: Id): Decider {
    match id
    case ReleaseExternal | ReleaseHistory | ParametersPlain | ControlPlaneEvents => Nobody
    case WorkloadApply | WorkloadObserve => Agent
    case Provisioning => AgentsProvisioner
    case RuntimeLogs | RuntimeMetrics | RuntimeEvents => AgentsObservation
    case MetricsHistorical | StorageRwo | StorageExpand | PublicationHttp => Provider
    case _ => ObservationOrProvider
  }

  lemma DerivedFromDecider(now: int, id: Id, facts: Facts, latest: Option<Observation>)
    ensures Derived(now, id, facts, latest) == match DeciderOf(id)
      case Nobody => Plain(id)
      case Agent => FromRuntime(Plain(id), facts)
      case AgentsProvisioner => FromWorkspaceProvisioning(Plain(id), facts)
      case AgentsObservation => FromRuntimeQuery(now, Plain(id), facts, latest)
      case _ => FromProvider(now, Plain(id), facts, latest)
    ensures OnlyByBinding(id) <==> DeciderOf(id).Provider?
  {
  }

  predicate Attached(facts: Facts) { facts.attached && facts.connected }

  /** The Agent is there and runs workloads. */
  predicate Runs(facts: Facts) {
    Attached(facts) && "runtime.v1alpha1" in facts.capabilities
  }

  predicate CanProvision(facts: Facts) { "workspace-provisioning.v1alpha1" in facts.capabilities }
  predicate CanQuery(facts: Facts) { "runtime-query.v1alpha1" in facts.capabilities }

  /** The latest observation decides about the feature. */
  predicate ByObservation(now: int, id: Id, facts: Facts, latest: Option<Observation>) {
    && latest.Some? && facts.connected && !Expired(latest.value, now)
    && (DeciderOf(id).ObservationOrProvider?
        || (DeciderOf(id).AgentsObservation? && facts.attached && CanQuery(facts)))
  }

  /** The provider decides about the feature, if one is configured. */
  predicate ByProvider(id: Id, latest: Option<Observation>) {
    DeciderOf(id).Provider? || (DeciderOf(id).ObservationOrProvider? && latest.None?)
  }

  predicate Configured(id: Id, facts: Facts) {
    id in facts.providers && facts.providers[id].configured
  }

  predicate ByBinding(id: Id, facts: Facts, latest: Option<Observation>) {
    ByProvider(id, latest) && Configured(id, facts)
  }

  predicate Supported(o: Observation) {
    o.support != "Unsupported" && o.support != "Unknown"
  }

  predicate Proven(b: Binding) {
    b.health == "Healthy" && (b.conformanceRequired ==> b.conformant)
  }

  // What an observation and a configured provider say

  predicate GoodObservation(o: Observation) { Supported(o) && o.health == "Healthy" && o.limitations == [] }
  predicate LimitingObservation(o: Observation) {
    Supported(o) && (o.health == "Degraded" || (o.health == "Healthy" && o.limitations != []))
  }
  predicate BadObservation(o: Observation) {
    Supported(o) && o.health != "Healthy" && o.health != "Degraded" && o.health != "Unknown"
  }

  predicate GoodBinding(b: Binding) { Proven(b) && b.limitations == [] }
  predicate LimitingBinding(b: Binding) { b.health == "Degraded" || (Proven(b) && b.limitations != []) }
  predicate BadBinding(b: Binding) { b.health == "Unavailable" }

  lemma ObservationSays(f: Feature, o: Observation)
    ensures var state := FromObservation(f, o).state;
            && (state.Available? <==> GoodObservation(o)) && (state.Limited? <==> LimitingObservation(o))
            && (state.Unavailable? <==> BadObservation(o)) && (state.Unsupported? <==> o.support == "Unsupported")
            && !state.NotConfigured?
  {
  }

  lemma BindingSays(f: Feature, facts: Facts)
    ensures var state := FromBinding(f, facts).state;
            if Configured(f.id, facts) then
              && (state.Available? <==> GoodBinding(facts.providers[f.id]))
              && (state.Limited? <==> LimitingBinding(facts.providers[f.id]))
              && (state.Unavailable? <==> BadBinding(facts.providers[f.id]))
              && !state.Unsupported? && !state.NotConfigured?
            else state.NotConfigured?
  {
  }

  /**
   The state of every feature, by the facts: available if whoever decides about it is there, healthy and
   names no limitation; limited if degraded or with limitations; and so on. In all other cases, an Agent
   that is not connected and an expired observation among them, it is unknown.
   */
  lemma StateByTheFacts(now: int, id: Id, facts: Facts, latest: Option<Observation>)
    ensures var d, state := DeciderOf(id), Derived(now, id, facts, latest).state;
            && (state.Available? <==>
                || d.Nobody? || (d.Agent? && Runs(facts))
                || (d.AgentsProvisioner? && Runs(facts) && CanProvision(facts) && facts.mode == "Namespaced")
                || (ByObservation(now, id, facts, latest) && GoodObservation(latest.value))
                || (ByBinding(id, facts, latest) && GoodBinding(facts.providers[id])))
            && (state.Limited? <==>
                || (ByObservation(now, id, facts, latest) && LimitingObservation(latest.value))
                || (ByBinding(id, facts, latest) && LimitingBinding(facts.providers[id])))
            && (state.Unavailable? <==>
                || (ByObservation(now, id, facts, latest) && BadObservation(latest.value))
                || (ByBinding(id, facts, latest) && BadBinding(facts.providers[id])))
            && (state.Unsupported? <==>
                || (ByObservation(now, id, facts, latest) && latest.value.support == "Unsupported")
                || ((d.Agent? || d.AgentsProvisioner?) && Attached(facts) && !Runs(facts))
                || (d.AgentsProvisioner? && Attached(facts) && !CanProvision(facts))
                || (d.AgentsObservation? && Attached(facts) && !CanQuery(facts)))
            && (state.NotConfigured? <==>
                || (!facts.attached && (d.Agent? || d.AgentsProvisioner? || d.AgentsObservation?))
                || (d.AgentsProvisioner? && Runs(facts) && CanProvision(facts) && facts.mode != "Namespaced")
                || (ByProvider(id, latest) && !Configured(id, facts)))
  {
    DerivedFromDecider(now, id, facts, latest);
    BindingSays(Plain(id), facts);
    if latest.Some? {
      ObservationSays(Plain(id), latest.value);
    }
  }

  /** Whoever decides about a feature also says why, since when and with which limitations. */
  lemma ExplainedByTheDecider(now: int, id: Id, facts: Facts, latest: Option<Observation>)
    ensures var f := Derived(now, id, facts, latest);
            && f.id == id && (f.state.Available? ==> f.reason == "")
            && (ByObservation(now, id, facts, latest) ==>
                  && f.limitations == latest.value.limitations && f.observedAt == Some(latest.value.sampledAt)
                  && (!f.state.Available? ==> f.reason == latest.value.reason))
            && (ByBinding(id, facts, latest) ==>
                  var b := facts.providers[id];
                  && f.limitations == b.limitations && f.observedAt == b.observedAt
                  && (b.reason != "" && !f.state.Available? ==> f.reason == b.reason))
            && (f.limitations != [] ==> ByObservation(now, id, facts, latest) || ByBinding(id, facts, latest))
  {
    DerivedFromDecider(now, id, facts, latest);
  }

  /** The same of the features that are resolved: each is the catalog's, in its state by the facts. */
  lemma ResolvedAvailability(now: int, facts: Facts, features: seq<Feature>, i: nat, latest: Option<Observation>)
    requires Resolved(now, facts, features) && i < |Catalog|
    requires Latest(facts.observations, Catalog[i], None, latest)
    ensures var id, d := Catalog[i], DeciderOf(Catalog[i]);
            && features[i].id == id
            && (features[i].state.Available? <==>
                || d.Nobody? || (d.Agent? && Runs(facts))
                || (d.AgentsProvisioner? && Runs(facts) && CanProvision(facts) && facts.mode == "Namespaced")
                || (ByObservation(now, id, facts, latest) && GoodObservation(latest.value))
                || (ByBinding(id, facts, latest) && GoodBinding(facts.providers[id])))
  {
    assert features[i] == Derived(now, Catalog[i], facts, latest);
    StateByTheFacts(now, Catalog[i], facts, latest);
    ExplainedByTheDecider(now, Catalog[i], facts, latest);
  }

  lemma DerivedOverTime(now: int, later: int, id: Id, facts: Facts, latest: Option<Observation>)
    requires now <= later
    ensures var f := Derived(later, id, facts, latest);
            || f == Derived(now, id, facts, latest)
            || (f.state.Unknown? && f.reason == "cluster_observation_stale"
                && forall t :: t >= later ==> Derived(t, id, facts, latest) == f)
  {
  }

  /** As time passes over the same facts, a feature keeps its value or becomes stale for good. */
  lemma TimeOnlyMakesStale(now: int, later: int, facts: Facts, before: seq<Feature>, after: seq<Feature>, i: nat)
    requires now <= later && i < |Catalog| && Resolved(now, facts, before) && Resolved(later, facts, after)
    ensures || after[i] == before[i]
            || (after[i].state.Unknown? && after[i].reason == "cluster_observation_stale"
                && forall t, features :: t >= later && Resolved(t, facts, features) ==> features[i] == after[i])
  {
    var latest := LatestExists(facts.observations, Catalog[i], None);
    DerivedOverTime(now, later, Catalog[i], facts, latest);
    assert after[i] == Derived(later, Catalog[i], facts, latest)
           && before[i] == Derived(now, Catalog[i], facts, latest);
    forall t, features | t >= later && Resolved(t, facts, features)
      ensures features[i] == Derived(t, Catalog[i], facts, latest)
    {
    }
  }
}
