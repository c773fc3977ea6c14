/**
 Runtime configuration: normalising it, converting it to and from an intent, and previewing
 what a deployment would change. A slice that was never set is None, an empty one is Some([]).
 */
module RuntimeConfig {
  import opened Options

  const TCP := "TCP"
  const HTTP := "HTTP"
  const PUBLIC := "Public"
  const DEFAULT_DOMAIN := "default"

  datatype Port = Port(name: string, containerPort: int, protocol: string)
  datatype Endpoint = Endpoint(name: string, kind: string, portName: string, domain: string, hostname: string,
                               externalPort: int)
  datatype Probe = Probe(kind: string, portName: string, path: string)
  datatype Probes = Probes(startup: Probe, liveness: Probe, readiness: Probe)
  datatype Resources = Resources(requestCpu: int, requestMemory: int, limitCpu: int, limitMemory: int)
  datatype Variable = Variable(name: string, value: string)
  datatype Parameter = Parameter(name: string, publicId: string, version: int)

  /** `port`, `exposure` and `slug` are the legacy fields. */
  datatype Config = Config(replicas: int, ports: Option<seq<Port>>, resources: Resources, probes: Probes,
                           endpoints: Option<seq<Endpoint>>, variables: Option<seq<Variable>>,
                           parameters: Option<seq<Parameter>>, port: int, exposure: string, slug: string)

  function Elements<T>(s: Option<seq<T>>): seq<T> {
    if s.Some? then s.value else []
  }

  function OrEmpty<T>(s: Option<seq<T>>): Option<seq<T>> {
    Some(Elements(s))
  }

  // ---------- Normalisation on values

  function WithProtocol(p: Port): Port {
    if p.protocol == "" then p.(protocol := TCP) else p
  }

  function WithProtocols(ps: seq<Port>): seq<Port> {
    seq(|ps|, i requires 0 <= i < |ps| => WithProtocol(ps[i]))
  }

  function WithDomain(e: Endpoint): Endpoint {
    if e.domain == "" then e.(domain := DEFAULT_DOMAIN) else e
  }

  function WithDomains(es: seq<Endpoint>): seq<Endpoint> {
    seq(|es|, i requires 0 <= i < |es| => WithDomain(es[i]))
  }

  function PortsOf(c: Config): seq<Port> {
    if Elements(c.ports) == [] && c.port != 0 then [Port("http", c.port, TCP)] else WithProtocols(Elements(c.ports))
  }

  /** The configuration asks for a legacy public endpoint. */
  predicate LegacyEndpoint(c: Config) {
    Elements(c.endpoints) == [] && c.exposure == PUBLIC && c.slug != ""
  }

  /** The name of the first port; None where indexing an empty list panics. */
  function FirstName(ps: seq<Port>): Option<string> {
    if ps == [] then None else Some(ps[0].name)
  }

  function EndpointsOf(c: Config): Option<seq<Endpoint>> {
    if LegacyEndpoint(c) then
      match FirstName(PortsOf(c))
      case None => None
      case Some(name) => Some([Endpoint("web", HTTP, name, DEFAULT_DOMAIN, c.slug, 0)])
    else Some(WithDomains(Elements(c.endpoints)))
  }

  function DefaultName(ps: seq<Port>): string {
    if ps == [] then "" else ps[0].name
  }

  function WithDefaults(p: Probe, name: string): Probe {
    Probe(if p.kind == "" then HTTP else p.kind, if p.portName == "" then name else p.portName, p.path)
  }

  function ProbesOf(p: Probes, name: string): Probes {
    var readiness := WithDefaults(p.readiness, name);
    Probes(if p.startup.kind == "" && p.startup.path == "" then readiness else WithDefaults(p.startup, name),
           WithDefaults(p.liveness, name), readiness)
  }

  /** None where the code panics */
  function Normalize(c: Config): Option<Config> {
    match EndpointsOf(c)
    case None => None
    case Some(endpoints) =>
      Some(Config(if c.replicas == 0 then 1 else c.replicas, Some(PortsOf(c)), c.resources,
                  ProbesOf(c.probes, DefaultName(PortsOf(c))), Some(endpoints),
                  OrEmpty(c.variables), OrEmpty(c.parameters), 0, "", ""))
  }

  /** The configuration lists no ports and no endpoints, has no legacy port, and asks for a legacy public endpoint. */
  predicate Panics(c: Config) {
    Elements(c.ports) == [] && c.port == 0 && Elements(c.endpoints) == [] && c.exposure == PUBLIC && c.slug != ""
  }

  lemma PanicsExactly(c: Config)
    ensures Normalize(c).None? <==> Panics(c)
  {
  }

  /** A legacy public endpoint panics without a port; the legacy port alone is enough to avoid it. */
  lemma LegacyEndpointNeedsPort(c: Config, slug: string, port: int)
    requires slug != "" && port != 0
    ensures var bare := c.(ports := None, endpoints := None, port := 0, exposure := PUBLIC, slug := slug);
            && Normalize(bare).None?
            && Normalize(bare.(port := port)).Some?
            && Normalize(bare.(port := port)).value.endpoints ==
              Some([Endpoint("web", HTTP, "http", DEFAULT_DOMAIN, slug, 0)])
  {
    var bare := c.(ports := None, endpoints := None, port := 0, exposure := PUBLIC, slug := slug);
    PanicsExactly(bare);
    PanicsExactly(bare.(port := port));
  }

  // ---------- Normalisation in place

  /** A configuration as the code holds it: its ports and endpoints are shared with whoever else holds the arrays. */
  datatype Shared = Shared(replicas: int, ports: array?<Port>, resources: Resources, probes: Probes,
                           endpoints: array?<Endpoint>, variables: Option<seq<Variable>>,
                           parameters: Option<seq<Parameter>>, port: int, exposure: string, slug: string)
  {
    ghost function Arrays(): set<object> {
      (if ports == null then {} else {ports as object}) + (if endpoints == null then {} else {endpoints as object})
    }

    function Value(): Config
      reads ports, endpoints
    {
      Config(replicas, if ports == null then None else Some(ports[..]), resources, probes,
             if endpoints == null then None else Some(endpoints[..]), variables, parameters, port, exposure, slug)
    }
  }

  method FillProtocols(ports: array<Port>)
    modifies ports
    ensures ports[..] == WithProtocols(old(ports[..]))
  {
    for i := 0 to ports.Length
      invariant forall k :: 0 <= k < i ==> ports[k] == WithProtocol(old(ports[k]))
      invariant forall k :: i <= k < ports.Length ==> ports[k] == old(ports[k])
    {
      if ports[i].protocol == "" {
        ports[i] := ports[i].(protocol := TCP);
      }
    }
  }

  method FillDomains(endpoints: array<Endpoint>)
    modifies endpoints
    ensures endpoints[..] == WithDomains(old(endpoints[..]))
  {
    for i := 0 to endpoints.Length
      invariant forall k :: 0 <= k < i ==> endpoints[k] == WithDomain(old(endpoints[k]))
      invariant forall k :: i <= k < endpoints.Length ==> endpoints[k] == old(endpoints[k])
    {
      if endpoints[i].domain == "" {
        endpoints[i] := endpoints[i].(domain := DEFAULT_DOMAIN);
      }
    }
  }

  /** The ports of the result: a new list of one, or the caller's own list after it was filled in. */
  method NormalizePorts(c: Shared) returns (ports: array<Port>)
    modifies c.ports
    ensures ports[..] == PortsOf(old(c.Value()))
    ensures ports == c.ports || fresh(ports)
    ensures c.ports != null ==> c.ports[..] == WithProtocols(old(c.ports[..]))
  {
    if (c.ports == null || c.ports.Length == 0) && c.port != 0 {
      ports := new Port[1](_ => Port("http", c.port, TCP));
    } else if c.ports == null {
      ports := new Port[0];
    } else {
      ports := c.ports;
    }
    FillProtocols(ports);
  }

  /** None where the code reads the name of the first port and there is no port */
  method NormalizeEndpoints(c: Shared, ports: array<Port>) returns (r: Option<array<Endpoint>>)
    requires ports[..] == PortsOf(c.Value())
    modifies c.endpoints
    ensures r.None? <==> EndpointsOf(old(c.Value())).None?
    ensures r.Some? ==> EndpointsOf(old(c.Value())) == Some(r.value[..]) && (r.value == c.endpoints || fresh(r.value))
    ensures c.endpoints != null ==> c.endpoints[..] == WithDomains(old(c.endpoints[..]))
  {
    var endpoints: array<Endpoint>;
    if (c.endpoints == null || c.endpoints.Length == 0) && c.exposure == PUBLIC && c.slug != "" {
      if ports.Length == 0 {
        return None;
      }
      var name := ports[0].name;
      endpoints := new Endpoint[1](_ => Endpoint("web", HTTP, name, DEFAULT_DOMAIN, c.slug, 0));
    } else if c.endpoints == null {
      endpoints := new Endpoint[0];
    } else {
      endpoints := c.endpoints;
    }
    FillDomains(endpoints);
    assert endpoints[..] == EndpointsOf(old(c.Value())).value;
    r := Some(endpoints);
  }

  lemma PortsOfAgain(c: Config, ports: Option<seq<Port>>)
    requires ports.Some? <==> c.ports.Some?
    requires ports.Some? ==> ports.value == WithProtocols(c.ports.value)
    ensures PortsOf(c.(ports := ports)) == PortsOf(c) && EndpointsOf(c.(ports := ports)) == EndpointsOf(c)
  {
    assert PortsOf(c.(ports := ports)) == PortsOf(c);
  }

  /** Panics, as None, exactly on a legacy public endpoint without ports; otherwise works on the caller's arrays. */
  method NormalizeRuntimeConfig(c: Shared) returns (r: Option<Shared>)
    modifies c.ports, c.endpoints
    ensures r.None? <==> Panics(old(c.Value()))
    ensures r.Some? ==>
              && Normalize(old(c.Value())) == Some(r.value.Value()) && Completes(old(c.Value()), r.value.Value())
              && r.value.ports != null && r.value.endpoints != null
              && (r.value.ports == c.ports || fresh(r.value.ports))
              && (r.value.endpoints == c.endpoints || fresh(r.value.endpoints))
    ensures c.ports != null ==> c.ports[..] == WithProtocols(old(c.ports[..]))
    ensures c.endpoints != null ==> c.endpoints[..] == WithDomains(old(c.endpoints[..]))
  {
    ghost var before := c.Value();
    PanicsExactly(before);
    var ports := NormalizePorts(c);
    PortsOfAgain(before, c.Value().ports);
    var endpoints := NormalizeEndpoints(c, ports);
    if endpoints.None? {
      return None;
    }
    var name := if ports.Length > 0 then ports[0].name else "";
    r := Some(Shared(if c.replicas == 0 then 1 else c.replicas, ports, c.resources, ProbesOf(c.probes, name),
                     endpoints.value, OrEmpty(c.variables), OrEmpty(c.parameters), 0, "", ""));
    NormalizeCompletes(before, r.value.Value());
  }

  // ---------- What normalisation fills in

  /** The value that was given, or the default where it was left blank */
  predicate Given(value: string, given: string, default: string) {
    if given == "" then value == default else value == given
  }

  predicate PortsCompleted(c: Config, ps: seq<Port>) {
    if Elements(c.ports) == [] then ps == if c.port == 0 then [] else [Port("http", c.port, "TCP")]
    else
      && |ps| == |Elements(c.ports)|
      && forall i :: 0 <= i < |ps| ==>
           var p := Elements(c.ports)[i];
           ps[i].name == p.name && ps[i].containerPort == p.containerPort && Given(ps[i].protocol, p.protocol, "TCP")
  }

  /** A public legacy exposure becomes the endpoint "web" on the first port. */
  predicate EndpointsCompleted(c: Config, ps: seq<Port>, es: seq<Endpoint>) {
    if Elements(c.endpoints) == [] then
      if c.exposure == "Public" && c.slug != ""
      then ps != [] && es == [Endpoint("web", "HTTP", ps[0].name, "default", c.slug, 0)] else es == []
    else
      && |es| == |Elements(c.endpoints)|
      && forall i :: 0 <= i < |es| ==>
           var e := Elements(c.endpoints)[i];
           && es[i].name == e.name && es[i].kind == e.kind && es[i].portName == e.portName
           && es[i].hostname == e.hostname && es[i].externalPort == e.externalPort
           && Given(es[i].domain, e.domain, "default")
  }

  /** Probes are of HTTP on the first port, if there is one. */
  predicate ProbeCompleted(given: Probe, ps: seq<Port>, p: Probe) {
    && Given(p.kind, given.kind, "HTTP") && p.path == given.path
    && Given(p.portName, given.portName, if ps == [] then "" else ps[0].name)
  }

  /** `n` is `c` with just the defaults filled in: what was given stays, and what was left out is the default. */
  predicate Completes(c: Config, n: Config) {
    && n.replicas == (if c.replicas == 0 then 1 else c.replicas) && n.resources == c.resources
    && n.variables == Some(Elements(c.variables)) && n.parameters == Some(Elements(c.parameters))
    && n.port == 0 && n.exposure == "" && n.slug == ""
    && n.ports.Some? && PortsCompleted(c, n.ports.value)
    && n.endpoints.Some? && EndpointsCompleted(c, n.ports.value, n.endpoints.value)
    && ProbeCompleted(c.probes.liveness, n.ports.value, n.probes.liveness)
    && ProbeCompleted(c.probes.readiness, n.ports.value, n.probes.readiness)
    && if c.probes.startup.kind == "" && c.probes.startup.path == "" then n.probes.startup == n.probes.readiness
       else ProbeCompleted(c.probes.startup, n.ports.value, n.probes.startup)
  }

  lemma CompletedIsUnique(c: Config, m: Config, n: Config)
    requires Completes(c, m) && Completes(c, n)
    ensures m == n
  {
    assert m.ports.value == n.ports.value;
    assert m.endpoints.value == n.endpoints.value;
  }

  /** Normalising gives the one configuration that completes the given one. */
  lemma NormalizeCompletes(c: Config, n: Config)
    ensures Normalize(c) == Some(n) <==> Completes(c, n)
  {
    if Normalize(c).Some? {
      assert Completes(c, Normalize(c).value);
      if Completes(c, n) {
        CompletedIsUnique(c, Normalize(c).value, n);
      }
    }
  }

  // ---------- Algebra

  lemma NormalizedIsFilled(c: Config)
    ensures WithProtocols(PortsOf(c)) == PortsOf(c)
    ensures EndpointsOf(c).Some? ==> WithDomains(EndpointsOf(c).value) == EndpointsOf(c).value
  {
  }

  /** Normalising twice is normalising once. */
  lemma NormalizeIdempotent(c: Config)
    requires Normalize(c).Some?
    ensures Normalize(Normalize(c).value) == Normalize(c)
  {
    NormalizedIsFilled(c);
  }

  /** Nothing is left to fill in. */
  predicate Settled(c: Config) {
    && c.replicas != 0 && c.port == 0 && c.exposure == "" && c.slug == ""
    && (forall i :: 0 <= i < |Elements(c.ports)| ==> Elements(c.ports)[i].protocol != "")
    && (forall i :: 0 <= i < |Elements(c.endpoints)| ==> Elements(c.endpoints)[i].domain != "")
    && ProbesOf(c.probes, DefaultName(Elements(c.ports))) == c.probes
  }

  function Filled(c: Config): Config {
    c.(ports := OrEmpty(c.ports), endpoints := OrEmpty(c.endpoints), variables := OrEmpty(c.variables),
       parameters := OrEmpty(c.parameters))
  }

  /** Up to unset lists, normalisation leaves exactly the settled configurations as they are. */
  lemma SettledIsFixpoint(c: Config)
    ensures Normalize(c) == Some(Filled(c)) <==> Settled(c)
  {
    var ps, es := Elements(c.ports), Elements(c.endpoints);
    if Settled(c) {
      assert WithProtocols(ps) == ps && WithDomains(es) == es;
    }
  }

  // ---------- Intents

  datatype Intent = Intent(image: string, replicas: int, ports: Option<seq<Port>>, resources: Resources, probes: Probes,
                           endpoints: Option<seq<Endpoint>>, variables: Option<seq<Variable>>, others: string,
                           port: int, exposure: string, slug: string)

  function ConfigurationFromIntent(i: Intent): Config {
    Config(i.replicas, i.ports, i.resources, i.probes, i.endpoints, i.variables, Some([]), i.port, i.exposure, i.slug)
  }

  function IntentFromConfiguration(image: string, c: Config): Option<Intent> {
    var n := Normalize(c);
    if n.None? then None
    else Some(Intent(image, n.value.replicas, n.value.ports, n.value.resources, n.value.probes, n.value.endpoints,
                     n.value.variables, "", 0, "", ""))
  }

  /** The intent with its legacy fields written out, as normalisation of an intent begins */
  function WrittenOut(i: Intent): Intent {
    i.(ports := if Elements(i.ports) == [] && i.port != 0 then Some([Port("http", i.port, TCP)]) else i.ports,
       endpoints := if LegacyEndpoint(ConfigurationFromIntent(i))
         then Some([Endpoint("web", HTTP, "http", "", i.slug, 0)]) else i.endpoints)
  }

  /** Unlike a configuration, an intent can always be normalised. */
  function NormalizeIntent(i: Intent): Intent {
    var n := Normalize(ConfigurationFromIntent(WrittenOut(i))).value;
    i.(replicas := n.replicas, ports := n.ports, resources := n.resources, probes := n.probes, endpoints := n.endpoints,
       variables := n.variables,
       port := 0, exposure := "", slug := "")
  }

  /** Only the parameters are lost on the way through an intent. */
  lemma IntentRoundTrip(image: string, c: Config)
    requires Normalize(c).Some?
    ensures ConfigurationFromIntent(IntentFromConfiguration(image, c).value) ==
            Normalize(c).value.(parameters := Some([]))
  {
  }

  /** A normalised intent comes back from its configuration, whatever it was before. */
  lemma IntentReturns(i: Intent)
    ensures NormalizeIntent(NormalizeIntent(i)) == NormalizeIntent(i)
    ensures IntentFromConfiguration(i.image, ConfigurationFromIntent(NormalizeIntent(i))) ==
            Some(NormalizeIntent(i).(others := ""))
  {
    var c := ConfigurationFromIntent(WrittenOut(i));
    var n := NormalizeIntent(i);
    NormalizeIdempotent(c);
    assert ConfigurationFromIntent(n) == Normalize(c).value.(parameters := Some([])) == Normalize(c).value;
    assert WrittenOut(n) == n;
  }

  /**
   A normalised intent is the given one, completed; only a public legacy exposure becomes an endpoint
   on the port "http" here, whatever the ports are called.
   */
  lemma IntentCompletes(i: Intent)
    ensures var c, n := ConfigurationFromIntent(i), ConfigurationFromIntent(NormalizeIntent(i));
            && NormalizeIntent(i).image == i.image && NormalizeIntent(i).others == i.others
            && (LegacyEndpoint(c) ==>
                  && n.endpoints == Some([Endpoint("web", "HTTP", "http", "default", i.slug, 0)])
                  && Completes(c.(exposure := ""), n.(endpoints := Some([]))))
            && (!LegacyEndpoint(c) ==> Completes(c, n))
  {
    var c, w := ConfigurationFromIntent(i), ConfigurationFromIntent(WrittenOut(i));
    var n := ConfigurationFromIntent(NormalizeIntent(i));
    assert PortsOf(w) == PortsOf(c);
    if LegacyEndpoint(c) {
      assert n.endpoints.value == [Endpoint("web", HTTP, "http", DEFAULT_DOMAIN, c.slug, 0)];
      NormalizeCompletes(c.(exposure := ""), n.(endpoints := Some([])));
    } else {
      NormalizeCompletes(c, n);
    }
  }

  /** Both normalisations agree unless a legacy endpoint has no port, or a first port of another name than http. */
  lemma IntentAgreesWithConfiguration(i: Intent)
    ensures var c := ConfigurationFromIntent(i);
            Normalize(c) == Some(ConfigurationFromIntent(NormalizeIntent(i))) <==>
            (LegacyEndpoint(c) ==> PortsOf(c) != [] && PortsOf(c)[0].name == "http")
  {
    var c := ConfigurationFromIntent(i);
    var w := ConfigurationFromIntent(WrittenOut(i));
    assert PortsOf(w) == PortsOf(c);
    if LegacyEndpoint(c) {
      assert EndpointsOf(w).value == [Endpoint("web", HTTP, "http", DEFAULT_DOMAIN, c.slug, 0)];
      assert PortsOf(c) != [] ==> EndpointsOf(c).value[0].portName == PortsOf(c)[0].name;
      assert EndpointsOf(w).value[0].portName == "http";
    } else {
      assert EndpointsOf(w) == EndpointsOf(c);
    }
  }

  // ---------- Preview

  datatype Change = InitialDeployment | Release | Scale | Network | HealthChecks | ResourceChange | Variables | Secrets

  datatype Preview = Preview(changes: seq<Change>, rolloutRequired: bool)

  /** The normalised configurations differ in the way the change names. */
  predicate Differs(before: Config, after: Config, change: Change) {
    match change
    case Scale => before.replicas != after.replicas
    case Network => before.ports != after.ports || before.endpoints != after.endpoints
    case HealthChecks => before.probes != after.probes
    case ResourceChange => before.resources != after.resources
    case Variables => before.variables != after.variables
    case Secrets => before.parameters != after.parameters
    case _ => false
  }

  /** What the preview means, for a current deployment of `before` */
  ghost predicate Previews(p: Preview, sameRelease: bool, before: Config, after: Config) {
    && (p.rolloutRequired <==> !sameRelease || before != after)
    && (forall change :: change in p.changes <==> (change == Release && !sameRelease) || Differs(before, after, change))
  }

  method CompareConfigurations(before: Shared, after: Shared) returns (changes: seq<Change>)
    requires before.ports != null && before.endpoints != null && after.ports != null && after.endpoints != null
    ensures forall change :: change in changes <==> Differs(before.Value(), after.Value(), change)
    ensures Release !in changes
  {
    changes := [];
    if before.replicas != after.replicas {
      changes := changes + [Scale];
    }
    if before.ports[..] != after.ports[..] || before.endpoints[..] != after.endpoints[..] {
      changes := changes + [Network];
    }
    if before.probes != after.probes {
      changes := changes + [HealthChecks];
    }
    if before.resources != after.resources {
      changes := changes + [ResourceChange];
    }
    if before.variables != after.variables {
      changes := changes + [Variables];
    }
    if before.parameters != after.parameters {
      changes := changes + [Secrets];
    }
  }

  lemma AlikeWithoutDifference(before: Config, after: Config)
    requires before.port == after.port && before.exposure == after.exposure && before.slug == after.slug
    ensures before == after <==> forall change :: !Differs(before, after, change)
  {
    if before != after {
      assert || Differs(before, after, Scale) || Differs(before, after, Network) || Differs(before, after, HealthChecks)
             || Differs(before, after, ResourceChange) || Differs(before, after, Variables)
               || Differs(before, after, Secrets);
    }
  }

  /** The second normalisation cannot disturb the first, even when both configurations share their arrays. */
  method NormalizeBoth(current: Shared, revision: Shared) returns (before: Option<Shared>, after: Option<Shared>)
    modifies current.ports, current.endpoints, revision.ports, revision.endpoints
    ensures before.None? <==> Panics(old(current.Value()))
    ensures after.None? <==> Panics(old(current.Value())) || Panics(old(revision.Value()))
    ensures after.Some? ==>
              && Normalize(old(current.Value())) == Some(before.value.Value())
              && Normalize(old(revision.Value())) == Some(after.value.Value())
              && before.value.ports != null && before.value.endpoints != null && after.value.ports != null
              && after.value.endpoints != null
  {
    ghost var held, was := current.Value(), revision.Value();
    before := NormalizeRuntimeConfig(current);
    if before.None? {
      return None, None;
    }
    NormalizedIsFilled(held);
    ghost var ports, endpoints := before.value.ports[..], before.value.endpoints[..];
    NormalizeForgets(was, revision.Value());
    PanicsExactly(was);
    PanicsExactly(revision.Value());
    after := NormalizeRuntimeConfig(revision);
    assert before.value.ports[..] == ports;
    assert before.value.endpoints[..] == endpoints;
  }

  /** Filling in protocols and domains beforehand does not change what normalisation gives. */
  lemma NormalizeForgets(was: Config, now: Config)
    requires now == was.(ports := now.ports, endpoints := now.endpoints)
    requires now.ports == was.ports || (now.ports.Some? && was.ports.Some?
                                        && now.ports.value == WithProtocols(was.ports.value))
    requires now.endpoints == was.endpoints || (now.endpoints.Some? && was.endpoints.Some?
                                                && now.endpoints.value == WithDomains(was.endpoints.value))
    ensures Normalize(now) == Normalize(was)
  {
    if now.ports != was.ports {
      PortsOfAgain(was, now.ports);
    }
    if now.endpoints != was.endpoints {
      assert WithDomains(now.endpoints.value) == now.endpoints.value;
    }
  }

  /** Panics, as None, exactly if there is a current deployment and one of the two configurations does. */
  method PreviewDeployment(current: Option<Shared>, sameRelease: bool, revision: Shared) returns (r: Option<Preview>)
    modifies if current.Some? then current.value.Arrays() + revision.Arrays() else {}
    ensures r.None? <==> current.Some? && (Panics(old(current.value.Value())) || Panics(old(revision.Value())))
    ensures current.None? ==> r == Some(Preview([InitialDeployment], true))
    ensures current.Some? && r.Some? ==>
              && Normalize(old(current.value.Value())).Some? && Normalize(old(revision.Value())).Some?
              && Previews(r.value, sameRelease, Normalize(old(current.value.Value())).value,
                          Normalize(old(revision.Value())).value)
  {
    if current.None? {
      return Some(Preview([InitialDeployment], true));
    }
    var changes: seq<Change> := if sameRelease then [] else [Release];
    var before, after := NormalizeBoth(current.value, revision);
    if after.None? {
      return None;
    }
    var differences := CompareConfigurations(before.value, after.value);
    AlikeWithoutDifference(before.value.Value(), after.value.Value());
    changes := changes + differences;
    r := Some(Preview(changes, |changes| > 0));
    assert |differences| > 0 ==> differences[0] in differences;
  }
}
