/** Validation of a runtime configuration, with the sets of names its loops collect. */
module RuntimeValidation {
  import opened Options
  import opened RuntimeConfig

  datatype Limits = Limits(replicas: int, cpu: int, memory: int)

  // ---------- Patterns

  predicate LowerOrDigit(c: char) { 'a' <= c <= 'z' || '0' <= c <= '9' }

  predicate Slug(s: string) {
    && s != "" && LowerOrDigit(s[0]) && LowerOrDigit(s[|s| - 1])
    && forall k :: 0 <= k < |s| ==> LowerOrDigit(s[k]) || s[k] == '-'
  }

  predicate Letter(c: char) { 'a' <= c <= 'z' || 'A' <= c <= 'Z' || c == '_' }

  predicate VariableName(s: string) {
    1 <= |s| <= 253 && Letter(s[0]) && forall k :: 0 <= k < |s| ==> Letter(s[k]) || '0' <= s[k] <= '9'
  }

  predicate ParameterId(s: string) {
    |s| == 24 && s[..4] == "par-" && forall k :: 4 <= k < 24 ==> 'a' <= s[k] <= 'z' || '2' <= s[k] <= '7'
  }

  predicate AbsolutePath(s: string) {
    1 <= |s| <= 2048 && s[0] == '/' && '\r' !in s && '\n' !in s
  }

  // ---------- What validity means

  predicate ValidPort(p: Port) {
    Slug(p.name) && |p.name| <= 15 && 1 <= p.containerPort <= 65535 && p.protocol == TCP
  }

  predicate Names(ps: seq<Port>, name: string) {
    exists i :: 0 <= i < |ps| && ps[i].name == name
  }

  predicate ValidPorts(ps: seq<Port>) {
    && 1 <= |ps| <= 8
    && (forall i :: 0 <= i < |ps| ==> ValidPort(ps[i]))
    && (forall i, j :: 0 <= i < j < |ps| ==> ps[i].name != ps[j].name)
  }

  predicate ValidResources(r: Resources, limits: Limits) {
    && 1 <= r.requestCpu <= r.limitCpu <= limits.cpu
    && 1 <= r.requestMemory <= r.limitMemory <= limits.memory
  }

  predicate ValidProbe(p: Probe, ps: seq<Port>) {
    Names(ps, p.portName) && ((p.kind == HTTP && AbsolutePath(p.path)) || (p.kind == TCP && p.path == ""))
  }

  predicate ValidEndpoint(e: Endpoint, ps: seq<Port>) {
    && Slug(e.name) && |e.name| <= 15 && (e.kind == HTTP || e.kind == TCP) && Names(ps, e.portName)
    && Slug(e.hostname) && |e.hostname| <= 63 && Slug(e.domain) && |e.domain| <= 63
    && (e.kind == HTTP ==> e.externalPort == 0) && (e.externalPort != 0 ==> 1 <= e.externalPort <= 65535)
  }

  predicate ValidEndpoints(es: seq<Endpoint>, ps: seq<Port>) {
    && |es| <= 2
    && (forall i :: 0 <= i < |es| ==> ValidEndpoint(es[i], ps))
    && (forall i, j :: 0 <= i < j < |es| ==> es[i].name != es[j].name && es[i].kind != es[j].kind)
  }

  predicate ValidVariable(v: Variable) {
    VariableName(v.name) && |v.value| <= 4096 && '\0' !in v.value && '\r' !in v.value && '\n' !in v.value
  }

  predicate ValidParameter(p: Parameter) {
    VariableName(p.name) && ParameterId(p.publicId) && p.version >= 1
  }

  predicate ValidVariables(vs: seq<Variable>) {
    && (forall i :: 0 <= i < |vs| ==> ValidVariable(vs[i]))
    && (forall i, j :: 0 <= i < j < |vs| ==> vs[i].name != vs[j].name)
  }

  predicate ValidParameters(ps: seq<Parameter>, taken: set<string>) {
    && (forall i :: 0 <= i < |ps| ==> ValidParameter(ps[i]) && ps[i].name !in taken)
    && (forall i, j :: 0 <= i < j < |ps| ==> ps[i].name != ps[j].name)
  }

  function VariableNames(vs: seq<Variable>): set<string> {
    set i | 0 <= i < |vs| :: vs[i].name
  }

  /** Variables and parameters share one set of names. */
  predicate ValidEnvironment(vs: seq<Variable>, ps: seq<Parameter>) {
    |vs| + |ps| <= 100 && ValidVariables(vs) && ValidParameters(ps, VariableNames(vs))
  }

  predicate Valid(c: Config, limits: Limits) {
    var ps := Elements(c.ports);
    && 1 <= c.replicas <= limits.replicas && ValidPorts(ps) && ValidResources(c.resources, limits)
    && ValidProbe(c.probes.startup, ps) && ValidProbe(c.probes.readiness, ps) && ValidProbe(c.probes.liveness, ps)
    && ValidEndpoints(Elements(c.endpoints), ps) && ValidEnvironment(Elements(c.variables), Elements(c.parameters))
  }

  // ---------- The loops

  method ValidatePorts(ps: seq<Port>) returns (ok: bool, names: set<string>)
    ensures ok <==> ValidPorts(ps)
    ensures ok ==> forall name :: name in names <==> Names(ps, name)
  {
    names := {};
    if |ps| < 1 || |ps| > 8 {
      return false, {};
    }
    for n := 0 to |ps|
      invariant forall i :: 0 <= i < n ==> ValidPort(ps[i]) && ps[i].name in names
      invariant forall i, j :: 0 <= i < j < n ==> ps[i].name != ps[j].name
      invariant forall name :: name in names ==> exists i :: 0 <= i < n && ps[i].name == name
    {
      if !Slug(ps[n].name) || |ps[n].name| > 15 {
        return false, {};
      }
      if ps[n].name in names {
        return false, {};
      }
      if ps[n].containerPort < 1 || ps[n].containerPort > 65535 || ps[n].protocol != TCP {
        return false, {};
      }
      names := names + {ps[n].name};
    }
    return true, names;
  }

  method ValidateProbes(probes: Probes, ps: seq<Port>, names: set<string>) returns (ok: bool)
    requires forall name :: name in names <==> Names(ps, name)
    ensures ok <==>
              ValidProbe(probes.startup, ps) && ValidProbe(probes.readiness, ps) && ValidProbe(probes.liveness, ps)
  {
    var all := [probes.startup, probes.readiness, probes.liveness];
    for n := 0 to |all|
      invariant forall i :: 0 <= i < n ==> ValidProbe(all[i], ps)
    {
      var probe := all[n];
      if probe.portName !in names || (probe.kind == HTTP && !AbsolutePath(probe.path))
        || (probe.kind == TCP && probe.path != "")
         || (probe.kind != HTTP && probe.kind != TCP) {
        assert !ValidProbe(all[n], ps);
        return false;
      }
    }
    assert ValidProbe(all[0], ps) && ValidProbe(all[1], ps) && ValidProbe(all[2], ps);
    return true;
  }

  method ValidateEndpoint(e: Endpoint, ps: seq<Port>, names: set<string>) returns (ok: bool)
    requires forall name :: name in names <==> Names(ps, name)
    ensures ok <==> ValidEndpoint(e, ps)
  {
    if !Slug(e.name) || |e.name| > 15 || (e.kind != HTTP && e.kind != TCP) || e.portName !in names {
      return false;
    }
    if |e.hostname| == 0 || |e.hostname| > 63 || !Slug(e.hostname) || |e.domain| == 0 || |e.domain| > 63
      || !Slug(e.domain) {
      return false;
    }
    if e.kind == HTTP && e.externalPort != 0 {
      return false;
    }
    return !(e.kind == TCP && e.externalPort != 0 && (e.externalPort < 1 || e.externalPort > 65535));
  }

  method ValidateEndpoints(es: seq<Endpoint>, ps: seq<Port>, names: set<string>) returns (ok: bool)
    requires forall name :: name in names <==> Names(ps, name)
    ensures ok <==> ValidEndpoints(es, ps)
  {
    if |es| > 2 {
      return false;
    }
    var endpointNames: set<string>, kinds: set<string> := {}, {};
    for n := 0 to |es|
      invariant ValidEndpoints(es[..n], ps)
      invariant endpointNames == set i | 0 <= i < n :: es[i].name
      invariant kinds == set i | 0 <= i < n :: es[i].kind
    {
      assert forall i :: 0 <= i < n ==> es[..n][i] == es[i];
      assert es[..n + 1] == es[..n] + [es[n]];
      if es[n].name in endpointNames || es[n].kind in kinds {
        return false;
      }
      var valid := ValidateEndpoint(es[n], ps, names);
      if !valid {
        return false;
      }
      endpointNames, kinds := endpointNames + {es[n].name}, kinds + {es[n].kind};
    }
    assert es[..|es|] == es;
    return true;
  }

  method ValidateVariables(vs: seq<Variable>) returns (ok: bool, seen: set<string>)
    ensures ok <==> ValidVariables(vs)
    ensures ok ==> seen == VariableNames(vs)
  {
    seen := {};
    for n := 0 to |vs|
      invariant forall i :: 0 <= i < n ==> ValidVariable(vs[i])
      invariant forall i, j :: 0 <= i < j < n ==> vs[i].name != vs[j].name
      invariant seen == set i | 0 <= i < n :: vs[i].name
    {
      if !ValidVariable(vs[n]) {
        return false, {};
      }
      if vs[n].name in seen {
        return false, {};
      }
      seen := seen + {vs[n].name};
    }
    return true, seen;
  }

  method ValidateParameters(ps: seq<Parameter>, taken: set<string>) returns (ok: bool)
    ensures ok <==> ValidParameters(ps, taken)
  {
    var seen := taken;
    for n := 0 to |ps|
      invariant forall i :: 0 <= i < n ==> ValidParameter(ps[i]) && ps[i].name !in taken
      invariant forall i, j :: 0 <= i < j < n ==> ps[i].name != ps[j].name
      invariant seen == taken + set i | 0 <= i < n :: ps[i].name
    {
      if !ValidParameter(ps[n]) {
        return false;
      }
      if ps[n].name in seen {
        return false;
      }
      seen := seen + {ps[n].name};
    }
    return true;
  }

  method ValidateEnvironment(vs: seq<Variable>, ps: seq<Parameter>) returns (ok: bool)
    ensures ok <==> ValidEnvironment(vs, ps)
  {
    if |vs| + |ps| > 100 {
      return false;
    }
    var variablesOk, seen := ValidateVariables(vs);
    if !variablesOk {
      return false;
    }
    ok := ValidateParameters(ps, seen);
  }

  method ValidateRuntimeConfig(c: Config, limits: Limits) returns (ok: bool)
    ensures ok <==> Valid(c, limits)
  {
    var ps := Elements(c.ports);
    if c.replicas < 1 || c.replicas > limits.replicas {
      return false;
    }
    var portsOk, names := ValidatePorts(ps);
    if !portsOk || !ValidResources(c.resources, limits) {
      return false;
    }
    var probesOk := ValidateProbes(c.probes, ps, names);
    if !probesOk {
      return false;
    }
    var endpointsOk := ValidateEndpoints(Elements(c.endpoints), ps, names);
    if !endpointsOk {
      return false;
    }
    ok := ValidateEnvironment(Elements(c.variables), Elements(c.parameters));
  }

  // ---------- Valid configurations are normalised ones

  lemma NamedPort(ps: seq<Port>, name: string)
    requires ValidPorts(ps) && Names(ps, name)
    ensures name != ""
  {
    var i :| 0 <= i < |ps| && ps[i].name == name;
    assert ValidPort(ps[i]);
  }

  lemma ValidProbeIsFilled(p: Probe, ps: seq<Port>, name: string)
    requires ValidPorts(ps) && ValidProbe(p, ps)
    ensures WithDefaults(p, name) == p && p.kind != ""
  {
    NamedPort(ps, p.portName);
  }

  lemma ValidProbesAreFilled(probes: Probes, ps: seq<Port>)
    requires ValidPorts(ps) && ValidProbe(probes.startup, ps) && ValidProbe(probes.readiness, ps)
    requires ValidProbe(probes.liveness, ps)
    ensures ProbesOf(probes, DefaultName(ps)) == probes
  {
    ValidProbeIsFilled(probes.startup, ps, DefaultName(ps));
    ValidProbeIsFilled(probes.readiness, ps, DefaultName(ps));
    ValidProbeIsFilled(probes.liveness, ps, DefaultName(ps));
  }

  lemma ValidPortsHaveProtocols(ps: seq<Port>)
    requires ValidPorts(ps)
    ensures forall i :: 0 <= i < |ps| ==> ps[i].protocol != ""
  {
    assert forall i :: 0 <= i < |ps| ==> ValidPort(ps[i]);
  }

  lemma ValidEndpointsHaveDomains(es: seq<Endpoint>, ps: seq<Port>)
    requires ValidEndpoints(es, ps)
    ensures forall i :: 0 <= i < |es| ==> es[i].domain != ""
  {
    assert forall i :: 0 <= i < |es| ==> ValidEndpoint(es[i], ps);
  }

  /** A valid configuration has nothing left to fill in, so normalising it changes nothing but unset lists. */
  lemma ValidIsFixpoint(c: Config, limits: Limits)
    requires Valid(c, limits) && c.port == 0 && c.exposure == "" && c.slug == ""
    ensures Normalize(c) == Some(Filled(c))
  {
    var ps := Elements(c.ports);
    ValidProbesAreFilled(c.probes, ps);
    ValidPortsHaveProtocols(ps);
    ValidEndpointsHaveDomains(Elements(c.endpoints), ps);
    SettledIsFixpoint(c);
  }
}
