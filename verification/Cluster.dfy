/**
 The part of a Kubernetes cluster that holds application configuration: ConfigMaps, Secrets and
 AppDeployments, who owns them, and what must hold of them after every single API call.
 */
module Cluster {
  import opened Options
  import opened Decimal

  const CONTROL_PLANE := "molejo-control-plane"

  datatype Key = Key(namespace: string, name: string)

  /** A ConfigMap or Secret; `owner` is the owner annotation, empty when absent. */
  datatype Item = Item(owner: string, managedBy: string, version: string, immutable: bool, data: map<string, string>)

  datatype Deployment = Deployment(owner: string, configMapRef: string, secretRef: string)

  datatype State = State(configMaps: map<Key, Item>, secrets: map<Key, Item>, deployments: map<Key, Deployment>)

  function ConfigName(owner: string, version: nat): string {
    owner + "-c" + Format(version)
  }

  function SecretName(configName: string): string {
    configName + "-secret"
  }

  /** For instance, version 12 of the application "web" */
  lemma NamesAsWritten()
    ensures ConfigName("web", 12) == "web-c12" && SecretName(ConfigName("web", 12)) == "web-c12-secret"
  {
    assert Format(12) == Format(1) + "2" == "12";
    assert ConfigName("web", 12) == "web-c12";
  }

  /** How many digits a name ends with */
  function TrailingDigits(s: string): nat {
    if s == [] || !IsDigit(s[|s| - 1]) then 0 else 1 + TrailingDigits(s[..|s| - 1])
  }

  lemma {:induction false} TrailingDigitsOfName(stem: string, digits: string)
    requires AllDigits(digits) && stem != [] && !IsDigit(stem[|stem| - 1])
    ensures TrailingDigits(stem + digits) == |digits|
  {
    if digits == [] {
      assert stem + digits == stem;
    } else {
      var init := digits[..|digits| - 1];
      TrailingDigitsOfName(stem, init);
      assert (stem + digits)[..|stem + digits| - 1] == stem + init;
    }
  }

  /** The configuration's name determines its owner and its version. */
  lemma ConfigNameInjective(o: string, v: nat, p: string, w: nat)
    requires ConfigName(o, v) == ConfigName(p, w)
    ensures o == p && v == w
  {
    var s, d, e := ConfigName(o, v), Format(v), Format(w);
    TrailingDigitsOfName(o + "-c", d);
    TrailingDigitsOfName(p + "-c", e);
    assert s[|s| - |d|..] == d && s[|s| - |e|..] == e;
    assert s[..|s| - |d| - 2] == o && s[..|s| - |e| - 2] == p;
    ValueOfFormat(v);
    ValueOfFormat(w);
  }

  /** Is this object part of the configuration of `owner`? */
  predicate Owned(item: Item, name: string, owner: string, secret: bool) {
    && item.owner == owner
    && item.managedBy == CONTROL_PLANE
    && ParseInt(item.version).Some?
    && var version := ParseInt(item.version).value;
       version >= 1 && name == if secret then SecretName(ConfigName(owner, version)) else ConfigName(owner, version)
  }

  /** Owned objects carry the version that their name says. */
  lemma OwnedName(item: Item, owner: string, version: nat, secret: bool)
    requires 1 <= version <= MAX_INT64 && item.owner == owner && item.managedBy == CONTROL_PLANE
    requires item.version == Format(version)
    ensures var name := ConfigName(owner, version);
            Owned(item, if secret then SecretName(name) else name, owner, secret)
  {
    ParseOfFormat(version);
  }

  // ---------- Safety of the configuration

  ghost predicate ClaimedConfig(item: Item, name: string) {
    item.owner != "" && exists v :: 1 <= v <= MAX_INT64 && name == ConfigName(item.owner, v)
  }

  ghost predicate ClaimedSecret(item: Item, name: string) {
    item.owner != "" && exists v :: 1 <= v <= MAX_INT64 && name == SecretName(ConfigName(item.owner, v))
  }

  /** Objects under a configuration's name and annotated with its owner were labelled by the control plane too. */
  ghost predicate Labelled(s: State) {
    && (forall k :: k in s.configMaps && ClaimedConfig(s.configMaps[k], k.name) ==>
        Owned(s.configMaps[k], k.name, s.configMaps[k].owner, false))
    && (forall k :: k in s.secrets && ClaimedSecret(s.secrets[k], k.name) ==>
        Owned(s.secrets[k], k.name, s.secrets[k].owner, true))
  }

  predicate HasConfig(s: State, namespace: string, name: string, owner: string) {
    Key(namespace, name) in s.configMaps && Owned(s.configMaps[Key(namespace, name)], name, owner, false)
  }

  predicate HasSecret(s: State, namespace: string, name: string, owner: string) {
    Key(namespace, name) in s.secrets && Owned(s.secrets[Key(namespace, name)], name, owner, true)
  }

  /** Every owned Secret has the owned ConfigMap it belongs to. */
  ghost predicate Paired(s: State) {
    forall namespace, config, owner ::
      owner != "" && HasSecret(s, namespace, SecretName(config), owner) ==> HasConfig(s, namespace, config, owner)
  }

  /** The references of an AppDeployment of the control plane lead to its own configuration. */
  predicate Resolves(s: State, k: Key, d: Deployment) {
    && (d.configMapRef != "" ==> HasConfig(s, k.namespace, d.configMapRef, k.name))
    && (d.secretRef != "" ==>
          && d.secretRef == SecretName(d.configMapRef) && d.configMapRef != ""
          && HasSecret(s, k.namespace, d.secretRef, k.name))
  }

  ghost predicate Live(s: State) {
    forall k :: k in s.deployments && s.deployments[k].owner == k.name && k.name != "" ==>
      Resolves(s, k, s.deployments[k])
  }

  ghost predicate Safe(s: State) {
    Labelled(s) && Paired(s) && Live(s)
  }

  // ---------- Other actors

  predicate SameClaims(a: map<Key, Item>, b: map<Key, Item>) {
    && (forall k :: k in a && a[k].owner != "" ==> k in b && b[k] == a[k])
    && (forall k :: k in b && b[k].owner != "" ==> k in a && a[k] == b[k])
  }

  predicate SameRoots(a: map<Key, Deployment>, b: map<Key, Deployment>) {
    && (forall k :: k in a && a[k].owner == k.name ==> k in b && b[k] == a[k])
    && (forall k :: k in b && b[k].owner == k.name ==> k in a && a[k] == b[k])
  }

  /** Others may create, change and delete whatever does not carry the control plane's annotation. */
  predicate ByOthers(s: State, t: State) {
    SameClaims(s.configMaps, t.configMaps) && SameClaims(s.secrets, t.secrets)
      && SameRoots(s.deployments, t.deployments)
  }

  lemma OthersKeepOwned(s: State, t: State, namespace: string, name: string, owner: string)
    requires ByOthers(s, t) && owner != ""
    ensures HasConfig(s, namespace, name, owner) <==> HasConfig(t, namespace, name, owner)
    ensures HasSecret(s, namespace, name, owner) <==> HasSecret(t, namespace, name, owner)
  {
  }

  lemma OthersKeepSafe(s: State, t: State)
    requires Safe(s) && ByOthers(s, t)
    ensures Safe(t)
  {
    forall namespace, config, owner | owner != "" && HasSecret(t, namespace, SecretName(config), owner)
      ensures HasConfig(t, namespace, config, owner)
    {
      OthersKeepOwned(s, t, namespace, SecretName(config), owner);
      OthersKeepOwned(s, t, namespace, config, owner);
    }
    forall k | k in t.deployments && t.deployments[k].owner == k.name && k.name != ""
      ensures Resolves(t, k, t.deployments[k])
    {
      assert Resolves(s, k, s.deployments[k]);
      OthersKeepOwned(s, t, k.namespace, t.deployments[k].configMapRef, k.name);
      OthersKeepOwned(s, t, k.namespace, t.deployments[k].secretRef, k.name);
    }
  }

  // ---------- The control plane's own writes

  function PutConfig(s: State, k: Key, item: Item): State { s.(configMaps := s.configMaps[k := item]) }
  function PutSecret(s: State, k: Key, item: Item): State { s.(secrets := s.secrets[k := item]) }
  function PutDeployment(s: State, k: Key, d: Deployment): State { s.(deployments := s.deployments[k := d]) }
  function DropConfig(s: State, k: Key): State { s.(configMaps := s.configMaps - {k}) }
  function DropSecret(s: State, k: Key): State { s.(secrets := s.secrets - {k}) }
  function DropDeployment(s: State, k: Key): State { s.(deployments := s.deployments - {k}) }

  lemma PutConfigKeepsSafe(s: State, k: Key, item: Item)
    requires Safe(s) && k !in s.configMaps && Owned(item, k.name, item.owner, false)
    ensures Safe(PutConfig(s, k, item))
  {
    var t := PutConfig(s, k, item);
    forall namespace, config, owner | owner != "" && HasSecret(t, namespace, SecretName(config), owner)
      ensures HasConfig(t, namespace, config, owner)
    {
      assert HasSecret(s, namespace, SecretName(config), owner);
    }
    forall d | d in t.deployments && t.deployments[d].owner == d.name && d.name != ""
      ensures Resolves(t, d, t.deployments[d])
    {
      assert Resolves(s, d, s.deployments[d]);
    }
  }

  lemma PutSecretKeepsSafe(s: State, namespace: string, config: string, item: Item)
    requires Safe(s) && HasConfig(s, namespace, config, item.owner)
    requires Key(namespace, SecretName(config)) !in s.secrets && Owned(item, SecretName(config), item.owner, true)
    ensures Safe(PutSecret(s, Key(namespace, SecretName(config)), item))
  {
    var t := PutSecret(s, Key(namespace, SecretName(config)), item);
    forall n, c, owner | owner != "" && HasSecret(t, n, SecretName(c), owner)
      ensures HasConfig(t, n, c, owner)
    {
      if Key(n, SecretName(c)) == Key(namespace, SecretName(config)) {
        assert SecretName(c)[..|c|] == c && SecretName(config)[..|config|] == config;
      } else {
        assert HasSecret(s, n, SecretName(c), owner);
      }
      assert HasConfig(s, n, c, owner);
    }
    forall d | d in t.deployments && t.deployments[d].owner == d.name && d.name != ""
      ensures Resolves(t, d, t.deployments[d])
    {
      assert Resolves(s, d, s.deployments[d]);
    }
  }

  lemma PutDeploymentKeepsSafe(s: State, k: Key, d: Deployment)
    requires Safe(s) && Resolves(s, k, d)
    ensures Safe(PutDeployment(s, k, d))
  {
    var t := PutDeployment(s, k, d);
    forall n, c, owner | owner != "" && HasSecret(t, n, SecretName(c), owner) ensures HasConfig(t, n, c, owner) {
      assert HasSecret(s, n, SecretName(c), owner);
      assert HasConfig(s, n, c, owner);
    }
    forall e | e in t.deployments && t.deployments[e].owner == e.name && e.name != ""
      ensures Resolves(t, e, t.deployments[e])
    {
      if e != k {
        assert Resolves(s, e, s.deployments[e]);
      }
    }
  }

  lemma DropDeploymentKeepsSafe(s: State, k: Key)
    requires Safe(s)
    ensures Safe(DropDeployment(s, k))
  {
    var t := DropDeployment(s, k);
    forall n, c, owner | owner != "" && HasSecret(t, n, SecretName(c), owner) ensures HasConfig(t, n, c, owner) {
      assert HasSecret(s, n, SecretName(c), owner);
      assert HasConfig(s, n, c, owner);
    }
    forall e | e in t.deployments && t.deployments[e].owner == e.name && e.name != ""
      ensures Resolves(t, e, t.deployments[e])
    {
      assert Resolves(s, e, s.deployments[e]);
    }
  }

  /** No AppDeployment of `owner` refers to this configuration. */
  predicate Stale(s: State, namespace: string, config: string, owner: string) {
    var k := Key(namespace, owner);
    k in s.deployments && s.deployments[k].owner == owner ==> s.deployments[k].configMapRef != config
  }

  lemma DropSecretKeepsSafe(s: State, namespace: string, config: string, owner: string)
    requires Safe(s) && owner != "" && Stale(s, namespace, config, owner)
    requires HasSecret(s, namespace, SecretName(config), owner)
    ensures Safe(DropSecret(s, Key(namespace, SecretName(config))))
  {
    var t := DropSecret(s, Key(namespace, SecretName(config)));
    forall n, c, o | o != "" && HasSecret(t, n, SecretName(c), o) ensures HasConfig(t, n, c, o) {
      assert HasSecret(s, n, SecretName(c), o);
      assert HasConfig(s, n, c, o);
    }
    forall e | e in t.deployments && t.deployments[e].owner == e.name && e.name != ""
      ensures Resolves(t, e, t.deployments[e])
    {
      assert Resolves(s, e, s.deployments[e]);
      if s.deployments[e].secretRef == SecretName(config) && e.namespace == namespace {
        var ref := s.deployments[e].configMapRef;
        assert SecretName(ref)[..|ref|] == ref && SecretName(config)[..|config|] == config;
      }
    }
  }

  lemma DropConfigKeepsSafe(s: State, namespace: string, config: string, owner: string)
    requires Safe(s) && owner != "" && Stale(s, namespace, config, owner) && config != ""
    requires HasConfig(s, namespace, config, owner) && !HasSecret(s, namespace, SecretName(config), owner)
    ensures Safe(DropConfig(s, Key(namespace, config)))
  {
    var t := DropConfig(s, Key(namespace, config));
    forall n, c, o | o != "" && HasSecret(t, n, SecretName(c), o) ensures HasConfig(t, n, c, o) {
      assert HasSecret(s, n, SecretName(c), o);
      assert HasConfig(s, n, c, o);
    }
    forall e | e in t.deployments && t.deployments[e].owner == e.name && e.name != ""
      ensures Resolves(t, e, t.deployments[e])
    {
      assert Resolves(s, e, s.deployments[e]);
    }
  }
}
