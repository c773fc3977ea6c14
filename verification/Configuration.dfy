/**
 The Agent's operations on application configuration: materialising an immutable version,
 pointing the AppDeployment at it, and collecting what is no longer referenced. They work one
 API call at a time; any call may fail, before or after it took effect, and ends the operation,
 so the state after every single call is also the state after a crash at that point.
 */
module Configuration {
  import opened Decimal
  import opened Cluster

  datatype Read<+T> = Found(value: T) | NotFound | ReadError
  datatype Write = Written | AlreadyExists | WriteError
  datatype Delete = Deleted | Missing | DeleteError

  /**
   The API server. `trace` is the history of states, one for every call; `writes` counts the calls
   that write; `failed` tells whether the last call ended in an error.
   */
  class Api {
    var state: State
    ghost var trace: seq<State>
    ghost var writes: nat
    ghost var failed: bool

    constructor (initial: State)
      ensures state == initial && trace == [] && writes == 0 && !failed
    {
      state := initial;
      trace := [];
      writes, failed := 0, false;
    }

    /** Between two calls others may have been at work. */
    method Interfere()
      modifies this`state
      ensures ByOthers(old(state), state)
    {
      var other: State := *;
      if ByOthers(state, other) {
        state := other;
      }
    }

    method GetConfigMap(k: Key) returns (r: Read<Item>)
      modifies this
      ensures trace == old(trace) + [state] && writes == old(writes) && ByOthers(old(state), state)
      ensures r.Found? <==> (k in state.configMaps && !r.ReadError?)
      ensures failed <==> r.ReadError?
      ensures r.Found? ==> r.value == state.configMaps[k]
    {
      Interfere();
      trace := trace + [state];
      var fails: bool := *;
      r := if fails then ReadError else if k in state.configMaps then Found(state.configMaps[k]) else NotFound;
      failed := fails;
    }

    method GetSecret(k: Key) returns (r: Read<Item>)
      modifies this
      ensures trace == old(trace) + [state] && writes == old(writes) && ByOthers(old(state), state)
      ensures r.Found? <==> (k in state.secrets && !r.ReadError?)
      ensures failed <==> r.ReadError?
      ensures r.Found? ==> r.value == state.secrets[k]
    {
      Interfere();
      trace := trace + [state];
      var fails: bool := *;
      r := if fails then ReadError else if k in state.secrets then Found(state.secrets[k]) else NotFound;
      failed := fails;
    }

    method GetDeployment(k: Key) returns (r: Read<Deployment>)
      modifies this
      ensures trace == old(trace) + [state] && writes == old(writes) && ByOthers(old(state), state)
      ensures r.Found? <==> (k in state.deployments && !r.ReadError?)
      ensures failed <==> r.ReadError?
      ensures r.Found? ==> r.value == state.deployments[k]
    {
      Interfere();
      trace := trace + [state];
      var fails: bool := *;
      r := if fails then ReadError else if k in state.deployments then Found(state.deployments[k]) else NotFound;
      failed := fails;
    }

    /** `before` is the state that the call found. */
    method CreateConfigMap(k: Key, item: Item) returns (r: Write, ghost before: State)
      modifies this
      ensures trace == old(trace) + [state] && writes == old(writes) + 1 && ByOthers(old(state), before)
      ensures failed <==> r.WriteError?
      ensures r.AlreadyExists? ==> k in before.configMaps && state == before
      ensures r.Written? ==> k !in before.configMaps && state == PutConfig(before, k, item)
      ensures r.WriteError? ==> state == before || (k !in before.configMaps && state == PutConfig(before, k, item))
    {
      Interfere();
      writes := writes + 1;
      before := state;
      var fails: bool, applied: bool := *, *;
      if k in state.configMaps {
        r := if fails then WriteError else AlreadyExists;
      } else if fails && !applied {
        r := WriteError;
      } else {
        state := PutConfig(state, k, item);
        r := if fails then WriteError else Written;
      }
      trace, failed := trace + [state], r.WriteError?;
    }

    method CreateSecret(k: Key, item: Item) returns (r: Write, ghost before: State)
      modifies this
      ensures trace == old(trace) + [state] && writes == old(writes) + 1 && ByOthers(old(state), before)
      ensures failed <==> r.WriteError?
      ensures r.AlreadyExists? ==> k in before.secrets && state == before
      ensures r.Written? ==> k !in before.secrets && state == PutSecret(before, k, item)
      ensures r.WriteError? ==> state == before || (k !in before.secrets && state == PutSecret(before, k, item))
    {
      Interfere();
      writes := writes + 1;
      before := state;
      var fails: bool, applied: bool := *, *;
      if k in state.secrets {
        r := if fails then WriteError else AlreadyExists;
      } else if fails && !applied {
        r := WriteError;
      } else {
        state := PutSecret(state, k, item);
        r := if fails then WriteError else Written;
      }
      trace, failed := trace + [state], r.WriteError?;
    }

    /** Creates the AppDeployment, or with `force` applies it over whatever is there. */
    method WriteDeployment(k: Key, d: Deployment, force: bool) returns (r: Write, ghost before: State)
      modifies this
      ensures trace == old(trace) + [state] && writes == old(writes) + 1 && ByOthers(old(state), before)
      ensures failed <==> r.WriteError?
      ensures r.AlreadyExists? ==> !force && k in before.deployments && state == before
      ensures r.Written? ==> state == PutDeployment(before, k, d)
      ensures r.WriteError? ==> state == before || state == PutDeployment(before, k, d)
    {
      Interfere();
      writes := writes + 1;
      before := state;
      var fails: bool, applied: bool := *, *;
      if !force && k in state.deployments {
        r := if fails then WriteError else AlreadyExists;
      } else if fails && !applied {
        r := WriteError;
      } else {
        state := PutDeployment(state, k, d);
        r := if fails then WriteError else Written;
      }
      trace, failed := trace + [state], r.WriteError?;
    }

    method DeleteConfigMap(k: Key) returns (r: Delete, ghost before: State)
      modifies this
      ensures trace == old(trace) + [state] && writes == old(writes) + 1 && ByOthers(old(state), before)
      ensures failed <==> r.DeleteError?
      ensures r.Deleted? ==> state == DropConfig(before, k)
      ensures r.Missing? ==> k !in before.configMaps && state == before
      ensures r.DeleteError? ==> state == before || state == DropConfig(before, k)
    {
      Interfere();
      writes := writes + 1;
      before := state;
      var fails: bool, applied: bool := *, *;
      if fails && !applied {
        r := DeleteError;
      } else {
        r := if fails then DeleteError else if k in state.configMaps then Deleted else Missing;
        state := if k in state.configMaps then DropConfig(state, k) else state;
      }
      trace, failed := trace + [state], r.DeleteError?;
    }

    method DeleteSecret(k: Key) returns (r: Delete, ghost before: State)
      modifies this
      ensures trace == old(trace) + [state] && writes == old(writes) + 1 && ByOthers(old(state), before)
      ensures failed <==> r.DeleteError?
      ensures r.Deleted? ==> state == DropSecret(before, k)
      ensures r.Missing? ==> k !in before.secrets && state == before
      ensures r.DeleteError? ==> state == before || state == DropSecret(before, k)
    {
      Interfere();
      writes := writes + 1;
      before := state;
      var fails: bool, applied: bool := *, *;
      if fails && !applied {
        r := DeleteError;
      } else {
        r := if fails then DeleteError else if k in state.secrets then Deleted else Missing;
        state := if k in state.secrets then DropSecret(state, k) else state;
      }
      trace, failed := trace + [state], r.DeleteError?;
    }

    /** A deletion may be accepted while finalizers keep the AppDeployment for now. */
    method RemoveDeployment(k: Key) returns (r: Delete, ghost before: State)
      modifies this
      ensures trace == old(trace) + [state] && writes == old(writes) + 1 && ByOthers(old(state), before)
      ensures failed <==> r.DeleteError?
      ensures state == before || state == DropDeployment(before, k)
      ensures r.Missing? ==> k !in before.deployments
    {
      Interfere();
      writes := writes + 1;
      before := state;
      var fails: bool, applied: bool := *, *;
      r := if fails then DeleteError else if k in state.deployments then Deleted else Missing;
      if applied {
        state := DropDeployment(state, k);
      }
      trace, failed := trace + [state], r.DeleteError?;
    }

    /** The ConfigMaps of a namespace that carry the control plane's label, in some order */
    method ListConfigMaps(namespace: string) returns (ok: bool, items: seq<(string, Item)>)
      modifies this
      ensures trace == old(trace) + [state] && writes == old(writes) && ByOthers(old(state), state)
      ensures ok ==> Lists(state, namespace, items)
      ensures failed <==> !ok
    {
      Interfere();
      trace := trace + [state];
      ok := *;
      failed := !ok;
      items := [];
      var todo := state.configMaps.Keys;
      while todo != {}
        invariant todo <= state.configMaps.Keys
        invariant forall k | k in state.configMaps && k !in todo ::
                    k.namespace == namespace && state.configMaps[k].managedBy == CONTROL_PLANE ==>
                      (k.name, state.configMaps[k]) in items
        invariant forall i :: i in items ==>
                    && Key(namespace, i.0) in state.configMaps && Key(namespace, i.0) !in todo
                    && state.configMaps[Key(namespace, i.0)] == i.1
        invariant forall i, j :: 0 <= i < j < |items| ==> items[i].0 != items[j].0
        decreases todo
      {
        var k :| k in todo;
        if k.namespace == namespace && state.configMaps[k].managedBy == CONTROL_PLANE {
          items := items + [(k.name, state.configMaps[k])];
        }
        todo := todo - {k};
      }
    }
  }

  ghost predicate Lists(s: State, namespace: string, items: seq<(string, Item)>) {
    && (forall k :: k in s.configMaps && k.namespace == namespace && s.configMaps[k].managedBy == CONTROL_PLANE ==>
        (k.name, s.configMaps[k]) in items)
    && (forall i :: i in items ==> Key(namespace, i.0) in s.configMaps && s.configMaps[Key(namespace, i.0)] == i.1)
    && (forall i, j :: 0 <= i < j < |items| ==> items[i].0 != items[j].0)
  }

  // ---------- Histories

  datatype Outcome = Ok | Conflict | Failure

  /** The new part of the history is safe. */
  ghost predicate SafeSince(trace: seq<State>, n: nat) {
    forall k :: n <= k < |trace| ==> Safe(trace[k])
  }

  /** Nothing that the control plane owned in `s` is lost or changed in `t`, and its AppDeployments are the same. */
  ghost predicate Kept(s: State, t: State) {
    && (forall k :: k in s.configMaps && s.configMaps[k].owner != "" ==>
        k in t.configMaps && t.configMaps[k] == s.configMaps[k])
    && (forall k :: k in s.secrets && s.secrets[k].owner != "" ==> k in t.secrets && t.secrets[k] == s.secrets[k])
    && SameRoots(s.deployments, t.deployments)
  }

  // ---------- Materialising a version

  /** The last value of each variable */
  function Data(variables: seq<(string, string)>): map<string, string> {
    if variables == [] then map[]
    else Data(variables[..|variables| - 1])[variables[|variables| - 1].0 := variables[|variables| - 1].1]
  }

  /** Just the given names are there. */
  lemma {:induction false} DataNames(variables: seq<(string, string)>, name: string)
    ensures name in Data(variables) <==> exists i :: 0 <= i < |variables| && variables[i].0 == name
  {
    if variables != [] {
      var last := |variables| - 1;
      DataNames(variables[..last], name);
      assert forall i :: 0 <= i < last ==> variables[..last][i] == variables[i];
      if name in Data(variables[..last]) {
        var i :| 0 <= i < last && variables[..last][i].0 == name;
        assert variables[i].0 == name;
      }
    }
  }

  /** The last value given to a name is the one it has. */
  lemma {:induction false} LastValueWins(variables: seq<(string, string)>, i: nat)
    requires i < |variables| && forall j :: i < j < |variables| ==> variables[j].0 != variables[i].0
    ensures variables[i].0 in Data(variables) && Data(variables)[variables[i].0] == variables[i].1
  {
    var last := |variables| - 1;
    if i < last {
      assert variables[last].0 != variables[i].0;
      LastValueWins(variables[..last], i);
    }
  }

  method CollectData(variables: seq<(string, string)>) returns (data: map<string, string>)
    ensures data == Data(variables)
  {
    data := map[];
    for n := 0 to |variables|
      invariant data == Data(variables[..n])
    {
      assert variables[..n + 1][..n] == variables[..n];
      data := data[variables[n].0 := variables[n].1];
    }
    assert variables[..|variables|] == variables;
  }

  /** The immutable object that `materializeConfiguration` wants to exist */
  function Desired(owner: string, version: nat, data: map<string, string>): Item {
    Item(owner, CONTROL_PLANE, Format(version), true, data)
  }

  predicate Agrees(current: Item, owner: string, data: map<string, string>) {
    current.owner == owner && current.immutable && current.data == data
  }

  /** Something else is under the key: another's, still changeable, or with other variables. */
  predicate Occupied(items: map<Key, Item>, k: Key, owner: string, data: map<string, string>) {
    k in items && (items[k].owner != owner || !items[k].immutable || items[k].data != data)
  }

  /** The version's ConfigMap is there under its owner, cannot change any more, and holds just these variables. */
  predicate ConfigStored(s: State, namespace: string, owner: string, version: nat, data: map<string, string>) {
    var k := Key(namespace, ConfigName(owner, version));
    HasConfig(s, namespace, k.name, owner) && s.configMaps[k].immutable && s.configMaps[k].data == data
  }

  predicate SecretStored(s: State, namespace: string, owner: string, version: nat, data: map<string, string>) {
    var k := Key(namespace, SecretName(ConfigName(owner, version)));
    HasSecret(s, namespace, k.name, owner) && s.secrets[k].immutable && s.secrets[k].data == data
  }

  lemma KeptByOthers(s: State, t: State)
    requires Safe(s) && ByOthers(s, t)
    ensures Safe(t) && Kept(s, t)
  {
    OthersKeepSafe(s, t);
  }

  lemma KeptConfig(s: State, t: State, namespace: string, name: string, owner: string)
    requires Kept(s, t) && owner != ""
    ensures HasConfig(s, namespace, name, owner) ==>
              HasConfig(t, namespace, name, owner)
                && t.configMaps[Key(namespace, name)] == s.configMaps[Key(namespace, name)]
    ensures HasSecret(s, namespace, name, owner) ==>
              HasSecret(t, namespace, name, owner) && t.secrets[Key(namespace, name)] == s.secrets[Key(namespace, name)]
  {
  }

  /** What is stored stays stored. */
  lemma KeptStored(s: State, t: State, namespace: string, owner: string, version: nat, data: map<string, string>)
    requires Kept(s, t) && owner != ""
    ensures ConfigStored(s, namespace, owner, version, data) ==> ConfigStored(t, namespace, owner, version, data)
    ensures SecretStored(s, namespace, owner, version, data) ==> SecretStored(t, namespace, owner, version, data)
  {
  }

  lemma KeptTwice(s: State, t: State, u: State)
    requires Kept(s, t) && Kept(t, u)
    ensures Kept(s, u)
  {
  }

  lemma OthersTwice(s: State, t: State, u: State)
    requires ByOthers(s, t) && ByOthers(t, u)
    ensures ByOthers(s, u)
  {
  }

  lemma SafeConfigWrite(s: State, before: State, k: Key, item: Item)
    requires Safe(s) && ByOthers(s, before) && k !in before.configMaps && Owned(item, k.name, item.owner, false)
    ensures Safe(PutConfig(before, k, item)) && Kept(s, PutConfig(before, k, item))
  {
    OthersKeepSafe(s, before);
    PutConfigKeepsSafe(before, k, item);
  }

  lemma SafeSecretWrite(s: State, before: State, namespace: string, config: string, item: Item)
    requires Safe(s) && ByOthers(s, before) && item.owner != "" && HasConfig(s, namespace, config, item.owner)
    requires Key(namespace, SecretName(config)) !in before.secrets && Owned(item, SecretName(config), item.owner, true)
    ensures Safe(PutSecret(before, Key(namespace, SecretName(config)), item))
    ensures Kept(s, PutSecret(before, Key(namespace, SecretName(config)), item))
  {
    OthersKeepSafe(s, before);
    OthersKeepOwned(s, before, namespace, config, item.owner);
    PutSecretKeepsSafe(before, namespace, config, item);
  }

  /** Reads the ConfigMap and accepts it if it is the one wanted. */
  method VerifyConfigMap(api: Api, namespace: string, owner: string, version: nat, data: map<string, string>)
    returns (r: Outcome, missing: bool)
    requires Safe(api.state) && owner != "" && 1 <= version <= MAX_INT64
    modifies api
    ensures Safe(api.state) && api.trace == old(api.trace) + [api.state] && Kept(old(api.state), api.state)
    ensures api.writes == old(api.writes) && ByOthers(old(api.state), api.state)
    ensures r.Ok? ==> ConfigStored(api.state, namespace, owner, version, data)
    ensures r.Conflict? ==> Occupied(api.state.configMaps, Key(namespace, ConfigName(owner, version)), owner, data)
    ensures missing ==> Key(namespace, ConfigName(owner, version)) !in api.state.configMaps
    ensures r.Failure? <==> missing || api.failed
  {
    var k := Key(namespace, ConfigName(owner, version));
    var current := api.GetConfigMap(k);
    KeptByOthers(old(api.state), api.state);
    missing := current.NotFound?;
    if !current.Found? {
      r := Failure;
    } else if !Agrees(current.value, owner, data) {
      r := Conflict;
    } else {
      assert ClaimedConfig(current.value, k.name);
      r := Ok;
    }
  }

  method CreateConfigMap(api: Api, namespace: string, owner: string, version: nat, data: map<string, string>)
    returns (r: Outcome, present: bool)
    requires Safe(api.state) && owner != "" && 1 <= version <= MAX_INT64
    modifies api
    ensures Safe(api.state) && api.trace == old(api.trace) + [api.state] && Kept(old(api.state), api.state)
    ensures r.Ok? ==> ConfigStored(api.state, namespace, owner, version, data)
    ensures !r.Conflict? && (r.Failure? <==> present || api.failed)
    ensures present ==> ByOthers(old(api.state), api.state)
  {
    var k, item := Key(namespace, ConfigName(owner, version)), Desired(owner, version, data);
    OwnedName(item, owner, version, false);
    var w, before := api.CreateConfigMap(k, item);
    KeptByOthers(old(api.state), before);
    if k !in before.configMaps {
      SafeConfigWrite(old(api.state), before, k, item);
    }
    r, present := if w.Written? then Ok else Failure, w.AlreadyExists?;
  }

  /** A version that is already stored is left alone; what is in the way is reported and left alone. */
  method CreateOrVerifyConfigMap(api: Api, namespace: string, owner: string, version: nat, data: map<string, string>)
    returns (r: Outcome)
    requires Safe(api.state) && owner != "" && 1 <= version <= MAX_INT64
    modifies api
    ensures Safe(api.state) && old(api.trace) <= api.trace && SafeSince(api.trace, |old(api.trace)|)
    ensures Kept(old(api.state), api.state)
    ensures r.Ok? ==> ConfigStored(api.state, namespace, owner, version, data)
    ensures r.Conflict? ==>
              && Occupied(api.state.configMaps, Key(namespace, ConfigName(owner, version)), owner, data)
              && ByOthers(old(api.state), api.state)
    ensures old(ConfigStored(api.state, namespace, owner, version, data)) ==>
              (r.Ok? || api.failed) && !r.Conflict? && api.writes == old(api.writes)
                && ByOthers(old(api.state), api.state)
  {
    var missing: bool, present: bool;
    r, missing := VerifyConfigMap(api, namespace, owner, version, data);
    KeptStored(old(api.state), api.state, namespace, owner, version, data);
    if missing {
      ghost var s := api.state;
      r, present := CreateConfigMap(api, namespace, owner, version, data);
      ghost var t := api.state;
      KeptTwice(old(api.state), s, t);
      if present {
        OthersTwice(old(api.state), s, t);
        r, missing := VerifyConfigMap(api, namespace, owner, version, data);
        KeptTwice(old(api.state), t, api.state);
        OthersTwice(old(api.state), t, api.state);
      }
    }
  }

  /** Reads the Secret and accepts it if it is the one wanted. */
  method VerifySecret(api: Api, namespace: string, owner: string, version: nat, data: map<string, string>)
    returns (r: Outcome, missing: bool)
    requires Safe(api.state) && owner != "" && 1 <= version <= MAX_INT64
    modifies api
    ensures Safe(api.state) && api.trace == old(api.trace) + [api.state] && Kept(old(api.state), api.state)
    ensures api.writes == old(api.writes) && ByOthers(old(api.state), api.state)
    ensures r.Ok? ==> SecretStored(api.state, namespace, owner, version, data)
    ensures r.Conflict? ==>
              Occupied(api.state.secrets, Key(namespace, SecretName(ConfigName(owner, version))), owner, data)
    ensures missing ==> Key(namespace, SecretName(ConfigName(owner, version))) !in api.state.secrets
    ensures r.Failure? <==> missing || api.failed
  {
    var k := Key(namespace, SecretName(ConfigName(owner, version)));
    var current := api.GetSecret(k);
    KeptByOthers(old(api.state), api.state);
    missing := current.NotFound?;
    if !current.Found? {
      r := Failure;
    } else if !Agrees(current.value, owner, data) {
      r := Conflict;
    } else {
      assert ClaimedSecret(current.value, k.name);
      r := Ok;
    }
  }

  method CreateSecret(api: Api, namespace: string, owner: string, version: nat, data: map<string, string>)
    returns (r: Outcome, present: bool)
    requires Safe(api.state) && owner != "" && 1 <= version <= MAX_INT64
    requires HasConfig(api.state, namespace, ConfigName(owner, version), owner)
    modifies api
    ensures Safe(api.state) && api.trace == old(api.trace) + [api.state] && Kept(old(api.state), api.state)
    ensures r.Ok? ==> SecretStored(api.state, namespace, owner, version, data)
    ensures !r.Conflict? && (r.Failure? <==> present || api.failed)
    ensures present ==> ByOthers(old(api.state), api.state)
  {
    var config, item := ConfigName(owner, version), Desired(owner, version, data);
    OwnedName(item, owner, version, true);
    var w, before := api.CreateSecret(Key(namespace, SecretName(config)), item);
    KeptByOthers(old(api.state), before);
    if Key(namespace, SecretName(config)) !in before.secrets {
      SafeSecretWrite(old(api.state), before, namespace, config, item);
    }
    r, present := if w.Written? then Ok else Failure, w.AlreadyExists?;
  }

  method CreateThenVerifySecret(api: Api, namespace: string, owner: string, version: nat, data: map<string, string>)
    returns (r: Outcome)
    requires Safe(api.state) && owner != "" && 1 <= version <= MAX_INT64
    requires HasConfig(api.state, namespace, ConfigName(owner, version), owner)
    modifies api
    ensures Safe(api.state) && old(api.trace) <= api.trace && SafeSince(api.trace, |old(api.trace)|)
    ensures Kept(old(api.state), api.state)
    ensures r.Ok? ==> SecretStored(api.state, namespace, owner, version, data)
    ensures r.Conflict? ==>
              && Occupied(api.state.secrets, Key(namespace, SecretName(ConfigName(owner, version))), owner, data)
              && ByOthers(old(api.state), api.state)
  {
    var present: bool;
    r, present := CreateSecret(api, namespace, owner, version, data);
    if present {
      ghost var t := api.state;
      r, present := VerifySecret(api, namespace, owner, version, data);
      KeptTwice(old(api.state), t, api.state);
      OthersTwice(old(api.state), t, api.state);
      assert api.trace == old(api.trace) + [t, api.state];
    }
  }

  method CreateOrVerifySecret(api: Api, namespace: string, owner: string, version: nat, data: map<string, string>)
    returns (r: Outcome)
    requires Safe(api.state) && owner != "" && 1 <= version <= MAX_INT64
    requires HasConfig(api.state, namespace, ConfigName(owner, version), owner)
    modifies api
    ensures Safe(api.state) && old(api.trace) <= api.trace && SafeSince(api.trace, |old(api.trace)|)
    ensures Kept(old(api.state), api.state)
    ensures r.Ok? ==> SecretStored(api.state, namespace, owner, version, data)
    ensures r.Conflict? ==>
              && Occupied(api.state.secrets, Key(namespace, SecretName(ConfigName(owner, version))), owner, data)
              && ByOthers(old(api.state), api.state)
    ensures old(SecretStored(api.state, namespace, owner, version, data)) ==>
              (r.Ok? || api.failed) && !r.Conflict? && api.writes == old(api.writes)
                && ByOthers(old(api.state), api.state)
  {
    var missing: bool;
    r, missing := VerifySecret(api, namespace, owner, version, data);
    KeptStored(old(api.state), api.state, namespace, owner, version, data);
    if missing {
      ghost var s := api.state;
      KeptConfig(old(api.state), s, namespace, ConfigName(owner, version), owner);
      r := CreateThenVerifySecret(api, namespace, owner, version, data);
      KeptTwice(old(api.state), s, api.state);
      if r.Conflict? {
        OthersTwice(old(api.state), s, api.state);
      }
    }
  }

  /** Both objects of the version are stored; without secret variables there is only one. */
  ghost predicate Stored(s: State, namespace: string, owner: string, version: nat,
                         plain: seq<(string, string)>, secret: seq<(string, string)>)
  {
    && ConfigStored(s, namespace, owner, version, Data(plain))
    && (secret != [] ==> SecretStored(s, namespace, owner, version, Data(secret)))
  }

  /** The references name the version's objects, which are there, cannot change any more and hold the variables. */
  ghost predicate Materialized(s: State, namespace: string, owner: string, version: nat,
                               plain: seq<(string, string)>, secret: seq<(string, string)>,
                               configMapRef: string, secretRef: string)
  {
    && Stored(s, namespace, owner, version, plain, secret)
    && configMapRef == ConfigName(owner, version)
    && secretRef == if secret == [] then "" else SecretName(configMapRef)
  }

  /** Something else is where one of the version's objects belongs. */
  ghost predicate Obstructed(s: State, namespace: string, owner: string, version: nat,
                             plain: seq<(string, string)>, secret: seq<(string, string)>)
  {
    || Occupied(s.configMaps, Key(namespace, ConfigName(owner, version)), owner, Data(plain))
    || (secret != []
        && Occupied(s.secrets, Key(namespace, SecretName(ConfigName(owner, version))), owner, Data(secret)))
  }

  /**
   Materialising is repeatable: once the version is stored, the same call writes nothing, meets no
   conflict, and succeeds unless a call of the API fails.
   */
  method MaterializeConfiguration(api: Api, namespace: string, owner: string, version: nat,
                                  plain: seq<(string, string)>, secret: seq<(string, string)>)
    returns (r: Outcome, configMapRef: string, secretRef: string)
    requires Safe(api.state) && owner != "" && 1 <= version <= MAX_INT64
    modifies api
    ensures Safe(api.state) && old(api.trace) <= api.trace && SafeSince(api.trace, |old(api.trace)|)
    ensures Kept(old(api.state), api.state)
    ensures r.Ok? ==> Materialized(api.state, namespace, owner, version, plain, secret, configMapRef, secretRef)
    ensures r.Conflict? ==> Obstructed(api.state, namespace, owner, version, plain, secret)
    ensures old(Stored(api.state, namespace, owner, version, plain, secret)) ==>
              (r.Ok? || api.failed) && !r.Conflict? && api.writes == old(api.writes)
                && ByOthers(old(api.state), api.state)
  {
    configMapRef, secretRef := ConfigName(owner, version), "";
    var plainData := CollectData(plain);
    r := CreateOrVerifyConfigMap(api, namespace, owner, version, plainData);
    if r.Ok? && secret != [] {
      ghost var s := api.state;
      secretRef := SecretName(configMapRef);
      var secretData := CollectData(secret);
      KeptStored(old(api.state), s, namespace, owner, version, secretData);
      r := CreateOrVerifySecret(api, namespace, owner, version, secretData);
      KeptStored(s, api.state, namespace, owner, version, plainData);
      KeptTwice(old(api.state), s, api.state);
      if old(Stored(api.state, namespace, owner, version, plain, secret)) {
        OthersTwice(old(api.state), s, api.state);
      }
    }
  }

  // ---------- Applying and deleting an AppDeployment

  /** There is an AppDeployment of this name that is not the control plane's. */
  predicate Foreign(s: State, k: Key) {
    k in s.deployments && s.deployments[k].owner != k.name
  }

  /** Does the AppDeployment exist under the control plane's ownership? */
  method OwnedDeploymentExists(api: Api, k: Key) returns (r: Outcome, found: bool)
    requires Safe(api.state)
    modifies api
    ensures Safe(api.state) && api.trace == old(api.trace) + [api.state] && Kept(old(api.state), api.state)
    ensures ByOthers(old(api.state), api.state)
    ensures r.Ok? ==> (found <==> k in api.state.deployments) && (found ==> api.state.deployments[k].owner == k.name)
    ensures r.Conflict? ==> Foreign(api.state, k)
    ensures r.Failure? <==> api.failed
  {
    var current := api.GetDeployment(k);
    KeptByOthers(old(api.state), api.state);
    found := current.Found?;
    r := match current
      case NotFound => Ok
      case ReadError => Failure
      case Found(d) => if d.owner != k.name then Conflict else Ok;
  }

  lemma SafeDeploymentWrite(s: State, before: State, k: Key, d: Deployment)
    requires Safe(s) && ByOthers(s, before) && Resolves(s, k, d) && k.name != ""
    ensures Safe(before) && Safe(PutDeployment(before, k, d)) && Resolves(PutDeployment(before, k, d), k, d)
  {
    OthersKeepSafe(s, before);
    OthersKeepOwned(s, before, k.namespace, d.configMapRef, k.name);
    OthersKeepOwned(s, before, k.namespace, d.secretRef, k.name);
    PutDeploymentKeepsSafe(before, k, d);
  }

  method WriteRoot(api: Api, k: Key, d: Deployment, force: bool) returns (r: Outcome)
    requires Safe(api.state) && Resolves(api.state, k, d) && k.name != ""
    modifies api
    ensures Safe(api.state) && api.trace == old(api.trace) + [api.state]
    ensures OnlyRoot(old(api.state), api.state, k)
    ensures r.Ok? ==> k in api.state.deployments && api.state.deployments[k] == d
    ensures r.Conflict? ==> !force && ByOthers(old(api.state), api.state)
    ensures r.Failure? <==> api.failed
  {
    var w, before := api.WriteDeployment(k, d, force);
    SafeDeploymentWrite(old(api.state), before, k, d);
    r := match w
      case Written => Ok
      case AlreadyExists => Conflict
      case WriteError => Failure;
  }

  /** From `s` to `t` no configuration of the control plane changed, and no AppDeployment of it but this one. */
  ghost predicate OnlyRoot(s: State, t: State, k: Key) {
    SameClaims(s.configMaps, t.configMaps) && SameClaims(s.secrets, t.secrets)
      && SameRoots(s.deployments - {k}, t.deployments - {k})
  }

  /** The AppDeployment is the control plane's and refers to this version of its configuration, if there is one. */
  ghost predicate Deployed(s: State, namespace: string, name: string, version: int, plain: seq<(string, string)>,
                           secret: seq<(string, string)>)
  {
    && Key(namespace, name) in s.deployments && s.deployments[Key(namespace, name)].owner == name
    && var d := s.deployments[Key(namespace, name)];
       Configured(s, namespace, name, version, plain, secret, d.configMapRef, d.secretRef)
  }

  ghost predicate Configured(s: State, namespace: string, name: string, version: int, plain: seq<(string, string)>,
                             secret: seq<(string, string)>, configMapRef: string, secretRef: string)
  {
    if version > 0 then Materialized(s, namespace, name, version, plain, secret, configMapRef, secretRef)
    else configMapRef == "" && secretRef == ""
  }

  lemma ClaimsKeepConfigured(s: State, t: State, namespace: string, name: string, version: int,
                             plain: seq<(string, string)>, secret: seq<(string, string)>, configMapRef: string,
                             secretRef: string)
    requires SameClaims(s.configMaps, t.configMaps) && SameClaims(s.secrets, t.secrets) && name != ""
    ensures Configured(s, namespace, name, version, plain, secret, configMapRef, secretRef) ==>
              Configured(t, namespace, name, version, plain, secret, configMapRef, secretRef)
  {
  }

  lemma ConfiguredResolves(s: State, namespace: string, name: string, version: int, plain: seq<(string, string)>,
                           secret: seq<(string, string)>, configMapRef: string, secretRef: string)
    requires Configured(s, namespace, name, version, plain, secret, configMapRef, secretRef)
    ensures Resolves(s, Key(namespace, name), Deployment(name, configMapRef, secretRef))
  {
  }

  /** The configuration of an intent, before the AppDeployment points at it */
  method Configure(api: Api, namespace: string, name: string, version: int, plain: seq<(string, string)>,
                   secret: seq<(string, string)>)
    returns (r: Outcome, configMapRef: string, secretRef: string)
    requires Safe(api.state) && name != "" && version <= MAX_INT64
    modifies api
    ensures Safe(api.state) && old(api.trace) <= api.trace && SafeSince(api.trace, |old(api.trace)|)
    ensures Kept(old(api.state), api.state)
    ensures r.Ok? ==> Configured(api.state, namespace, name, version, plain, secret, configMapRef, secretRef)
    ensures r.Conflict? ==> version > 0 && Obstructed(api.state, namespace, name, version, plain, secret)
    ensures (version > 0 ==> old(Stored(api.state, namespace, name, version, plain, secret))) ==>
              (r.Ok? || api.failed) && !r.Conflict? && ByOthers(old(api.state), api.state)
  {
    r, configMapRef, secretRef := Ok, "", "";
    if version > 0 {
      r, configMapRef, secretRef := MaterializeConfiguration(api, namespace, name, version, plain, secret);
    }
  }

  /**
   What applying promises of the state, whatever the outcome: other AppDeployments of the control
   plane stay as they were; so does this one when it is `blocked`; and where the AppDeployment was
   `deployed` as wanted before, its configuration stays as it was.
   */
  ghost predicate Careful(s: State, t: State, k: Key, blocked: bool, deployed: bool) {
    && SameRoots(s.deployments - {k}, t.deployments - {k})
    && (blocked ==> SameRoots(s.deployments, t.deployments))
    && (deployed ==> SameClaims(s.configMaps, t.configMaps) && SameClaims(s.secrets, t.secrets))
  }

  lemma RootsTwice(a: map<Key, Deployment>, b: map<Key, Deployment>, c: map<Key, Deployment>)
    requires SameRoots(a, b) && SameRoots(b, c)
    ensures SameRoots(a, c)
  {
  }

  lemma ClaimsTwice(a: map<Key, Item>, b: map<Key, Item>, c: map<Key, Item>)
    requires SameClaims(a, b) && SameClaims(b, c)
    ensures SameClaims(a, c)
  {
  }

  lemma CarefulAfterOthers(s: State, t: State, u: State, k: Key, blocked: bool, deployed: bool)
    requires ByOthers(s, t) && Careful(t, u, k, blocked, deployed)
    ensures Careful(s, u, k, blocked, deployed)
  {
  }

  lemma CarefulConfigure(s: State, t: State, k: Key, blocked: bool, deployed: bool)
    requires Kept(s, t) && (deployed ==> ByOthers(s, t))
    ensures Careful(s, t, k, blocked, deployed)
  {
  }

  lemma CarefulWrite(s: State, t: State, u: State, k: Key, blocked: bool, deployed: bool)
    requires Kept(s, t) && (deployed ==> ByOthers(s, t)) && OnlyRoot(t, u, k) && (blocked ==> ByOthers(t, u))
    ensures Careful(s, u, k, blocked, deployed)
  {
    CarefulConfigure(s, t, k, true, deployed);
    RootsTwice(s.deployments - {k}, t.deployments - {k}, u.deployments - {k});
    if blocked {
      RootsTwice(s.deployments, t.deployments, u.deployments);
    }
    if deployed {
      ClaimsTwice(s.configMaps, t.configMaps, u.configMaps);
      ClaimsTwice(s.secrets, t.secrets, u.secrets);
    }
  }

  lemma OthersKeepDeployed(s: State, t: State, k: Key, version: int, plain: seq<(string, string)>,
                           secret: seq<(string, string)>)
    requires ByOthers(s, t) && Deployed(s, k.namespace, k.name, version, plain, secret) && k.name != ""
    ensures Deployed(t, k.namespace, k.name, version, plain, secret)
  {
    var d := s.deployments[k];
    ClaimsKeepConfigured(s, t, k.namespace, k.name, version, plain, secret, d.configMapRef, d.secretRef);
  }

  /** Once it is known whether the AppDeployment is there */
  method ApplyFound(api: Api, k: Key, version: int, plain: seq<(string, string)>, secret: seq<(string, string)>,
                    needsVolume: bool, hasVolume: bool, found: bool)
    returns (r: Outcome)
    requires Safe(api.state) && k.name != "" && version <= MAX_INT64
    requires found <==> k in api.state.deployments
    modifies api
    ensures Safe(api.state) && old(api.trace) <= api.trace && SafeSince(api.trace, |old(api.trace)|)
    ensures r.Ok? ==> (needsVolume ==> hasVolume) && Deployed(api.state, k.namespace, k.name, version, plain, secret)
    ensures Careful(old(api.state), api.state, k, r.Conflict? || (needsVolume && !hasVolume),
                    old(Deployed(api.state, k.namespace, k.name, version, plain, secret)))
    ensures old(Deployed(api.state, k.namespace, k.name, version, plain, secret)) ==>
              !r.Conflict? && ((needsVolume ==> hasVolume) ==> r.Ok? || api.failed)
  {
    ghost var deployed := Deployed(api.state, k.namespace, k.name, version, plain, secret);
    var configMapRef, secretRef;
    r, configMapRef, secretRef := Configure(api, k.namespace, k.name, version, plain, secret);
    ghost var s := api.state;
    CarefulConfigure(old(api.state), s, k, true, deployed);
    if r.Ok? && needsVolume && !hasVolume {
      r := Failure;
    }
    if r.Ok? {
      ConfiguredResolves(s, k.namespace, k.name, version, plain, secret, configMapRef, secretRef);
      r := WriteRoot(api, k, Deployment(k.name, configMapRef, secretRef), found);
      ClaimsKeepConfigured(s, api.state, k.namespace, k.name, version, plain, secret, configMapRef, secretRef);
      CarefulWrite(old(api.state), s, api.state, k, r.Conflict?, deployed);
    }
  }

  /**
   Applying points the AppDeployment at its configuration. A conflict, or a missing volume, leaves
   every AppDeployment of the control plane as it was. Applying again never meets a conflict, leaves
   the configuration as it was, and succeeds unless a call of the API fails.
   */
  method ApplyDeployment(api: Api, namespace: string, name: string, version: int,
                         plain: seq<(string, string)>, secret: seq<(string, string)>, needsVolume: bool,
                         hasVolume: bool)
    returns (r: Outcome)
    requires Safe(api.state) && name != "" && version <= MAX_INT64
    modifies api
    ensures Safe(api.state) && old(api.trace) <= api.trace && SafeSince(api.trace, |old(api.trace)|)
    ensures r.Ok? ==> (needsVolume ==> hasVolume) && Deployed(api.state, namespace, name, version, plain, secret)
    ensures Careful(old(api.state), api.state, Key(namespace, name), r.Conflict? || (needsVolume && !hasVolume),
                    old(Deployed(api.state, namespace, name, version, plain, secret)))
    ensures old(Deployed(api.state, namespace, name, version, plain, secret)) ==>
              !r.Conflict? && ((needsVolume ==> hasVolume) ==> r.Ok? || api.failed)
  {
    ghost var deployed := Deployed(api.state, namespace, name, version, plain, secret);
    var k, found := Key(namespace, name), false;
    r, found := OwnedDeploymentExists(api, k);
    ghost var s := api.state;
    CarefulConfigure(old(api.state), s, k, true, deployed);
    if r.Ok? {
      if deployed {
        OthersKeepDeployed(old(api.state), s, k, version, plain, secret);
      }
      r := ApplyFound(api, k, version, plain, secret, needsVolume, hasVolume, found);
      CarefulAfterOthers(old(api.state), s, api.state, k, r.Conflict? || (needsVolume && !hasVolume), deployed);
    }
  }

  lemma RemovedAfterOthers(s: State, before: State, t: State, k: Key)
    requires ByOthers(s, before) && (t == before || t == DropDeployment(before, k))
    ensures OnlyRoot(s, t, k)
  {
  }

  lemma OnlyRootTwice(s: State, t: State, u: State, k: Key)
    requires OnlyRoot(s, t, k) && OnlyRoot(t, u, k)
    ensures OnlyRoot(s, u, k)
  {
  }

  /** The second call of the deletion */
  method RemoveRoot(api: Api, k: Key) returns (r: Outcome)
    requires Safe(api.state)
    modifies api
    ensures Safe(api.state) && api.trace == old(api.trace) + [api.state] && OnlyRoot(old(api.state), api.state, k)
    ensures !r.Conflict?
    ensures r.Failure? <==> api.failed
  {
    ghost var s := api.state;
    var d, before := api.RemoveDeployment(k);
    OthersKeepSafe(s, before);
    DropDeploymentKeepsSafe(before, k);
    RemovedAfterOthers(s, before, api.state, k);
    r := if d.DeleteError? then Failure else Ok;
  }

  method DeleteDeployment(api: Api, namespace: string, name: string) returns (r: Outcome)
    requires Safe(api.state)
    modifies api
    ensures Safe(api.state) && old(api.trace) <= api.trace && SafeSince(api.trace, |old(api.trace)|)
    ensures OnlyRoot(old(api.state), api.state, Key(namespace, name))
    ensures r.Conflict? ==> Foreign(api.state, Key(namespace, name)) && ByOthers(old(api.state), api.state)
    ensures r.Failure? ==> api.failed
  {
    var k, found := Key(namespace, name), false;
    r, found := OwnedDeploymentExists(api, k);
    ghost var s := api.state;
    RemovedAfterOthers(old(api.state), s, s, k);
    if r.Ok? && found {
      r := RemoveRoot(api, k);
      OnlyRootTwice(old(api.state), s, api.state, k);
      assert api.trace == old(api.trace) + [s, api.state];
    }
  }

  // ---------- Collecting configuration that is no longer referenced

  /** From `s` to `t` only this version's two objects may have disappeared, and nothing owned appeared. */
  ghost predicate OnlyDrops(s: State, t: State, namespace: string, config: string, owner: string) {
    && (forall k ::
          (&& k in s.configMaps && s.configMaps[k].owner != ""
           && !(k == Key(namespace, config) && Owned(s.configMaps[k], k.name, owner, false))) ==>
            k in t.configMaps && t.configMaps[k] == s.configMaps[k])
    && (forall k ::
          (&& k in s.secrets && s.secrets[k].owner != ""
           && !(k == Key(namespace, SecretName(config)) && Owned(s.secrets[k], k.name, owner, true))) ==>
            k in t.secrets && t.secrets[k] == s.secrets[k])
    && NothingNew(s, t)
    && SameRoots(s.deployments, t.deployments)
  }

  ghost predicate NothingNew(s: State, t: State) {
    && (forall k :: k in t.configMaps && t.configMaps[k].owner != "" ==>
        k in s.configMaps && t.configMaps[k] == s.configMaps[k])
    && (forall k :: k in t.secrets && t.secrets[k].owner != "" ==> k in s.secrets && t.secrets[k] == s.secrets[k])
  }

  lemma OnlyDropsTwice(s: State, t: State, u: State, namespace: string, config: string, owner: string)
    requires OnlyDrops(s, t, namespace, config, owner) && OnlyDrops(t, u, namespace, config, owner)
    ensures OnlyDrops(s, u, namespace, config, owner)
  {
  }

  lemma OthersOnlyDrop(s: State, t: State, namespace: string, config: string, owner: string)
    requires Safe(s) && ByOthers(s, t) && owner != ""
    ensures Safe(t) && OnlyDrops(s, t, namespace, config, owner)
    ensures Stale(s, namespace, config, owner) <==> Stale(t, namespace, config, owner)
    ensures HasConfig(s, namespace, config, owner) <==> HasConfig(t, namespace, config, owner)
    ensures HasSecret(s, namespace, SecretName(config), owner) <==> HasSecret(t, namespace, SecretName(config), owner)
  {
    OthersKeepSafe(s, t);
    OthersKeepOwned(s, t, namespace, config, owner);
    OthersKeepOwned(s, t, namespace, SecretName(config), owner);
  }

  /** Is there a Secret of this version under the owner's name? */
  method ReadOwnedSecret(api: Api, namespace: string, config: string, owner: string) returns (r: Outcome, found: bool)
    requires Safe(api.state) && owner != "" && Stale(api.state, namespace, config, owner)
    requires HasConfig(api.state, namespace, config, owner)
    modifies api
    ensures Safe(api.state) && api.trace == old(api.trace) + [api.state]
    ensures OnlyDrops(old(api.state), api.state, namespace, config, owner)
    ensures Stale(api.state, namespace, config, owner) && HasConfig(api.state, namespace, config, owner)
    ensures r.Ok? ==> (found <==> HasSecret(api.state, namespace, SecretName(config), owner))
    ensures !r.Conflict? && (r.Failure? <==> api.failed)
  {
    var k := Key(namespace, SecretName(config));
    var current := api.GetSecret(k);
    OthersOnlyDrop(old(api.state), api.state, namespace, config, owner);
    r := if current.ReadError? then Failure else Ok;
    found := current.Found? && Owned(current.value, k.name, owner, true);
  }

  method DeleteConfigurationSecret(api: Api, namespace: string, config: string, owner: string) returns (r: Outcome)
    requires Safe(api.state) && owner != "" && Stale(api.state, namespace, config, owner)
    requires HasConfig(api.state, namespace, config, owner)
    modifies api
    ensures Safe(api.state) && old(api.trace) <= api.trace && SafeSince(api.trace, |old(api.trace)|)
    ensures OnlyDrops(old(api.state), api.state, namespace, config, owner)
    ensures Stale(api.state, namespace, config, owner) && HasConfig(api.state, namespace, config, owner)
    ensures r.Ok? ==> !HasSecret(api.state, namespace, SecretName(config), owner)
    ensures !r.Conflict? && (r.Failure? <==> api.failed)
  {
    var found: bool;
    r, found := ReadOwnedSecret(api, namespace, config, owner);
    ghost var s := api.state;
    if r.Ok? && found {
      r := DropOwnedSecret(api, namespace, config, owner);
      OnlyDropsTwice(old(api.state), s, api.state, namespace, config, owner);
      assert api.trace == old(api.trace) + [s, api.state];
    }
  }

  method DropOwnedSecret(api: Api, namespace: string, config: string, owner: string) returns (r: Outcome)
    requires Safe(api.state) && owner != "" && Stale(api.state, namespace, config, owner)
    requires HasConfig(api.state, namespace, config, owner)
    requires HasSecret(api.state, namespace, SecretName(config), owner)
    modifies api
    ensures Safe(api.state) && api.trace == old(api.trace) + [api.state]
    ensures OnlyDrops(old(api.state), api.state, namespace, config, owner)
    ensures Stale(api.state, namespace, config, owner) && HasConfig(api.state, namespace, config, owner)
    ensures r.Ok? ==> !HasSecret(api.state, namespace, SecretName(config), owner)
    ensures !r.Conflict? && (r.Failure? <==> api.failed)
  {
    var d, before := api.DeleteSecret(Key(namespace, SecretName(config)));
    OthersOnlyDrop(old(api.state), before, namespace, config, owner);
    DropSecretKeepsSafe(before, namespace, config, owner);
    r := if d.DeleteError? then Failure else Ok;
  }

  method DropOwnedConfig(api: Api, namespace: string, config: string, owner: string) returns (r: Outcome)
    requires Safe(api.state) && owner != "" && config != "" && Stale(api.state, namespace, config, owner)
    requires HasConfig(api.state, namespace, config, owner)
    requires !HasSecret(api.state, namespace, SecretName(config), owner)
    modifies api
    ensures Safe(api.state) && api.trace == old(api.trace) + [api.state]
    ensures OnlyDrops(old(api.state), api.state, namespace, config, owner)
    ensures r.Ok? ==> !HasConfig(api.state, namespace, config, owner)
    ensures !r.Conflict? && (r.Failure? <==> api.failed)
  {
    var d, before := api.DeleteConfigMap(Key(namespace, config));
    OthersOnlyDrop(old(api.state), before, namespace, config, owner);
    DropConfigKeepsSafe(before, namespace, config, owner);
    r := if d.DeleteError? then Failure else Ok;
  }

  /** One stale version: first its Secret, then its ConfigMap */
  method CollectVersion(api: Api, namespace: string, config: string, owner: string) returns (r: Outcome)
    requires Safe(api.state) && owner != "" && config != "" && Stale(api.state, namespace, config, owner)
    requires HasConfig(api.state, namespace, config, owner)
    modifies api
    ensures Safe(api.state) && old(api.trace) <= api.trace && SafeSince(api.trace, |old(api.trace)|)
    ensures OnlyDrops(old(api.state), api.state, namespace, config, owner)
    ensures r.Ok? ==> !HasConfig(api.state, namespace, config, owner)
    ensures !r.Conflict? && (r.Failure? <==> api.failed)
  {
    r := DeleteConfigurationSecret(api, namespace, config, owner);
    if r.Ok? {
      ghost var s := api.state;
      r := DropOwnedConfig(api, namespace, config, owner);
      OnlyDropsTwice(old(api.state), s, api.state, namespace, config, owner);
    }
  }

  /** Everything owned survives except configuration of `owner` in this namespace. */
  ghost predicate Spares(s: State, t: State, namespace: string, owner: string) {
    && (forall k ::
          (&& k in s.configMaps && s.configMaps[k].owner != ""
           && !(k.namespace == namespace && Owned(s.configMaps[k], k.name, owner, false))) ==>
            k in t.configMaps && t.configMaps[k] == s.configMaps[k])
    && (forall k ::
          (&& k in s.secrets && s.secrets[k].owner != ""
           && !(k.namespace == namespace && Owned(s.secrets[k], k.name, owner, true))) ==>
            k in t.secrets && t.secrets[k] == s.secrets[k])
    && NothingNew(s, t)
    && SameRoots(s.deployments, t.deployments)
  }

  lemma SparesTwice(s: State, t: State, u: State, namespace: string, owner: string)
    requires Spares(s, t, namespace, owner) && Spares(t, u, namespace, owner)
    ensures Spares(s, u, namespace, owner)
  {
  }

  lemma OthersSpare(s: State, t: State, namespace: string, owner: string)
    requires Safe(s) && ByOthers(s, t)
    ensures Safe(t) && Spares(s, t, namespace, owner)
  {
    OthersKeepSafe(s, t);
  }

  /** The AppDeployment of `owner` as it was read: its two references, or nothing. */
  datatype Root = NoRoot | Root(configMapRef: string, secretRef: string)

  predicate IsRoot(s: State, namespace: string, owner: string, root: Root) {
    var k := Key(namespace, owner);
    match root
    case NoRoot => !(k in s.deployments && s.deployments[k].owner == owner)
    case Root(c, x) => k in s.deployments && s.deployments[k] == Deployment(owner, c, x)
  }

  predicate Keeps(root: Root, name: string) {
    root.Root? && name != "" && (name == root.configMapRef || name == root.secretRef)
  }

  method ReadRoot(api: Api, namespace: string, owner: string) returns (r: Outcome, root: Root)
    requires Safe(api.state)
    modifies api
    ensures Safe(api.state) && api.trace == old(api.trace) + [api.state]
    ensures Spares(old(api.state), api.state, namespace, owner)
    ensures r.Ok? ==> IsRoot(api.state, namespace, owner, root)
    ensures r.Failure? <==> api.failed
    ensures r.Conflict? ==> Foreign(api.state, Key(namespace, owner)) && ByOthers(old(api.state), api.state)
  {
    var current := api.GetDeployment(Key(namespace, owner));
    OthersSpare(old(api.state), api.state, namespace, owner);
    match current
    case NotFound => r, root := Ok, NoRoot;
    case ReadError => r, root := Failure, NoRoot;
    case Found(d) =>
      r := if d.owner != owner then Conflict else Ok;
      root := Root(d.configMapRef, d.secretRef);
  }

  /** After the first `n` listed ConfigMaps have been looked at */
  ghost predicate Swept(l: State, t: State, namespace: string, owner: string, root: Root, items: seq<(string, Item)>,
                        n: nat)
  {
    && Spares(l, t, namespace, owner)
    && IsRoot(t, namespace, owner, root)
    && (forall j :: 0 <= j < n <= |items| && !Keeps(root, items[j].0) ==> !HasConfig(t, namespace, items[j].0, owner))
    && (forall j :: n <= j < |items| && items[j].1.owner != "" ==>
          Key(namespace, items[j].0) in t.configMaps && t.configMaps[Key(namespace, items[j].0)] == items[j].1)
  }

  lemma DropSpares(l: State, t: State, u: State, namespace: string, config: string, owner: string)
    requires Spares(l, t, namespace, owner) && OnlyDrops(t, u, namespace, config, owner)
    ensures Spares(l, u, namespace, owner)
  {
    assert Spares(t, u, namespace, owner);
    SparesTwice(l, t, u, namespace, owner);
  }

  lemma SweptSkip(l: State, t: State, namespace: string, owner: string, root: Root, items: seq<(string, Item)>, n: nat)
    requires Swept(l, t, namespace, owner, root, items, n) && n < |items| && Lists(l, namespace, items) && owner != ""
    requires Keeps(root, items[n].0) || !Owned(items[n].1, items[n].0, owner, false)
    ensures Swept(l, t, namespace, owner, root, items, n + 1)
  {
    assert items[n] in items;
  }

  lemma NextIsThere(l: State, t: State, namespace: string, owner: string, root: Root, items: seq<(string, Item)>,
                    n: nat)
    requires Swept(l, t, namespace, owner, root, items, n) && n < |items| && owner != ""
    requires !Keeps(root, items[n].0) && Owned(items[n].1, items[n].0, owner, false)
    ensures HasConfig(t, namespace, items[n].0, owner) && Stale(t, namespace, items[n].0, owner) && items[n].0 != ""
  {
  }

  lemma SweptOneMore(l: State, t: State, u: State, namespace: string, owner: string, root: Root,
                     items: seq<(string, Item)>, n: nat)
    requires Swept(l, t, namespace, owner, root, items, n) && n < |items| && Lists(l, namespace, items) && owner != ""
    requires OnlyDrops(t, u, namespace, items[n].0, owner) && !HasConfig(u, namespace, items[n].0, owner)
    ensures Swept(l, u, namespace, owner, root, items, n + 1)
  {
    DropSpares(l, t, u, namespace, items[n].0, owner);
    forall j | 0 <= j < n && !Keeps(root, items[j].0) ensures !HasConfig(u, namespace, items[j].0, owner) {
      assert !HasConfig(t, namespace, items[j].0, owner);
    }
  }

  /** A configuration's name never looks like a Secret's. */
  lemma ConfigIsNoSecret(owner: string, version: nat, config: string)
    ensures ConfigName(owner, version) != SecretName(config)
  {
    var c, x := ConfigName(owner, version), SecretName(config);
    assert IsDigit(c[|c| - 1]) && x[|x| - 1] == 't';
  }

  /** Only the configuration that the AppDeployment refers to is left. */
  ghost predicate OnlyLive(s: State, namespace: string, owner: string) {
    && (forall name :: HasConfig(s, namespace, name, owner) ==>
          && Key(namespace, owner) in s.deployments && s.deployments[Key(namespace, owner)].owner == owner
          && s.deployments[Key(namespace, owner)].configMapRef == name)
    && (forall config :: HasSecret(s, namespace, SecretName(config), owner) ==> HasConfig(s, namespace, config, owner))
  }

  lemma SweptAll(l: State, t: State, namespace: string, owner: string, root: Root, items: seq<(string, Item)>)
    requires Swept(l, t, namespace, owner, root, items, |items|) && Lists(l, namespace, items) && Safe(t) && owner != ""
    ensures OnlyLive(t, namespace, owner)
  {
    forall name | HasConfig(t, namespace, name, owner)
      ensures IsRoot(t, namespace, owner, root) && root.Root? && root.configMapRef == name
    {
      var k := Key(namespace, name);
      assert (name, l.configMaps[k]) in items;
      var j :| 0 <= j < |items| && items[j] == (name, l.configMaps[k]);
      assert Keeps(root, items[j].0);
      if root.secretRef == name {
        assert Resolves(t, Key(namespace, owner), t.deployments[Key(namespace, owner)]);
        var version := ParseInt(t.configMaps[k].version).value;
        ConfigIsNoSecret(owner, version, root.configMapRef);
      }
    }
  }

  method GarbageCollectConfiguration(api: Api, namespace: string, owner: string) returns (r: Outcome)
    requires Safe(api.state) && owner != ""
    modifies api
    ensures Safe(api.state) && old(api.trace) <= api.trace && SafeSince(api.trace, |old(api.trace)|)
    ensures Spares(old(api.state), api.state, namespace, owner)
    ensures r.Ok? ==> OnlyLive(api.state, namespace, owner)
    ensures r.Failure? ==> api.failed
    ensures r.Conflict? ==> Foreign(api.state, Key(namespace, owner)) && ByOthers(old(api.state), api.state)
  {
    var root: Root;
    r, root := ReadRoot(api, namespace, owner);
    if r.Ok? {
      ghost var s := api.state;
      r := Sweep(api, namespace, owner, root);
      SparesTwice(old(api.state), s, api.state, namespace, owner);
    }
  }

  method Sweep(api: Api, namespace: string, owner: string, root: Root) returns (r: Outcome)
    requires Safe(api.state) && owner != "" && IsRoot(api.state, namespace, owner, root)
    modifies api
    ensures Safe(api.state) && old(api.trace) <= api.trace && SafeSince(api.trace, |old(api.trace)|)
    ensures Spares(old(api.state), api.state, namespace, owner)
    ensures r.Ok? ==> OnlyLive(api.state, namespace, owner)
    ensures !r.Conflict? && (r.Failure? ==> api.failed)
  {
    var ok, items := api.ListConfigMaps(namespace);
    OthersSpare(old(api.state), api.state, namespace, owner);
    if !ok {
      return Failure;
    }
    ghost var l := api.state;
    ghost var before := api.trace;
    r := SweepItems(api, namespace, owner, root, items);
    SparesTwice(old(api.state), l, api.state, namespace, owner);
    assert before == old(api.trace) + [l];
    if r.Ok? {
      SweptAll(l, api.state, namespace, owner, root, items);
    }
  }

  /** The `n`-th of the listed ConfigMaps; `l` is the state in which they were listed. */
  method SweepItem(api: Api, namespace: string, owner: string, root: Root, items: seq<(string, Item)>, n: nat,
                   ghost l: State)
    returns (r: Outcome)
    requires Safe(api.state) && owner != "" && n < |items| && Lists(l, namespace, items)
    requires Swept(l, api.state, namespace, owner, root, items, n)
    modifies api
    ensures Safe(api.state) && old(api.trace) <= api.trace && SafeSince(api.trace, |old(api.trace)|)
    ensures Spares(l, api.state, namespace, owner)
    ensures r.Ok? ==> Swept(l, api.state, namespace, owner, root, items, n + 1)
    ensures !r.Conflict? && (r.Failure? ==> api.failed)
  {
    r := Ok;
    ghost var t := api.state;
    var (name, item) := items[n];
    if !Keeps(root, name) && Owned(item, name, owner, false) {
      NextIsThere(l, t, namespace, owner, root, items, n);
      r := CollectVersion(api, namespace, name, owner);
      DropSpares(l, t, api.state, namespace, name, owner);
      if r.Ok? {
        SweptOneMore(l, t, api.state, namespace, owner, root, items, n);
      }
    } else {
      SweptSkip(l, t, namespace, owner, root, items, n);
    }
  }

  method SweepItems(api: Api, namespace: string, owner: string, root: Root, items: seq<(string, Item)>)
    returns (r: Outcome)
    requires Safe(api.state) && owner != "" && IsRoot(api.state, namespace, owner, root)
    requires Lists(api.state, namespace, items)
    modifies api
    ensures Safe(api.state) && old(api.trace) <= api.trace && SafeSince(api.trace, |old(api.trace)|)
    ensures Spares(old(api.state), api.state, namespace, owner)
    ensures r.Ok? ==> Swept(old(api.state), api.state, namespace, owner, root, items, |items|)
    ensures !r.Conflict? && (r.Failure? ==> api.failed)
  {
    r := Ok;
    for n := 0 to |items|
      invariant r.Ok? && Safe(api.state) && old(api.trace) <= api.trace && SafeSince(api.trace, |old(api.trace)|)
      invariant Swept(old(api.state), api.state, namespace, owner, root, items, n)
    {
      r := SweepItem(api, namespace, owner, root, items, n, old(api.state));
      if !r.Ok? {
        return;
      }
    }
  }

  // ---------- Whole runs

  datatype Operation =
    | Apply(namespace: string, name: string, version: int, plain: seq<(string, string)>, secret: seq<(string, string)>,
            needsVolume: bool, hasVolume: bool)
    | Remove(namespace: string, name: string)
    | Collect(namespace: string, name: string)

  /**
   Whatever the operations, whatever fails and wherever the Agent crashes and starts over:
   after every single API call every owned Secret has its ConfigMap and every reference of an
   AppDeployment of the control plane resolves.
   */
  method RunOperations(api: Api, operations: seq<Operation>)
    requires Safe(api.state) && forall o :: o in operations ==> o.name != "" && (o.Apply? ==> o.version <= MAX_INT64)
    modifies api
    ensures Safe(api.state) && old(api.trace) <= api.trace && SafeSince(api.trace, |old(api.trace)|)
  {
    for n := 0 to |operations|
      invariant Safe(api.state) && old(api.trace) <= api.trace && SafeSince(api.trace, |old(api.trace)|)
    {
      var r: Outcome;
      match operations[n]
      case Apply(namespace, name, version, plain, secret, needsVolume, hasVolume) =>
        r := ApplyDeployment(api, namespace, name, version, plain, secret, needsVolume, hasVolume);
      case Remove(namespace, name) =>
        r := DeleteDeployment(api, namespace, name);
      case Collect(namespace, name) =>
        r := GarbageCollectConfiguration(api, namespace, name);
    }
  }
}
