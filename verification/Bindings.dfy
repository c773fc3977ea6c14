/**
 Binding targets and observations, and their conversion to and from the wire format of the
 control channel.
 */
module Bindings {
  import opened Options

  const MAX_TARGETS := 32
  const KIND_STORAGE := "Storage"
  const KIND_PUBLICATION := "PublicationHTTP"

  datatype StorageTarget = StorageTarget(storageClassName: string)
  datatype PublicationTarget = PublicationTarget(gatewayNamespace: string, gatewayName: string, sectionName: string)
  datatype Target = Target(id: string, kind: string, version: int, storage: Option<StorageTarget>,
                           publication: Option<PublicationTarget>)

  /** On the wire a target carries at most one of the two forms. */
  datatype TargetForm = NoForm | StorageForm(storage: StorageTarget) | PublicationForm(publication: PublicationTarget)
  datatype WireTarget = WireTarget(id: string, kind: string, version: int, form: TargetForm)

  // ---------- Validation

  predicate Lower(c: char) { 'a' <= c <= 'z' }
  predicate Alphanumeric(c: char) { Lower(c) || '0' <= c <= '9' }

  predicate ValidId(s: string) {
    1 <= |s| <= 128 && Lower(s[0]) && forall k :: 0 <= k < |s| ==> Alphanumeric(s[k]) || s[k] == ':' || s[k] == '-'
  }

  /** A DNS label, or with `dots` a DNS subdomain */
  predicate ValidName(s: string, dots: bool, limit: nat) {
    && 1 <= |s| <= limit && Alphanumeric(s[0]) && Alphanumeric(s[|s| - 1])
    && forall k :: 0 <= k < |s| ==> Alphanumeric(s[k]) || s[k] == '-' || (dots && s[k] == '.')
  }

  predicate ValidTarget(t: Target) {
    && ValidId(t.id) && t.version >= 1
    && if t.kind == KIND_STORAGE then
         t.storage.Some? && t.publication.None? && ValidName(t.storage.value.storageClassName, true, 253)
       else if t.kind == KIND_PUBLICATION then
         && t.publication.Some? && t.storage.None?
         && ValidName(t.publication.value.gatewayNamespace, false, 63)
         && ValidName(t.publication.value.gatewayName, true, 253)
         && ValidName(t.publication.value.sectionName, false, 63)
       else false
  }

  // ---------- Targets

  /** The conversion reads the form that the kind announces. */
  predicate Announced(t: Target) {
    (t.kind == KIND_STORAGE ==> t.storage.Some?) && (t.kind == KIND_PUBLICATION ==> t.publication.Some?)
  }

  function ToWire(t: Target): WireTarget
    requires Announced(t)
  {
    WireTarget(t.id, t.kind, t.version,
               if t.kind == KIND_STORAGE then StorageForm(t.storage.value)
               else if t.kind == KIND_PUBLICATION then PublicationForm(t.publication.value)
               else NoForm)
  }

  function FromWire(w: WireTarget): Target {
    Target(w.id, w.kind, w.version,
           if w.form.StorageForm? then Some(w.form.storage) else None,
           if w.form.PublicationForm? then Some(w.form.publication) else None)
  }

  predicate DistinctIds(ts: seq<Target>) {
    forall i, j :: 0 <= i < j < |ts| ==> ts[i].id != ts[j].id
  }

  /** The targets a server may announce to the Agent */
  predicate Acceptable(ts: seq<Target>) {
    |ts| <= MAX_TARGETS && DistinctIds(ts) && forall i :: 0 <= i < |ts| ==> ValidTarget(ts[i])
  }

  function AllToWire(ts: seq<Target>): seq<WireTarget>
    requires forall i :: 0 <= i < |ts| ==> Announced(ts[i])
  {
    seq(|ts|, i requires 0 <= i < |ts| => ToWire(ts[i]))
  }

  function AllFromWire(ws: seq<WireTarget>): seq<Target> {
    seq(|ws|, i requires 0 <= i < |ws| => FromWire(ws[i]))
  }

  /** What the Agent makes of announced targets: all of them, or nothing when any is unacceptable */
  function Adopt(ws: seq<WireTarget>): Option<seq<Target>> {
    if Acceptable(AllFromWire(ws)) then Some(AllFromWire(ws)) else None
  }

  method TargetsToWire(ts: seq<Target>) returns (ws: seq<WireTarget>)
    requires forall i :: 0 <= i < |ts| ==> Announced(ts[i])
    ensures ws == AllToWire(ts)
  {
    ws := [];
    for n := 0 to |ts|
      invariant ws == AllToWire(ts[..n])
    {
      ws := ws + [ToWire(ts[n])];
    }
    assert ts[..|ts|] == ts;
  }

  /** The Agent's conversion stops at the first target that is a duplicate or invalid. */
  method TargetsFromWire(ws: seq<WireTarget>) returns (r: Option<seq<Target>>)
    ensures r == Adopt(ws)
    ensures r.Some? <==> Acceptable(AllFromWire(ws))
  {
    if |ws| > MAX_TARGETS {
      return None;
    }
    var result: seq<Target>, seen: set<string> := [], {};
    for n := 0 to |ws|
      invariant result == AllFromWire(ws[..n]) && Acceptable(result)
      invariant forall i :: 0 <= i < n ==> result[i].id in seen
      invariant forall id :: id in seen ==> exists i :: 0 <= i < n && result[i].id == id
    {
      var item := FromWire(ws[n]);
      assert AllFromWire(ws)[n] == item && forall i :: 0 <= i < n ==> AllFromWire(ws)[i] == result[i];
      if item.id in seen {
        return None;
      }
      if !ValidTarget(item) {
        return None;
      }
      ghost var before := result;
      seen := seen + {item.id};
      result := result + [item];
      assert result[n].id == item.id && forall i :: 0 <= i < n ==> result[i] == before[i];
    }
    assert ws[..|ws|] == ws;
    return Some(result);
  }

  /** What the server announces is what the Agent adopts, exactly when the targets are acceptable. */
  lemma TargetsRoundTrip(ts: seq<Target>)
    requires forall i :: 0 <= i < |ts| ==> Announced(ts[i])
    ensures Adopt(AllToWire(ts)) == Some(ts) <==> Acceptable(ts)
  {
    var back := AllFromWire(AllToWire(ts));
    if Acceptable(ts) {
      assert forall i :: 0 <= i < |ts| ==> back[i] == ts[i];
      assert back == ts;
    }
  }

  // ---------- Observations

  const NANOS := 1_000_000_000

  datatype StorageFacts = StorageFacts(storageClassName: string, provisioner: string, accessModes: seq<string>,
                                       allowExpansion: bool, volumeBindingMode: string)
  datatype PublicationFacts = PublicationFacts(gatewayNamespace: string, gatewayName: string, sectionName: string,
                                               gatewayClassName: string, classAccepted: bool, programmed: bool,
                                               listenerReady: bool, routeKinds: seq<string>)

  /** `sampledAt` is in nanoseconds since the epoch. */
  datatype Observation = Observation(id: string, kind: string, version: int, health: string, reason: string,
                                     sampledAt: int, storage: Option<StorageFacts>,
                                     publication: Option<PublicationFacts>)

  datatype ObservationForm = NoFacts | Storage(storage: StorageFacts) | Publication(publication: PublicationFacts)
  datatype WireObservation = WireObservation(id: string, kind: string, version: int, health: string, reason: string,
                                             sampledAtUnix: int, form: ObservationForm)

  /** With both forms present the second one wins. */
  function ObservationToWire(o: Observation): WireObservation {
    WireObservation(o.id, o.kind, o.version, o.health, o.reason, o.sampledAt / NANOS,
                    if o.publication.Some? then Publication(o.publication.value)
                    else if o.storage.Some? then Storage(o.storage.value)
                    else NoFacts)
  }

  function ObservationFromWire(w: WireObservation): Observation {
    Observation(w.id, w.kind, w.version, w.health, w.reason, w.sampledAtUnix * NANOS,
                if w.form.Storage? then Some(w.form.storage) else None,
                if w.form.Publication? then Some(w.form.publication) else None)
  }

  function Report(os: seq<Observation>): seq<WireObservation> {
    seq(|os|, i requires 0 <= i < |os| => ObservationToWire(os[i]))
  }

  /** What the server makes of reported observations */
  function Receive(ws: seq<WireObservation>): Option<seq<Observation>> {
    if |ws| > MAX_TARGETS then None else Some(seq(|ws|, i requires 0 <= i < |ws| => ObservationFromWire(ws[i])))
  }

  method ObservationsFromWire(ws: seq<WireObservation>) returns (r: Option<seq<Observation>>)
    ensures r == Receive(ws)
  {
    if |ws| > MAX_TARGETS {
      return None;
    }
    var result: seq<Observation> := [];
    for n := 0 to |ws|
      invariant |result| == n && forall i :: 0 <= i < n ==> result[i] == ObservationFromWire(ws[i])
    {
      result := result + [ObservationFromWire(ws[n])];
    }
    assert result == Receive(ws).value;
    return Some(result);
  }

  /** Observations arrive unchanged exactly if there are at most 32, each has one form at most and a whole second. */
  lemma ObservationsRoundTrip(os: seq<Observation>)
    ensures Receive(Report(os)) == Some(os) <==>
              |os| <= MAX_TARGETS &&
              forall i :: 0 <= i < |os| ==>
                os[i].sampledAt % NANOS == 0 && !(os[i].storage.Some? && os[i].publication.Some?)
  {
    var ws := Report(os);
    if |os| <= MAX_TARGETS {
      var back := Receive(ws).value;
      forall i | 0 <= i < |os|
        ensures back[i] == os[i] <==> os[i].sampledAt % NANOS == 0 && !(os[i].storage.Some? && os[i].publication.Some?)
      {
        assert back[i] == ObservationFromWire(ObservationToWire(os[i]));
      }
      assert back == os <==> forall i :: 0 <= i < |os| ==> back[i] == os[i];
    }
  }
}
