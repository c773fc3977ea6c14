/**
 The Agent's identity: a Secret that is read and rewritten by enrolment and renewal, one store
 call at a time. Calls may fail, writes may fail after they took effect, and the Agent may crash
 after every call. Keys and certificates are opaque; `matches` says which belong together.
 */
module AgentIdentity {

  datatype Field =
    | AttemptId | PrivateKey | Csr
    | InstallationId | Certificate | CaCertificate | ServerCa | TrustBundleId
    | RenewalAttemptId | RenewalKey | RenewalCsr

  /** The identity Secret: its data, and the certificate's expiry (0 when absent) */
  datatype Secret = Secret(data: map<Field, string>, notAfter: int)
  {
    function Get(f: Field): string { if f in data then data[f] else "" }
  }

  const EMPTY := Secret(map[], 0)

  /** The identity as the Agent holds it in memory */
  datatype Stored = Stored(attemptId: string, key: string, csr: string, installation: string, certificate: string,
                           ca: string, serverCa: string, bundle: string, expires: int,
                           renewalId: string, renewalKey: string, renewalCsr: string)

  datatype Issued = Issued(installation: string, key: string, certificate: string, ca: string, serverCa: string,
                           bundle: string, expires: int)

  function Load(s: Secret): Stored {
    Stored(s.Get(AttemptId), s.Get(PrivateKey), s.Get(Csr), s.Get(InstallationId), s.Get(Certificate),
           s.Get(CaCertificate),
           if s.Get(ServerCa) == "" then s.Get(CaCertificate) else s.Get(ServerCa), s.Get(TrustBundleId), s.notAfter,
           s.Get(RenewalAttemptId), s.Get(RenewalKey), s.Get(RenewalCsr))
  }

  // ---------- The three writes

  function WithEnrollment(s: Secret, v: Stored): Secret {
    s.(data := s.data[AttemptId := v.attemptId][PrivateKey := v.key][Csr := v.csr])
  }

  function WithRenewal(s: Secret, v: Stored): Secret {
    s.(data := s.data[RenewalAttemptId := v.renewalId][RenewalKey := v.renewalKey][RenewalCsr := v.renewalCsr])
  }

  /** Replaces the certificate, and the key if one comes with it, and forgets the renewal. */
  function WithCertificate(s: Secret, c: Issued): Secret {
    var keyed := if c.key != "" then s.data[PrivateKey := c.key] else s.data;
    var issued := keyed[InstallationId := c.installation][Certificate := c.certificate][CaCertificate := c.ca]
      [ServerCa := if c.serverCa == "" then c.ca else c.serverCa][TrustBundleId := c.bundle];
    Secret(issued - {RenewalAttemptId, RenewalKey, RenewalCsr}, c.expires)
  }

  /** What the next reconciliation reads after a certificate was saved */
  predicate Issues(before: Stored, after: Stored, c: Issued) {
    && after.installation == c.installation && after.certificate == c.certificate && after.ca == c.ca
    && after.serverCa == (if c.serverCa == "" then c.ca else c.serverCa)
    && after.bundle == c.bundle && after.expires == c.expires
    && after.key == (if c.key == "" then before.key else c.key)
    && after.attemptId == before.attemptId && after.csr == before.csr
    && after.renewalId == "" && after.renewalKey == "" && after.renewalCsr == ""
  }

  /** Each write shows in its own fields when the identity is read back, and in no other. */
  lemma EnrollmentReadBack(s: Secret, v: Stored)
    ensures Load(WithEnrollment(s, v)) == Load(s).(attemptId := v.attemptId, key := v.key, csr := v.csr)
  {
  }

  lemma RenewalReadBack(s: Secret, v: Stored)
    ensures Load(WithRenewal(s, v)) ==
            Load(s).(renewalId := v.renewalId, renewalKey := v.renewalKey, renewalCsr := v.renewalCsr)
  {
  }

  lemma CertificateReadBack(s: Secret, c: Issued)
    ensures Issues(Load(s), Load(WithCertificate(s, c)), c)
  {
  }

  /** The authority that the Agent checks the server against */
  function Authority(v: Stored): string {
    if v.serverCa == "" then v.ca else v.serverCa
  }

  /** The same identity, up to where the server's authority is written */
  predicate SameIdentity(v: Stored, w: Stored) {
    v.(serverCa := Authority(v)) == w.(serverCa := Authority(w))
  }

  /** The identity in memory after a renewal: the installation is not taken over from the certificate. */
  function Renew(v: Stored, c: Issued): Stored {
    v.(key := c.key, certificate := c.certificate, ca := c.ca, serverCa := c.serverCa, bundle := c.bundle,
       expires := c.expires, renewalId := "", renewalKey := "", renewalCsr := "")
  }

  /** Memory and Secret agree after a renewal exactly if the certificate is for the same installation. */
  lemma RenewalAgreesExactly(s: Secret, v: Stored, c: Issued)
    requires SameIdentity(v, Load(s).(installation := v.installation)) && c.key != ""
    ensures SameIdentity(Renew(v, c), Load(WithCertificate(s, c)).(installation := v.installation))
    ensures SameIdentity(Renew(v, c), Load(WithCertificate(s, c))) <==> c.installation == v.installation
  {
    CertificateReadBack(s, c);
  }

  // ---------- What holds of the persisted Secret

  predicate AllOrNothing(a: string, b: string, c: string) {
    (a == "" && b == "" && c == "") || (a != "" && b != "" && c != "")
  }

  /** Both triples are complete or absent, and a certificate belongs to the key beside it. */
  predicate Sound(matches: (string, string) -> bool, s: Secret) {
    && AllOrNothing(s.Get(AttemptId), s.Get(PrivateKey), s.Get(Csr))
    && AllOrNothing(s.Get(RenewalAttemptId), s.Get(RenewalKey), s.Get(RenewalCsr))
    && (s.Get(Certificate) != "" ==> s.Get(PrivateKey) != "" && matches(s.Get(PrivateKey), s.Get(Certificate)))
    && (s.Get(RenewalAttemptId) != "" ==> s.Get(Certificate) != "")
  }

  // ---------- The history of a run

  datatype Event =
    | EnrollmentSaved
    | RenewalSaved
    | CertificateSaved
    | Enrolled(token: string, attemptId: string, csr: string)
    | Renewed(attemptId: string, csr: string)
    | Connected(identity: Stored, duration: int)
    | TokenCleared

  /** Something the Agent did, with the Secret as it was persisted right after */
  datatype Entry = Entry(event: Event, secret: Secret)

  predicate EntryOk(matches: (string, string) -> bool, e: Entry) {
    && Sound(matches, e.secret)
    && match e.event
       case Enrolled(t, a, c) =>
         && t != "" && a != "" && a == e.secret.Get(AttemptId) && c == e.secret.Get(Csr)
         && e.secret.Get(Certificate) == ""
       case Renewed(a, c) =>
         && a != "" && a == e.secret.Get(RenewalAttemptId) && c == e.secret.Get(RenewalCsr)
         && e.secret.Get(Certificate) != ""
       case Connected(v, duration) => v.certificate != "" && matches(v.key, v.certificate) && duration > 0
       case TokenCleared => e.secret.Get(Certificate) != ""
       case _ => true
  }

  /** An enrolment identity once persisted stays, and so does a renewal identity until the next certificate. */
  predicate Follows(s: Secret, e: Entry) {
    && (s.Get(AttemptId) != "" ==> e.secret.Get(AttemptId) == s.Get(AttemptId) && e.secret.Get(Csr) == s.Get(Csr))
    && (s.Get(RenewalAttemptId) != "" && !e.event.CertificateSaved? ==>
          e.secret.Get(RenewalAttemptId) == s.Get(RenewalAttemptId) && e.secret.Get(RenewalCsr) == s.Get(RenewalCsr))
    && (s.Get(Certificate) != "" ==> e.secret.Get(Certificate) != "")
  }

  ghost predicate HistoryOk(matches: (string, string) -> bool, h: seq<Entry>) {
    && (forall k :: 0 <= k < |h| ==> EntryOk(matches, h[k]))
    && (forall k :: 0 < k < |h| ==> Follows(h[k - 1].secret, h[k]))
  }

  lemma {:induction false} EnrolmentStays(matches: (string, string) -> bool, h: seq<Entry>, i: nat, j: nat)
    requires HistoryOk(matches, h) && i <= j < |h| && h[i].secret.Get(AttemptId) != ""
    ensures h[j].secret.Get(AttemptId) == h[i].secret.Get(AttemptId) && h[j].secret.Get(Csr) == h[i].secret.Get(Csr)
    decreases j
  {
    if i < j {
      EnrolmentStays(matches, h, i, j - 1);
      assert Follows(h[j - 1].secret, h[j]);
    }
  }

  /** All enrolment calls of a run carry the same attempt and request, and none is made once there is a certificate. */
  lemma EnrollCallsAgree(matches: (string, string) -> bool, h: seq<Entry>, i: nat, j: nat)
    requires HistoryOk(matches, h) && i < j < |h| && h[j].event.Enrolled?
    ensures h[i].event.Enrolled? ==> h[j].event.attemptId == h[i].event.attemptId && h[j].event.csr == h[i].event.csr
    ensures h[i].secret.Get(Certificate) == ""
  {
    assert EntryOk(matches, h[j]) && EntryOk(matches, h[i]);
    if h[i].event.Enrolled? {
      EnrolmentStays(matches, h, i, j);
    }
    if h[i].secret.Get(Certificate) != "" {
      CertificateStays(matches, h, i, j);
    }
  }

  lemma {:induction false} CertificateStays(matches: (string, string) -> bool, h: seq<Entry>, i: nat, j: nat)
    requires HistoryOk(matches, h) && i <= j < |h| && h[i].secret.Get(Certificate) != ""
    ensures h[j].secret.Get(Certificate) != ""
    decreases j
  {
    if i < j {
      CertificateStays(matches, h, i, j - 1);
      assert Follows(h[j - 1].secret, h[j]);
    }
  }

  /** Renewal calls with no certificate saved between them carry the same attempt and request. */
  lemma {:induction false} RenewCallsAgree(matches: (string, string) -> bool, h: seq<Entry>, i: nat, j: nat)
    requires HistoryOk(matches, h) && i < j < |h| && h[i].event.Renewed? && h[j].event.Renewed?
    requires forall k :: i < k < j ==> !h[k].event.CertificateSaved?
    ensures h[j].event == h[i].event
  {
    assert EntryOk(matches, h[i]) && EntryOk(matches, h[j]);
    RenewalStays(matches, h, i, j);
  }

  lemma {:induction false} RenewalStays(matches: (string, string) -> bool, h: seq<Entry>, i: nat, j: nat)
    requires HistoryOk(matches, h) && i <= j < |h| && h[i].secret.Get(RenewalAttemptId) != ""
    requires forall k :: i < k <= j ==> !h[k].event.CertificateSaved?
    ensures h[j].secret.Get(RenewalAttemptId) == h[i].secret.Get(RenewalAttemptId)
    ensures h[j].secret.Get(RenewalCsr) == h[i].secret.Get(RenewalCsr)
    decreases j
  {
    if i < j {
      RenewalStays(matches, h, i, j - 1);
      assert Follows(h[j - 1].secret, h[j]);
    }
  }

  // ---------- Reconciliation

  datatype Result = Done | Crashed | Failed | IncompleteEnrollment | IncompleteRenewal

  datatype Call = Completed | Errored | Stopped     // Stopped: the Agent crashed during the call

  lemma EnrollmentStaysSound(matches: (string, string) -> bool, s: Secret, v: Stored)
    requires Sound(matches, s) && s.Get(AttemptId) == "" && v.attemptId != "" && v.key != "" && v.csr != ""
    ensures EntryOk(matches, Entry(EnrollmentSaved, WithEnrollment(s, v)))
    ensures Follows(s, Entry(EnrollmentSaved, WithEnrollment(s, v)))
  {
  }

  lemma RenewalStaysSound(matches: (string, string) -> bool, s: Secret, v: Stored)
    requires Sound(matches, s) && s.Get(Certificate) != "" && s.Get(RenewalAttemptId) == "" && v.renewalId != ""
    requires v.renewalKey != "" && v.renewalCsr != ""
    ensures EntryOk(matches, Entry(RenewalSaved, WithRenewal(s, v)))
    ensures Follows(s, Entry(RenewalSaved, WithRenewal(s, v)))
    ensures WithRenewal(s, v).Get(Certificate) == s.Get(Certificate)
    ensures WithRenewal(s, v).Get(PrivateKey) == s.Get(PrivateKey)
  {
  }

  lemma CertificateStaysSound(matches: (string, string) -> bool, s: Secret, c: Issued)
    requires Sound(matches, s) && s.Get(PrivateKey) != "" && c.certificate != ""
    requires matches(if c.key != "" then c.key else s.Get(PrivateKey), c.certificate)
    ensures EntryOk(matches, Entry(CertificateSaved, WithCertificate(s, c)))
    ensures Follows(s, Entry(CertificateSaved, WithCertificate(s, c)))
  {
  }

  class Agent {
    const matches: (string, string) -> bool
    var secret: Secret
    var token: string
    ghost var history: seq<Entry>
    ghost var renewals: nat          // how often a renewal was begun

    ghost predicate Valid()
      reads this
    {
      && Sound(matches, secret)
      && HistoryOk(matches, history)
      && (history != [] ==> history[|history| - 1].secret == secret)
    }

    /** The Agent starts with an empty identity Secret. */
    constructor (matches: (string, string) -> bool, token: string)
      ensures Valid() && history == [] && this.matches == matches && secret == EMPTY
    {
      this.matches := matches;
      this.token := token;
      secret := EMPTY;
      history, renewals := [], 0;
    }

    /**
     Reads the Secret, changes what it read and writes it back, starting over as long as the API
     server reports a conflict.
     */
    method Update(e: Event, mutate: Secret -> Secret) returns (r: Call)
      requires Valid() && EntryOk(matches, Entry(e, mutate(secret))) && Follows(secret, Entry(e, mutate(secret)))
      modifies this`secret, this`history
      ensures Valid() && old(history) <= history
      ensures (secret == mutate(old(secret)) && history == old(history) + [Entry(e, secret)])
              || (secret == old(secret) && history == old(history))
      ensures r.Completed? ==> secret == mutate(old(secret)) && history == old(history) + [Entry(e, secret)]
    {
      var attempt := 0;
      while attempt < 4
        invariant secret == old(secret) && history == old(history) && Valid()
      {
        var readFails: bool, conflict: bool, fails: bool, applied: bool, crashes: bool := *, *, *, *, *;
        if readFails {
          return Errored;
        }
        var after := mutate(secret);
        if !conflict {
          if applied || (!fails && !crashes) {
            secret := after;
            history := history + [Entry(e, after)];
          }
          return if crashes then Stopped else if fails then Errored else Completed;
        }
        attempt := attempt + 1;
      }
      return Errored;
    }

    method LogCall(e: Event)
      requires Valid() && EntryOk(matches, Entry(e, secret)) && !e.CertificateSaved?
      modifies this`history
      ensures Valid() && history == old(history) + [Entry(e, secret)]
    {
      history := history + [Entry(e, secret)];
    }

    method SaveEnrollmentIdentity(v: Stored) returns (r: Call)
      requires Valid() && secret.Get(AttemptId) == ""
      modifies this`secret, this`history
      ensures Valid() && (history == old(history) || history == old(history) + [Entry(EnrollmentSaved, secret)])
      ensures secret == WithEnrollment(old(secret), v) || secret == old(secret)
      ensures r.Completed? ==>
                && v.attemptId != "" && v.key != "" && v.csr != ""
                && Load(secret) == Load(old(secret)).(attemptId := v.attemptId, key := v.key, csr := v.csr)
    {
      if v.attemptId == "" || v.key == "" || v.csr == "" {
        return Errored;
      }
      EnrollmentStaysSound(matches, secret, v);
      EnrollmentReadBack(secret, v);
      r := Update(EnrollmentSaved, s => WithEnrollment(s, v));
    }

    method SaveRenewalIdentity(v: Stored) returns (r: Call)
      requires Valid() && secret.Get(Certificate) != "" && secret.Get(RenewalAttemptId) == ""
      modifies this`secret, this`history
      ensures Valid() && (history == old(history) || history == old(history) + [Entry(RenewalSaved, secret)])
      ensures secret == WithRenewal(old(secret), v) || secret == old(secret)
      ensures r.Completed? ==>
                && v.renewalId != "" && v.renewalKey != "" && v.renewalCsr != ""
                && Load(secret) ==
                   Load(old(secret)).(renewalId := v.renewalId, renewalKey := v.renewalKey, renewalCsr := v.renewalCsr)
    {
      if v.renewalId == "" || v.renewalKey == "" || v.renewalCsr == "" {
        return Errored;
      }
      RenewalStaysSound(matches, secret, v);
      RenewalReadBack(secret, v);
      r := Update(RenewalSaved, s => WithRenewal(s, v));
    }

    method SaveCertificate(c: Issued) returns (r: Call)
      requires Valid() && secret.Get(PrivateKey) != ""
      requires matches(if c.key != "" then c.key else secret.Get(PrivateKey), c.certificate)
      modifies this`secret, this`history
      ensures Valid() && (history == old(history) || history == old(history) + [Entry(CertificateSaved, secret)])
      ensures secret == old(secret) || (c.certificate != "" && secret == WithCertificate(old(secret), c))
      ensures r.Completed? ==> c.certificate != "" && Issues(Load(old(secret)), Load(secret), c)
    {
      if c.installation == "" || c.certificate == "" || c.ca == "" || c.bundle == "" || c.expires == 0 {
        return Errored;
      }
      CertificateStaysSound(matches, secret, c);
      CertificateReadBack(secret, c);
      r := Update(CertificateSaved, s => WithCertificate(s, c));
    }

    /** A new attempt with a key and a request for it, or an error */
    method NewEnrollmentIdentity() returns (ok: bool, attemptId: string, key: string, csr: string)
      ensures ok ==> attemptId != "" && key != "" && csr != ""
    {
      ok, attemptId, key, csr := *, *, *, *;
      ok := ok && attemptId != "" && key != "" && csr != "";
    }

    /** Accepts only a certificate for this key. */
    method ValidateCertificate(key: string, c: Issued) returns (ok: bool)
      ensures ok ==> c.certificate != "" && matches(key, c.certificate) && c.bundle != "" && c.expires != 0
    {
      ok := *;
      ok := ok && c.certificate != "" && matches(key, c.certificate) && c.bundle != "" && c.expires != 0;
    }

    method EnsureEnrollmentIdentity(stored: Stored) returns (r: Result, v: Stored)
      requires Valid() && stored == Load(secret) && stored.certificate == ""
      modifies this`secret, this`history
      ensures Valid() && old(history) <= history
      ensures !r.IncompleteEnrollment? && !r.IncompleteRenewal?
      ensures r.Done? ==> v == Load(secret) && v.attemptId != "" && v.key != "" && v.certificate == ""
      ensures forall k :: |old(history)| <= k < |history| ==> history[k].event.EnrollmentSaved?
    {
      v := stored;
      if stored.attemptId != "" && stored.key != "" && stored.csr != "" {
        return Done, stored;
      }
      if stored.attemptId != "" || stored.key != "" || stored.csr != "" {
        return IncompleteEnrollment, stored;
      }
      var ok, attemptId, key, csr := NewEnrollmentIdentity();
      if !ok {
        return Failed, stored;
      }
      v := stored.(attemptId := attemptId, key := key, csr := csr);
      var saved := SaveEnrollmentIdentity(v);
      r := if saved.Completed? then Done else if saved.Stopped? then Crashed else Failed;
    }

    /** What is held in memory can be used, and it is the persisted identity but for the installation. */
    ghost predicate Usable(v: Stored)
      reads this
    {
      && v.certificate != "" && matches(v.key, v.certificate)
      && SameIdentity(v, Load(secret).(installation := v.installation))
    }

    /** Persists a renewal identity unless there is one already. */
    method EnsureRenewalIdentity(stored: Stored) returns (r: Result, v: Stored)
      requires Valid() && Usable(stored)
      modifies this`secret, this`history
      ensures Valid() && old(history) <= history && secret.Get(Certificate) != ""
      ensures v == stored.(renewalId := v.renewalId, renewalKey := v.renewalKey, renewalCsr := v.renewalCsr)
      ensures !r.IncompleteEnrollment? && !r.IncompleteRenewal?
      ensures r.Done? ==> Usable(v) && v.renewalId != "" && v.renewalKey != "" && v.renewalCsr != ""
      ensures |history| > |old(history)| ==> history[|old(history)|].event.RenewalSaved?
    {
      v := stored;
      if stored.renewalId != "" && stored.renewalKey != "" && stored.renewalCsr != "" {
        return Done, stored;
      }
      if stored.renewalId != "" || stored.renewalKey != "" || stored.renewalCsr != "" {
        return IncompleteRenewal, stored;
      }
      var ok, attemptId, key, csr := NewEnrollmentIdentity();
      if !ok {
        return Failed, stored;
      }
      v := stored.(renewalId := attemptId, renewalKey := key, renewalCsr := csr);
      RenewalStaysSound(matches, secret, v);
      var saved := SaveRenewalIdentity(v);
      r := if saved.Completed? then Done else if saved.Stopped? then Crashed else Failed;
    }

    /** Asks for the certificate of a persisted renewal identity, and persists it with its key. */
    method ObtainRenewal(stored: Stored) returns (r: Result, v: Stored)
      requires Valid() && Usable(stored) && stored.renewalId != "" && stored.renewalKey != "" && stored.renewalCsr != ""
      modifies this`secret, this`history
      ensures Valid() && old(history) + [Entry(Renewed(stored.renewalId, stored.renewalCsr), old(secret))] <= history
      ensures secret.Get(Certificate) != "" && r != IncompleteEnrollment && r != IncompleteRenewal
      ensures v.certificate != "" && matches(v.key, v.certificate) && v.installation == stored.installation
      ensures if r.Done? then Usable(v) && v.renewalId == "" else v == stored
    {
      v := stored;
      LogCall(Renewed(v.renewalId, v.renewalCsr));
      var issued: bool, crashes: bool, certificate: Issued := *, *, *;
      if crashes {
        return Crashed, v;
      }
      if !issued {
        return Failed, v;
      }
      var valid := ValidateCertificate(v.renewalKey, certificate);
      if !valid {
        return Failed, v;
      }
      certificate := certificate.(key := v.renewalKey);
      var saved := SaveCertificate(certificate);
      if !saved.Completed? {
        return if saved.Stopped? then Crashed else Failed, v;
      }
      v := Renew(v, certificate);
      r := Done;
    }

    /** On success the identity in hand is the persisted one, apart from the installation, which stays as it was. */
    method RenewCertificate(stored: Stored) returns (r: Result, v: Stored)
      requires Valid() && Usable(stored)
      modifies this`secret, this`history, this`renewals
      ensures Valid() && old(history) <= history && secret.Get(Certificate) != ""
      ensures v.certificate != "" && matches(v.key, v.certificate) && v.installation == stored.installation
      ensures !r.IncompleteEnrollment? && !r.IncompleteRenewal? && renewals == old(renewals) + 1
      ensures r.Done? ==> Usable(v) && v.renewalId == "" && |history| > |old(history)|
      ensures !r.Done? ==> v.key == stored.key && v.certificate == stored.certificate && v.expires == stored.expires
      ensures |history| > |old(history)| ==>
                history[|old(history)|].event.RenewalSaved? || history[|old(history)|].event.Renewed?
    {
      renewals := renewals + 1;
      r, v := EnsureRenewalIdentity(stored);
      if r.Done? {
        r, v := ObtainRenewal(v);
      }
    }

    method ReadToken() returns (ok: bool, value: string)
      modifies this`token
      ensures ok ==> value == token
    {
      token := *;                    // an operator may have put a token there
      ok := *;
      value := token;
    }

    method ClearEnrollmentToken() returns (r: Call)
      requires Valid() && secret.Get(Certificate) != ""
      modifies this`token, this`history
      ensures Valid() && old(history) <= history
      ensures r.Completed? ==> token == ""
    {
      var ok, value := ReadToken();
      if !ok {
        return Errored;
      }
      if value == "" {
        return Completed;
      }
      var applied: bool := *;
      r := *;
      if applied || r.Completed? {
        token := "";
        LogCall(TokenCleared);
      }
    }

    method ConnectFor(v: Stored, duration: int) returns (ok: bool, bundleChanged: bool)
      requires Valid() && v.certificate != "" && matches(v.key, v.certificate)
      modifies this`history
      ensures Valid()
      ensures history == old(history) + if duration > 0 then [Entry(Connected(v, duration), secret)] else []
      ensures duration <= 0 ==> !ok && !bundleChanged
      ensures bundleChanged ==> !ok
    {
      ok, bundleChanged := false, false;
      if duration > 0 {
        LogCall(Connected(v, duration));
        ok, bundleChanged := *, *;
        ok := ok && !bundleChanged;
      }
    }

    /** Obtains and persists the first certificate. */
    method EnrollOnce(stored: Stored, configured: bool) returns (r: Result, v: Stored, waiting: bool)
      requires Valid() && stored == Load(secret) && stored.certificate == ""
      modifies this`secret, this`history, this`token
      ensures Valid() && old(history) <= history
      ensures !r.IncompleteEnrollment? && !r.IncompleteRenewal?
      ensures r.Done? && !waiting ==> Usable(v) && SameIdentity(v, Load(secret))
      ensures !configured ==> forall k :: |old(history)| <= k < |history| ==> history[k].event.EnrollmentSaved?
    {
      waiting := true;
      r, v := EnsureEnrollmentIdentity(stored);
      if !r.Done? {
        return;
      }
      var readable, value := ReadToken();
      if !readable {
        return Failed, v, true;
      }
      if value == "" || !configured {
        return Done, v, true;
      }
      LogCall(Enrolled(value, v.attemptId, v.csr));
      var issued: bool, crashes: bool, certificate: Issued := *, *, *;
      if crashes {
        return Crashed, v, true;
      }
      if !issued {
        return Failed, v, true;
      }
      certificate := certificate.(key := "");
      var valid := ValidateCertificate(v.key, certificate);
      if !valid {
        return Failed, v, true;
      }
      var saved := SaveCertificate(certificate);
      if !saved.Completed? {
        return if saved.Stopped? then Crashed else Failed, v, true;
      }
      v := v.(installation := certificate.installation, certificate := certificate.certificate, ca := certificate.ca,
              serverCa := certificate.serverCa, bundle := certificate.bundle, expires := certificate.expires);
      return Done, v, false;
    }

    /**
     One reconciliation. `window` is the renewal window; clocks are read anew at every use.
     The two errors about incomplete identities are never returned.
     */
    method ReconcileOnce(enroller: bool, connector: bool, renewer: bool, window: int) returns (r: Result)
      requires Valid()
      modifies this
      ensures Valid() && old(history) <= history
      ensures !r.IncompleteEnrollment? && !r.IncompleteRenewal?
    {
      var unreadable: bool := *;
      if unreadable {
        return Failed;
      }
      var stored := Load(secret);
      if stored.certificate == "" {
        var waiting: bool;
        r, stored, waiting := EnrollOnce(stored, enroller);
        if !r.Done? || waiting {
          return;
        }
      }
      var cleared := ClearEnrollmentToken();
      if !cleared.Completed? {
        return if cleared.Stopped? then Crashed else Failed;
      }
      if !connector {
        return Done;
      }
      var clock: seq<int> := *;
      if |clock| != 5 {
        clock := [0, 0, 0, 0, 0];
      }
      r := ConnectOrRenew(stored, renewer, window, clock);
    }

    /** When a certificate is due for renewal, and for how long the Agent connects with it otherwise */
    predicate Due(v: Stored, renewer: bool, window: int, now: int) {
      renewer && v.expires <= now + window
    }

    function Lifetime(v: Stored, window: int, now: int): int {
      var left := v.expires - (now + window);
      if left <= 0 then FIVE_MINUTES else left
    }

    /**
     `clock` are the readings of the clock, in order. An expired certificate is not used, one that
     is due is renewed first, and any other is connected with until it is due.
     */
    method ConnectOrRenew(loaded: Stored, renewer: bool, window: int, clock: seq<int>) returns (r: Result)
      requires Valid() && Usable(loaded) && |clock| == 5
      modifies this`secret, this`history, this`renewals
      ensures Valid() && old(history) <= history
      ensures !r.IncompleteEnrollment? && !r.IncompleteRenewal?
      ensures loaded.expires == 0 || loaded.expires <= clock[0] ==> r.Failed? && history == old(history)
      ensures loaded.expires != 0 && clock[0] < loaded.expires && !Due(loaded, renewer, window, clock[1]) ==>
                && |history| > |old(history)|
                && history[|old(history)|].event == Connected(loaded, Lifetime(loaded, window, clock[3]))
      ensures loaded.expires != 0 && clock[0] < loaded.expires && Due(loaded, renewer, window, clock[1]) ==>
                && renewals > old(renewals)
                && (|history| > |old(history)| ==> BeginsRenewal(loaded, history[|old(history)|].event))
      ensures !renewer ==> renewals == old(renewals)
    {
      if loaded.expires == 0 || loaded.expires <= clock[0] {
        return Failed;
      }
      if renewer && loaded.expires <= clock[1] + window {
        r := RenewThenConnect(loaded, window, clock);
      } else {
        r := ConnectThenRenew(loaded, renewer, window, clock);
      }
    }

    /** What a renewal does first: it persists or sends its request, or, having failed, connects for five minutes. */
    predicate BeginsRenewal(v: Stored, e: Event) {
      || e.RenewalSaved? || e.Renewed?
      || (e.Connected? && e.identity.certificate == v.certificate && e.duration <= FIVE_MINUTES)
    }

    /** The certificate is due: without a new one the Agent connects for five minutes at most. */
    method RenewThenConnect(loaded: Stored, window: int, clock: seq<int>) returns (r: Result)
      requires Valid() && Usable(loaded) && |clock| == 5
      modifies this`secret, this`history, this`renewals
      ensures Valid() && old(history) <= history
      ensures !r.IncompleteEnrollment? && !r.IncompleteRenewal?
      ensures renewals > old(renewals)
      ensures |history| > |old(history)| ==> BeginsRenewal(loaded, history[|old(history)|].event)
    {
      var stored: Stored;
      r, stored := RenewCertificate(loaded);
      if r.Crashed? {
        return;
      }
      if !r.Done? {
        var ok, _ := ConnectFor(stored, Min(FIVE_MINUTES, stored.expires - clock[2]));
        return if ok then Done else Failed;
      }
      r := ConnectThenRenew(stored, true, window, clock);
    }

    /** Connects; when the server asks for another trust bundle, renews and connects once more. */
    method ConnectThenRenew(stored: Stored, renewer: bool, window: int, clock: seq<int>) returns (r: Result)
      requires Valid() && Usable(stored) && |clock| == 5
      modifies this`secret, this`history, this`renewals
      ensures Valid() && old(history) <= history
      ensures !r.IncompleteEnrollment? && !r.IncompleteRenewal?
      ensures |history| > |old(history)|
      ensures history[|old(history)|].event == Connected(stored, Lifetime(stored, window, clock[3]))
      ensures renewals >= old(renewals) && (!renewer ==> renewals == old(renewals))
    {
      var ok, bundleChanged := ConnectFor(stored, Lifetime(stored, window, clock[3]));
      if bundleChanged && renewer {
        var renewed: Stored;
        r, renewed := RenewCertificate(stored);
        if !r.Done? {
          return;
        }
        ok, bundleChanged := ConnectFor(renewed, Min(FIVE_MINUTES, renewed.expires - clock[4]));
      }
      r := if ok then Done else Failed;
    }

    /** Any number of reconciliations, with the Agent starting over after a crash */
    method Run(rounds: nat, enroller: bool, connector: bool, renewer: bool, window: int)
      requires Valid()
      modifies this
      ensures Valid() && old(history) <= history
    {
      for n := 0 to rounds
        invariant Valid() && old(history) <= history
      {
        var r := ReconcileOnce(enroller, connector, renewer, window);
      }
    }
  }

  const FIVE_MINUTES := 300

  function Min(a: int, b: int): int { if a < b then a else b }

  /** From an empty Secret, whatever happens: the whole history is in order. */
  method Live(matches: (string, string) -> bool, token: string, rounds: nat, enroller: bool, connector: bool,
              renewer: bool, window: int)
    returns (agent: Agent)
    ensures fresh(agent) && agent.matches == matches
    ensures HistoryOk(matches, agent.history) && Sound(matches, agent.secret)
  {
    agent := new Agent(matches, token);
    agent.Run(rounds, enroller, connector, renewer, window);
  }
}
