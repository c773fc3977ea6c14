/**
 The worker that turns GitHub deliveries into builds and carries their targets through build and
 deployment. The store and GitHub answer as they like; every call and its answer is recorded.
 */
module DeliveryWorker {
  import opened Options

  datatype Fault = NoFault | NotFound | Collision | Conflict | VersionConflict | OtherFault

  datatype Delivery = Delivery(id: int, event: string, action: string, commit: string, branch: string, tag: string)

  datatype Status = Building | DeployPending | Deploying | Succeeded | Failed | Superseded
  datatype BuildStatus = BuildSucceeded | BuildFailed | BuildTimedOut | BuildSuperseded | BuildRunning
  datatype DeploymentStatus = Ready | Degraded | Progressing

  /** A target of a delivery: which environment it deploys to, and how far it is */
  datatype Target = Target(id: int, publicId: string, status: Status, build: BuildStatus, deployment: DeploymentStatus,
                           release: string)

  datatype AppEnvironment = AppEnvironment(version: int, configurationVersion: int, currentDeployment: string)

  type Candidate = int

  datatype Call =
    | Complete(delivery: Delivery, ignored: bool)
    | Fail(delivery: Delivery, code: string, retryable: bool)
    | ApplyInstallation(fault: Fault)
    | Commit(ref: string, sha: string, fault: Fault)
    | Candidates(found: seq<Candidate>, fault: Fault)
    | CreateTarget(candidate: Candidate, fault: Fault)
    | Mark(id: int, status: Status, code: string, fault: Fault)
    | FindEnvironment(environment: AppEnvironment, fault: Fault)
    | CreateDeployment(key: string, release: string, expected: AppEnvironment, fault: Fault)
    | Attach(id: int, fault: Fault)

  class Store {
    var calls: seq<Call>

    method Record(call: Call)
      modifies this
      ensures calls == old(calls) + [call]
    {
      calls := calls + [call];
    }
  }

  /** Any fault, or none */
  method AnyFault() returns (f: Fault)
  {
    f := *;
  }

  // ---------- One delivery

  /** What the deliveries call for: pings, pushes without a branch and unpublished releases are ignored. */
  predicate Ignored(d: Delivery) {
    || d.event == "ping"
    || (d.event == "push" && (d.commit == "" || d.branch == ""))
    || (d.event == "release" && d.action != "published")
  }

  predicate Installation(d: Delivery) {
    d.event == "installation" || d.event == "installation_repositories"
  }

  /** A release is built from its tag, a push from its commit. */
  function RefOf(d: Delivery): string {
    if d.event == "release" then d.tag else d.commit
  }

  predicate Concludes(call: Call, d: Delivery) {
    (call.Complete? || call.Fail?) && call.delivery == d
  }

  /** At most three attempts for one candidate, repeated only after a collision of identifiers */
  predicate Attempts(calls: seq<Call>, candidate: Candidate, fault: Fault) {
    && |calls| <= 3
    && (forall i :: 0 <= i < |calls| ==> calls[i].CreateTarget? && calls[i].candidate == candidate)
    && (forall i :: 0 <= i < |calls| - 1 ==> calls[i].fault.Collision?)
    && (fault.NoFault? <==> calls != [] && calls[|calls| - 1].fault.NoFault?)
    && (fault.NotFound? <==> calls != [] && calls[|calls| - 1].fault.NotFound?)
    && (fault.Collision? ==> |calls| == 3)
  }

  /** Every candidate got its target, and nothing else happened. */
  predicate AllScheduled(calls: seq<Call>, candidates: seq<Candidate>) {
    && (forall i :: 0 <= i < |calls| ==> calls[i].CreateTarget? && calls[i].candidate in candidates)
    && (forall c :: c in candidates ==> CreateTarget(c, NoFault) in calls)
  }

  method CreateTargetFor(store: Store, candidate: Candidate) returns (fault: Fault, ghost made: seq<Call>)
    modifies store
    ensures store.calls == old(store.calls) + made && Attempts(made, candidate, fault)
  {
    made := [];
    for n := 0 to 3
      invariant |made| == n && store.calls == old(store.calls) + made
      invariant forall i :: 0 <= i < n ==> made[i] == CreateTarget(candidate, Collision)
    {
      var identifiers: bool := *;
      if !identifiers {
        return OtherFault, made;
      }
      fault := AnyFault();
      store.Record(CreateTarget(candidate, fault));
      made := made + [CreateTarget(candidate, fault)];
      if fault.Collision? {
        continue;
      }
      return fault, made;
    }
    return Collision, made;
  }

  /** Only targets of the candidates were made, and those of the first `n` succeeded. */
  predicate Scheduled(made: seq<Call>, candidates: seq<Candidate>, n: nat)
    requires n <= |candidates|
  {
    && (forall i :: 0 <= i < |made| ==> made[i].CreateTarget? && made[i].candidate in candidates)
    && (forall k :: 0 <= k < n ==> CreateTarget(candidates[k], NoFault) in made)
  }

  predicate LastNotFound(made: seq<Call>) {
    made != [] && made[|made| - 1].CreateTarget? && made[|made| - 1].fault.NotFound?
  }

  lemma ScheduledMore(made: seq<Call>, added: seq<Call>, candidates: seq<Candidate>, n: nat, fault: Fault)
    requires n < |candidates| && Scheduled(made, candidates, n) && !LastNotFound(made)
    requires Attempts(added, candidates[n], fault)
    ensures Scheduled(made + added, candidates, n)
    ensures fault.NoFault? ==> Scheduled(made + added, candidates, n + 1)
    ensures LastNotFound(made + added) <==> fault.NotFound?
  {
    var all := made + added;
    assert forall i :: 0 <= i < |made| ==> all[i] == made[i];
    assert forall i :: 0 <= i < |added| ==> all[|made| + i] == added[i];
    if fault.NoFault? {
      assert all[|all| - 1] == CreateTarget(candidates[n], NoFault);
    }
  }

  /** Schedules the candidates in order and stops at the first that cannot be scheduled. */
  method Schedule(store: Store, candidates: seq<Candidate>) returns (fault: Fault, ghost made: seq<Call>)
    modifies store
    ensures store.calls == old(store.calls) + made
    ensures Scheduled(made, candidates, 0)
    ensures fault.NoFault? ==> Scheduled(made, candidates, |candidates|)
    ensures LastNotFound(made) <==> fault.NotFound?
  {
    made := [];
    for n := 0 to |candidates|
      invariant store.calls == old(store.calls) + made
      invariant Scheduled(made, candidates, n) && !LastNotFound(made)
    {
      ghost var added;
      fault, added := CreateTargetFor(store, candidates[n]);
      ScheduledMore(made, added, candidates, n, fault);
      made := made + added;
      if !fault.NoFault? {
        return;
      }
    }
    fault := NoFault;
  }

  /** The calls made for a claimed delivery: some work, then one call that concludes it */
  predicate Concluded(d: Delivery, made: seq<Call>) {
    && made != [] && Concludes(made[|made| - 1], d)
    && forall i :: 0 <= i < |made| - 1 ==> !made[i].Complete? && !made[i].Fail?
  }

  /**
   A delivery that is neither ignored nor about the installation is handled only if every candidate
   got its target.
   */
  predicate HandledInFull(d: Delivery, made: seq<Call>) {
    made != [] && made[|made| - 1] == Complete(d, false) && !Installation(d) ==>
      && |made| >= 4 && made[0].Commit? && made[0].ref == RefOf(d) && made[0].fault.NoFault? && made[1].Candidates?
      && made[1].fault.NoFault? && made[1].found != []
      && (d.event != "release" ==> made[0].sha == d.commit)
      && AllScheduled(made[2..|made| - 1], made[1].found)
  }

  /** It is completed as ignored only if there was nothing to do. */
  predicate IgnoredRightly(d: Delivery, made: seq<Call>) {
    made != [] && made[|made| - 1] == Complete(d, true) ==>
      Ignored(d) || (|made| == 3 && made[1] == Candidates([], NoFault))
  }

  /**
   A failed delivery is retried unless its commit or a target's environment does not exist, or the
   commit is another one.
   */
  predicate RetriedRightly(d: Delivery, made: seq<Call>) {
    made != [] && made[|made| - 1].Fail? ==>
      && |made| >= 2
      && (made[|made| - 1].retryable <==>
          && !(made[0].Commit? && made[0].fault.NotFound?)
          && !(made[0].Commit? && made[0].fault.NoFault? && d.event != "release" && made[0].sha != d.commit)
          && !(made[|made| - 2].CreateTarget? && made[|made| - 2].fault.NotFound?))
  }

  /** The whole account of one delivery: which calls were made, and how the last of them concludes it */
  predicate Accounts(d: Delivery, made: seq<Call>) {
    if Ignored(d) then made == [Complete(d, true)]
    else if Installation(d) then
      && |made| == 2 && made[0].ApplyInstallation?
      && made[1] == if made[0].fault.NoFault? then Complete(d, false) else Fail(d, "installation_update_failed", true)
    else
      && |made| >= 2 && made[0].Commit? && made[0].ref == RefOf(d)
      && if !made[0].fault.NoFault? then made[1..] == [Fail(d, "commit_unavailable", !made[0].fault.NotFound?)]
         else if d.event != "release" && made[0].sha != d.commit then made[1..] == [Fail(d, "commit_mismatch", false)]
         else AccountsScheduling(d, made[1..])
  }

  /** From the resolution of the candidates on */
  predicate AccountsScheduling(d: Delivery, made: seq<Call>) {
    && |made| >= 2 && made[0].Candidates?
    && if !made[0].fault.NoFault? then made[1..] == [Fail(d, "target_resolution_failed", true)]
       else
         var attempts, last := made[1..|made| - 1], made[|made| - 1];
         && (forall i :: 0 <= i < |attempts| ==> attempts[i].CreateTarget? && attempts[i].candidate in made[0].found)
         && if last.Complete? then last == Complete(d, made[0].found == []) && AllScheduled(attempts, made[0].found)
            else last == Fail(d, "target_schedule_failed", !LastNotFound(attempts))
  }

  lemma SchedulingConcludes(d: Delivery, made: seq<Call>)
    requires AccountsScheduling(d, made)
    ensures Concluded(d, made)
  {
    var last := |made| - 1;
    forall i | 0 <= i < last ensures !made[i].Complete? && !made[i].Fail? {
      if i > 0 {
        assert made[0].fault.NoFault? && made[1..last][i - 1] == made[i];
      }
    }
  }

  /** Whatever the account, a claimed delivery gets exactly one Complete or Fail, as the last call made for it. */
  lemma AccountConcludes(d: Delivery, made: seq<Call>)
    requires Accounts(d, made)
    ensures Concluded(d, made)
  {
    if |made| >= 2 && made[0].Commit? && AccountsScheduling(d, made[1..]) {
      SchedulingConcludes(d, made[1..]);
      assert forall i :: 1 <= i < |made| ==> made[i] == made[1..][i - 1];
    }
  }

  lemma NothingToSchedule(calls: seq<Call>)
    ensures AllScheduled(calls, []) ==> calls == []
  {
    if calls != [] {
      assert calls[0].CreateTarget? ==> calls[0].candidate !in [];
    }
  }

  lemma AccountHandlesInFull(d: Delivery, made: seq<Call>)
    requires Accounts(d, made)
    ensures HandledInFull(d, made) && IgnoredRightly(d, made)
  {
    var last := |made| - 1;
    if made[last].Complete? && !Ignored(d) && !Installation(d) {
      var attempts := made[1..][1..|made[1..]| - 1];
      assert attempts == made[2..last];
      NothingToSchedule(attempts);
      if made[1].found != [] {
        var first := made[1].found[0];
        assert first in made[1].found && AllScheduled(attempts, made[1].found);
        assert CreateTarget(first, NoFault) in attempts;
      }
    }
  }

  lemma AccountRetriesRightly(d: Delivery, made: seq<Call>)
    requires Accounts(d, made)
    ensures RetriedRightly(d, made)
  {
    var last := |made| - 1;
    if made[last].Fail? && last >= 2 {
      var attempts := made[1..][1..|made[1..]| - 1];
      assert attempts == made[2..last];
      assert attempts != [] ==> attempts[|attempts| - 1] == made[last - 1];
    }
  }

  /** Resolving and scheduling the candidates and concluding, once the commit is known */
  method ScheduleAll(store: Store, d: Delivery) returns (ghost made: seq<Call>)
    modifies store
    ensures store.calls == old(store.calls) + made && AccountsScheduling(d, made)
  {
    var fault := AnyFault();
    var found: seq<Candidate> := *;
    store.Record(Candidates(found, fault));
    if !fault.NoFault? {
      store.Record(Fail(d, "target_resolution_failed", true));
      return [Candidates(found, fault), Fail(d, "target_resolution_failed", true)];
    }
    ghost var scheduled;
    fault, scheduled := Schedule(store, found);
    var last := if fault.NoFault? then Complete(d, |found| == 0)
                else Fail(d, "target_schedule_failed", !fault.NotFound?);
    store.Record(last);
    made := [Candidates(found, NoFault)] + scheduled + [last];
    SchedulingAccounted(d, made, found, scheduled, last);
  }

  lemma SchedulingAccounted(d: Delivery, made: seq<Call>, found: seq<Candidate>, scheduled: seq<Call>, last: Call)
    requires made == [Candidates(found, NoFault)] + scheduled + [last] && Scheduled(scheduled, found, 0)
    requires || (last == Complete(d, |found| == 0) && Scheduled(scheduled, found, |found|))
             || last == Fail(d, "target_schedule_failed", !LastNotFound(scheduled))
    ensures AccountsScheduling(d, made)
  {
    assert made[1..|made| - 1] == scheduled;
    assert |found| == 0 <==> found == [];
  }

  /** The work on a delivery that names a commit */
  method Deliver(store: Store, d: Delivery) returns (ghost made: seq<Call>)
    requires !Ignored(d) && !Installation(d)
    modifies store
    ensures store.calls == old(store.calls) + made && Accounts(d, made)
  {
    var ref := if d.event == "release" then d.tag else d.commit;
    var fault := AnyFault();
    var sha: string := *;
    store.Record(Commit(ref, sha, fault));
    if !fault.NoFault? {
      store.Record(Fail(d, "commit_unavailable", !fault.NotFound?));
      return [Commit(ref, sha, fault), Fail(d, "commit_unavailable", !fault.NotFound?)];
    }
    if d.event != "release" && sha != d.commit {
      store.Record(Fail(d, "commit_mismatch", false));
      return [Commit(ref, sha, fault), Fail(d, "commit_mismatch", false)];
    }
    made := ScheduleAll(store, d);
    assert ([Commit(ref, sha, fault)] + made)[1..] == made;
    made := [Commit(ref, sha, fault)] + made;
  }

  /**
   A claimed delivery is accounted for in full: it is concluded once, handled only if every candidate
   got its target, ignored only if there was nothing to do, and retried exactly where that can help.
   */
  method RunOnce(store: Store, claimed: Option<Delivery>) returns (found: bool, ghost made: seq<Call>)
    modifies store
    ensures store.calls == old(store.calls) + made && found == claimed.Some?
    ensures claimed.None? ==> made == []
    ensures claimed.Some? ==> Accounts(claimed.value, made)
    ensures claimed.Some? ==> Concluded(claimed.value, made) && RetriedRightly(claimed.value, made)
    ensures claimed.Some? ==> HandledInFull(claimed.value, made) && IgnoredRightly(claimed.value, made)
  {
    if claimed.None? {
      return false, [];
    }
    found := true;
    var d := claimed.value;
    if d.event == "ping" {
      store.Record(Complete(d, true));
      made := [Complete(d, true)];
    } else if d.event == "installation" || d.event == "installation_repositories" {
      var applied := AnyFault();
      store.Record(ApplyInstallation(applied));
      var conclusion := if applied.NoFault? then Complete(d, false) else Fail(d, "installation_update_failed", true);
      store.Record(conclusion);
      made := [ApplyInstallation(applied), conclusion];
    } else if d.event == "push" && (d.commit == "" || d.branch == "") {
      store.Record(Complete(d, true));
      made := [Complete(d, true)];
    } else if d.event == "release" && d.action != "published" {
      store.Record(Complete(d, true));
      made := [Complete(d, true)];
    } else {
      made := Deliver(store, d);
    }
    AccountConcludes(d, made);
    AccountHandlesInFull(d, made);
    AccountRetriesRightly(d, made);
  }

  // ---------- Advancing targets

  /** The status that a target has earned by the outcome of its build or of its deployment */
  predicate Earned(t: Target, status: Status) {
    match status
    case DeployPending => t.status.Building? && t.build.BuildSucceeded?
    case Superseded => t.status.Building? && t.build.BuildSuperseded?
    case Succeeded => t.status.Deploying? && t.deployment.Ready?
    case Failed =>
      || (t.status.Building? && (t.build.BuildFailed? || t.build.BuildTimedOut?))
      || (t.status.Deploying? && t.deployment.Degraded?)
    case _ => false
  }

  /** The reason written beside the status */
  function ReasonFor(t: Target, status: Status): string {
    if status != Failed then "" else if t.status.Building? then "build_failed" else "deployment_degraded"
  }

  /** There is nothing to do for the target now. */
  ghost predicate Waits(t: Target) {
    !t.status.DeployPending? && forall status :: !Earned(t, status)
  }

  /** At most one status is earned, never one that is not ahead, and a finished target earns none. */
  lemma EarnedAhead(t: Target, status: Status, other: Status)
    requires Earned(t, status)
    ensures Earned(t, other) ==> other == status
    ensures !t.status.DeployPending? && (t.status.Building? || t.status.Deploying?)
    ensures t.status.Building? ==> status in {DeployPending, Failed, Superseded}
    ensures t.status.Deploying? ==> status in {Succeeded, Failed}
  {
  }

  /** Exactly running builds, running deployments and finished targets wait. */
  lemma WaitsExactly(t: Target)
    ensures Waits(t) <==>
            || (t.status.Building? && t.build.BuildRunning?) || (t.status.Deploying? && t.deployment.Progressing?)
            || t.status.Succeeded? || t.status.Failed? || t.status.Superseded?
  {
    if t.status.Building? && !t.build.BuildRunning? {
      assert Earned(t, DeployPending) || Earned(t, Superseded) || Earned(t, Failed);
    } else if t.status.Deploying? && !t.deployment.Progressing? {
      assert Earned(t, Succeeded) || Earned(t, Failed);
    }
  }

  predicate Benign(f: Fault) {
    f.NoFault? || f.Conflict? || f.VersionConflict?
  }

  /** The idempotency key of a target's deployment */
  function Key(t: Target): string {
    "delivery-target:" + t.publicId
  }

  lemma KeysDiffer(t: Target, u: Target)
    requires Key(t) == Key(u)
    ensures t.publicId == u.publicId
  {
    assert Key(t)[16..] == t.publicId && Key(u)[16..] == u.publicId;
  }

  /**
   The calls made for one target, and the outcome of the last: the earned status is written; a
   target whose build is done gets a deployment, created from the environment just read and then
   attached; for others there is no call.
   */
  ghost predicate Handled(t: Target, calls: seq<Call>, own: Fault) {
    && (t.status.DeployPending? ==> Deploys(t, calls, own))
    && (forall status :: Earned(t, status) ==> calls == [Mark(t.id, status, ReasonFor(t, status), own)])
    && (Waits(t) ==> calls == [] && own == NoFault)
  }

  predicate Deploys(t: Target, calls: seq<Call>, own: Fault) {
    && |calls| >= 1 && calls[0].FindEnvironment?
    && (|| (calls[0].fault == own != NoFault && |calls| == 1)
        || (calls[0].fault == NoFault && own == OtherFault && |calls| == 1)
        || (calls[0].fault == NoFault && |calls| == 2
            && calls[1] == CreateDeployment(Key(t), t.release, calls[0].environment, own) && own != NoFault)
        || (calls[0].fault == NoFault && |calls| == 3
            && calls[1] == CreateDeployment(Key(t), t.release, calls[0].environment, NoFault)
            && calls[2] == Attach(t.id, own)))
  }

  method CreateDeploymentFor(store: Store, t: Target) returns (fault: Fault)
    modifies store
    ensures old(store.calls) <= store.calls && Deploys(t, store.calls[|old(store.calls)|..], fault)
  {
    ghost var before := store.calls;
    var environment: AppEnvironment := *;
    fault := AnyFault();
    store.Record(FindEnvironment(environment, fault));
    assert store.calls[|before|..] == [FindEnvironment(environment, fault)];
    if !fault.NoFault? {
      return;
    }
    var identifiers: bool := *;
    if !identifiers {
      return OtherFault;
    }
    fault := AnyFault();
    store.Record(CreateDeployment(Key(t), t.release, environment, fault));
    assert store.calls[|before|..] == [FindEnvironment(environment, NoFault),
                                       CreateDeployment(Key(t), t.release, environment, fault)];
    if !fault.NoFault? {
      return;
    }
    fault := AnyFault();
    store.Record(Attach(t.id, fault));
    assert store.calls[|before|..] == [FindEnvironment(environment, NoFault),
                                       CreateDeployment(Key(t), t.release, environment, NoFault), Attach(t.id, fault)];
  }

  /** Marking and deploying assign `err`; a target that waits leaves it as the previous target did. */
  method Advance(store: Store, t: Target, carried: Fault) returns (err: Fault, ghost own: Fault)
    modifies store
    ensures old(store.calls) <= store.calls && Handled(t, store.calls[|old(store.calls)|..], own)
    ensures err == if Waits(t) then carried else own
  {
    WaitsExactly(t);
    err, own := carried, NoFault;
    var next: Option<(Status, string)> := None;
    match t.status {
      case Building =>
        match t.build {
          case BuildSucceeded => next := Some((DeployPending, ""));
          case BuildFailed => next := Some((Failed, "build_failed"));
          case BuildTimedOut => next := Some((Failed, "build_failed"));
          case BuildSuperseded => next := Some((Superseded, ""));
          case BuildRunning =>
        }
      case DeployPending =>
        err := CreateDeploymentFor(store, t);
        own := err;
        return;
      case Deploying =>
        match t.deployment {
          case Ready => next := Some((Succeeded, ""));
          case Degraded => next := Some((Failed, "deployment_degraded"));
          case Progressing =>
        }
      case _ =>
    }
    if next.Some? {
      err := AnyFault();
      own := err;
      store.Record(Mark(t.id, next.value.0, next.value.1, err));
    }
    assert store.calls[|old(store.calls)|..] ==
           if next.Some? then [Mark(t.id, next.value.0, next.value.1, err)] else [];
    assert next.Some? ==> Earned(t, next.value.0) && next.value.1 == ReasonFor(t, next.value.0);
  }

  /** The calls for one target and their outcome */
  datatype Part = Part(calls: seq<Call>, own: Fault)

  function Flatten(parts: seq<Part>): seq<Call> {
    if parts == [] then [] else Flatten(parts[..|parts| - 1]) + parts[|parts| - 1].calls
  }

  lemma FlattenMore(before: seq<Call>, parts: seq<Part>, part: Part)
    ensures before + Flatten(parts + [part]) == before + Flatten(parts) + part.calls
  {
    assert (parts + [part])[..|parts|] == parts;
  }

  /** The first targets are handled, each as it should be. */
  ghost predicate AllHandled(targets: seq<Target>, parts: seq<Part>) {
    |parts| <= |targets| && forall i :: 0 <= i < |parts| ==> Handled(targets[i], parts[i].calls, parts[i].own)
  }

  lemma AllHandledMore(targets: seq<Target>, parts: seq<Part>, part: Part)
    requires AllHandled(targets, parts) && |parts| < |targets|
    requires Handled(targets[|parts|], part.calls, part.own)
    ensures AllHandled(targets, parts + [part])
  {
  }

  /** None of the outcomes so far ends the round. */
  predicate AllBenign(parts: seq<Part>) {
    forall i :: 0 <= i < |parts| ==> Benign(parts[i].own)
  }

  method AdvanceNext(store: Store, targets: seq<Target>, n: nat, carried: Fault, ghost before: seq<Call>,
                     ghost parts: seq<Part>)
    returns (err: Fault, ghost all: seq<Part>)
    requires AllHandled(targets, parts) && |parts| == n < |targets| && AllBenign(parts) && Benign(carried)
    requires store.calls == before + Flatten(parts)
    modifies store
    ensures store.calls == before + Flatten(all) && AllHandled(targets, all)
    ensures |all| == n + 1 && all[..n] == parts && (Benign(err) <==> AllBenign(all))
  {
    ghost var own, was := NoFault, store.calls;
    err, own := Advance(store, targets[n], carried);
    ghost var part := Part(store.calls[|was|..], own);
    FlattenMore(before, parts, part);
    AllHandledMore(targets, parts, part);
    all := parts + [part];
    assert Benign(err) <==> Benign(all[n].own);
    assert forall i :: 0 <= i < n ==> all[i] == parts[i];
  }

  /**
   The targets are handled in order, and the first fault of a target's own that is not a conflict
   ends the round. The error that the loop carries from one target to the next never does.
   */
  method AdvanceOnce(store: Store, listed: Option<seq<Target>>) returns (failed: bool, ghost parts: seq<Part>)
    modifies store
    ensures store.calls == old(store.calls) + Flatten(parts)
    ensures listed.None? ==> failed && parts == []
    ensures listed.Some? ==> AllHandled(listed.value, parts)
    ensures listed.Some? && !failed ==> |parts| == |listed.value| && AllBenign(parts)
    ensures listed.Some? && failed ==>
              parts != [] && AllBenign(parts[..|parts| - 1]) && !Benign(parts[|parts| - 1].own)
  {
    parts := [];
    if listed.None? {
      return true, [];
    }
    var targets := listed.value;
    var err := NoFault;
    for n := 0 to |targets|
      invariant |parts| == n && store.calls == old(store.calls) + Flatten(parts)
      invariant AllHandled(targets, parts) && AllBenign(parts) && Benign(err)
    {
      err, parts := AdvanceNext(store, targets, n, err, old(store.calls), parts);
      if !err.NoFault? && !err.Conflict? && !err.VersionConflict? {
        return true, parts;
      }
    }
    return false, parts;
  }
}
