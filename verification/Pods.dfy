/** Kubernetes Pods as the maintenance scripts observe them: native Job identity,
    proof of retirement, and the two "is Hestia idle" decisions. */
module Pods {

  datatype Option<+T> = None | Some(value: T)

  datatype Result<+T> = Ok(value: T) | Refuse

  datatype Namespace = CI | CONTROL | WORKER

  /** The owner identity stored in the shared state: exact Pod and exact native Job. */
  datatype Identity = Identity(namespace: Namespace, name: string, uid: string, job: string, jobUid: string)

  predicate Text(s: string) {
    0 < |s| <= 256
  }

  predicate ValidIdentity(i: Identity) {
    && Text(i.name) && Text(i.uid) && Text(i.job) && Text(i.jobUid)
    && i.namespace in {CONTROL, WORKER}
  }

  datatype OwnerRef = OwnerRef(controller: bool, kind: string, name: string, uid: string)

  datatype ContainerStatus = ContainerStatus(name: string, terminated: bool)

  /** One of the three container lists of a Pod with the statuses reported for it. */
  datatype Containers = Containers(names: seq<string>, statuses: seq<ContainerStatus>)

  datatype Pod = Pod(
    namespace: Namespace, name: string, uid: string, labels: map<string, string>,
    deleting: bool, owners: seq<OwnerRef>, node: string, phase: string,
    main: Containers, init: Containers, ephemeral: Containers)

  const JOB_LABEL := "ci.brmartin.co.uk/job"
  const MAINTENANCE_LABEL := "ci.brmartin.co.uk/maintenance"

  predicate Labelled(p: Pod, key: string) {
    key in p.labels && p.labels[key] == "true"
  }

  function Controllers(owners: seq<OwnerRef>): seq<OwnerRef> {
    if owners == [] then []
    else (if owners[0].controller then [owners[0]] else []) + Controllers(owners[1..])
  }

  function PodIdentity(p: Pod): Result<Identity> {
    var cs := Controllers(p.owners);
    if |cs| == 1 && cs[0].kind == "Job" && Text(cs[0].name) && Text(cs[0].uid)
    then Ok(Identity(p.namespace, p.name, p.uid, cs[0].name, cs[0].uid))
    else Refuse
  }

  predicate AllTerminated(c: Containers) {
    && |c.statuses| == |c.names|
    && (set s | s in c.statuses :: s.name) == (set n | n in c.names)
    && forall s :: s in c.statuses ==> s.terminated
  }

  predicate Matches(p: Pod, i: Identity) {
    p.namespace == i.namespace && p.name == i.name && p.uid == i.uid
  }

  function Matching(snapshot: seq<Pod>, i: Identity): seq<Pod> {
    if snapshot == [] then []
    else (if Matches(snapshot[0], i) then [snapshot[0]] else []) + Matching(snapshot[1..], i)
  }

  /** Retirement proof. A missing, duplicated or replaced Pod proves nothing; a Pod
      without its native Job owner makes the caller refuse. */
  function Terminal(snapshot: seq<Pod>, i: Identity): Result<bool> {
    var ms := Matching(snapshot, i);
    if |ms| != 1 then Ok(false)
    else
      var p := ms[0];
      match PodIdentity(p)
      case Refuse => Refuse
      case Ok(own) =>
        Ok(&& own == i
           && p.phase in {"Succeeded", "Failed"}
           && AllTerminated(p.main) && AllTerminated(p.init) && AllTerminated(p.ephemeral)
           && p.main.names != [])
  }

  /** What one complete snapshot shows: the retired identities, among them the Pods that
      succeeded, and whether the CI Pods are idle. */
  datatype Evidence = Evidence(terminal: set<Identity>, succeeded: set<Identity>, idle: bool)

  function Retired(snapshot: seq<Pod>, i: Identity): bool {
    Terminal(snapshot, i) == Ok(true)
  }

  function IdentitiesOf(snapshot: seq<Pod>): set<Identity> {
    set p | p in snapshot && PodIdentity(p).Ok? :: PodIdentity(p).value
  }

  predicate Succeeded(snapshot: seq<Pod>, i: Identity) {
    exists p :: p in snapshot && Matches(p, i) && p.phase == "Succeeded"
  }

  function EvidenceOf(snapshot: seq<Pod>): Evidence {
    var proven := set i | i in IdentitiesOf(snapshot) && Retired(snapshot, i);
    Evidence(proven, (set i | i in proven && Succeeded(snapshot, i)), Drained(snapshot))
  }

  lemma {:induction false} MatchingIsFilter(snapshot: seq<Pod>, i: Identity)
    ensures forall p :: p in Matching(snapshot, i) <==> p in snapshot && Matches(p, i)
  {
    if snapshot != [] {
      MatchingIsFilter(snapshot[1..], i);
      assert snapshot == [snapshot[0]] + snapshot[1..];
    }
  }

  /** Entry `k`, and no other, has the namespace, name and uid of `i`. */
  ghost predicate OnlyAt(snapshot: seq<Pod>, i: Identity, k: nat) {
    && k < |snapshot|
    && forall j :: 0 <= j < |snapshot| ==>
         (snapshot[j].namespace == i.namespace && snapshot[j].name == i.name && snapshot[j].uid == i.uid <==> j == k)
  }

  lemma {:induction false} NoneMatching(snapshot: seq<Pod>, i: Identity)
    ensures Matching(snapshot, i) == [] <==> forall j :: 0 <= j < |snapshot| ==> !Matches(snapshot[j], i)
  {
    if snapshot != [] { NoneMatching(snapshot[1..], i); }
  }

  lemma {:induction false} OneMatching(snapshot: seq<Pod>, i: Identity)
    ensures |Matching(snapshot, i)| == 1 <==> exists k: nat :: OnlyAt(snapshot, i, k)
    ensures forall k: nat :: OnlyAt(snapshot, i, k) ==> Matching(snapshot, i) == [snapshot[k]]
  {
    if snapshot != [] {
      var rest := snapshot[1..];
      OneMatching(rest, i);
      NoneMatching(rest, i);
      if Matches(snapshot[0], i) {
        assert Matching(rest, i) == [] ==> OnlyAt(snapshot, i, 0);
        forall k: nat | OnlyAt(snapshot, i, k) ensures k == 0 && Matching(rest, i) == [] { }
      } else {
        forall k: nat | OnlyAt(rest, i, k) ensures OnlyAt(snapshot, i, k + 1) { }
        forall k: nat | OnlyAt(snapshot, i, k) ensures k > 0 && OnlyAt(rest, i, k - 1) && rest[k - 1] == snapshot[k] { }
      }
    }
  }

  /** Owner `o`, and no other, controls the Pod. */
  ghost predicate ControlledAt(owners: seq<OwnerRef>, o: nat) {
    o < |owners| && forall q :: 0 <= q < |owners| ==> (owners[q].controller <==> q == o)
  }

  lemma {:induction false} NoControllers(owners: seq<OwnerRef>)
    ensures Controllers(owners) == [] <==> forall q :: 0 <= q < |owners| ==> !owners[q].controller
  {
    if owners != [] { NoControllers(owners[1..]); }
  }

  lemma {:induction false} OneController(owners: seq<OwnerRef>)
    ensures |Controllers(owners)| == 1 <==> exists o: nat :: ControlledAt(owners, o)
    ensures forall o: nat :: ControlledAt(owners, o) ==> Controllers(owners) == [owners[o]]
  {
    if owners != [] {
      var rest := owners[1..];
      OneController(rest);
      NoControllers(rest);
      if owners[0].controller {
        assert Controllers(rest) == [] ==> ControlledAt(owners, 0);
        forall o: nat | ControlledAt(owners, o) ensures o == 0 && Controllers(rest) == [] { }
      } else {
        forall o: nat | ControlledAt(rest, o) ensures ControlledAt(owners, o + 1) { }
        forall o: nat | ControlledAt(owners, o) ensures o > 0 && ControlledAt(rest, o - 1) && rest[o - 1] == owners[o] { }
      }
    }
  }

  /** Every container of the list, and nothing else, is reported, each terminated. */
  ghost predicate AllEnded(c: Containers) {
    && |c.statuses| == |c.names|
    && (forall n :: n in c.names ==> exists s :: s in c.statuses && s.name == n)
    && (forall s :: s in c.statuses ==> s.name in c.names && s.terminated)
  }

  lemma AllEndedIff(c: Containers)
    ensures AllTerminated(c) <==> AllEnded(c)
  {
    var reported, named := (set s | s in c.statuses :: s.name), (set n | n in c.names);
    if AllEnded(c) {
      forall n ensures n in reported <==> n in named { }
    }
    if AllTerminated(c) {
      forall n | n in c.names ensures exists s :: s in c.statuses && s.name == n { assert n in named && n in reported; }
      forall s | s in c.statuses ensures s.name in c.names { assert s.name in reported && s.name in named; }
    }
  }

  /** The Pod of exactly this Pod and Job generation, succeeded or failed, with at least one
      container and every container of every kind reported and terminated. */
  ghost predicate Ended(p: Pod, i: Identity) {
    && p.namespace == i.namespace && p.name == i.name && p.uid == i.uid
    && 0 < |i.job| <= 256 && 0 < |i.jobUid| <= 256
    && (exists o: nat :: ControlledAt(p.owners, o) && p.owners[o] == OwnerRef(true, "Job", i.job, i.jobUid))
    && (p.phase == "Succeeded" || p.phase == "Failed") && p.main.names != []
    && AllEnded(p.main) && AllEnded(p.init) && AllEnded(p.ephemeral)
  }

  lemma EndedIff(p: Pod, i: Identity)
    ensures Ended(p, i) <==>
            && PodIdentity(p) == Ok(i) && p.phase in {"Succeeded", "Failed"} && p.main.names != []
            && AllTerminated(p.main) && AllTerminated(p.init) && AllTerminated(p.ephemeral)
  {
    hide AllTerminated; hide AllEnded; hide Controllers;
    OneController(p.owners);
    AllEndedIff(p.main);
    AllEndedIff(p.init);
    AllEndedIff(p.ephemeral);
    if |Controllers(p.owners)| == 1 {
      var o: nat :| ControlledAt(p.owners, o);
      assert Controllers(p.owners) == [p.owners[o]];
      forall q: nat | ControlledAt(p.owners, q) ensures q == o { }
    }
  }

  /** An identity counts as retired exactly when one entry, and only one, names its Pod and
      that Pod has ended; and as succeeded exactly when that Pod did. */
  lemma EvidenceIsExact(snapshot: seq<Pod>, i: Identity)
    ensures i in EvidenceOf(snapshot).terminal <==> exists k: nat :: OnlyAt(snapshot, i, k) && Ended(snapshot[k], i)
    ensures i in EvidenceOf(snapshot).terminal <==> Retired(snapshot, i)
    ensures i in EvidenceOf(snapshot).succeeded <==>
            exists k: nat :: OnlyAt(snapshot, i, k) && Ended(snapshot[k], i) && snapshot[k].phase == "Succeeded"
  {
    hide Ended; hide AllTerminated;
    OneMatching(snapshot, i);
    MatchingIsFilter(snapshot, i);
    forall k: nat | OnlyAt(snapshot, i, k) ensures Retired(snapshot, i) <==> Ended(snapshot[k], i) {
      EndedIff(snapshot[k], i);
    }
    if Retired(snapshot, i) {
      var p := Matching(snapshot, i)[0];
      assert p in snapshot && PodIdentity(p) == Ok(i);
      var k: nat :| OnlyAt(snapshot, i, k);
      assert Succeeded(snapshot, i) <==> snapshot[k].phase == "Succeeded" by {
        assert snapshot[k] in snapshot && Matches(snapshot[k], i);
        forall q | q in snapshot && Matches(q, i) ensures q == snapshot[k] { assert q in Matching(snapshot, i); }
      }
      forall j: nat | OnlyAt(snapshot, i, j) ensures j == k { }
    }
  }

  lemma IdleIsDrained(snapshot: seq<Pod>)
    ensures EvidenceOf(snapshot).idle <==> Drained(snapshot)
  {
  }

  lemma NoPodsNoEvidence()
    ensures EvidenceOf([]).terminal == {} && EvidenceOf([]).idle
  {
    forall i ensures i !in EvidenceOf([]).terminal { EvidenceIsExact([], i); }
  }

  // ---------------------------------------------------------------- idle decisions

  predicate IsJob(p: Pod) {
    "ci.brmartin.co.uk/job" in p.labels && p.labels["ci.brmartin.co.uk/job"] == "true"
  }

  predicate IsMaintenance(p: Pod) {
    "ci.brmartin.co.uk/maintenance" in p.labels && p.labels["ci.brmartin.co.uk/maintenance"] == "true"
  }

  /** Ended, or running or about to on a node that does not share the caches; and not on its way
      out. */
  predicate Idle(p: Pod) {
    && !p.deleting
    && (|| p.phase == "Succeeded" || p.phase == "Failed"
        || ((p.phase == "Running" || p.phase == "Pending") && (p.node == "heracles" || p.node == "nyx")))
  }

  /** The coordinator's decision over the Pod snapshot. */
  method CiDrained(snapshot: seq<Pod>) returns (idle: bool)
    ensures idle <==> Drained(snapshot)
  {
    for k := 0 to |snapshot|
      invariant Drained(snapshot[..k])
    {
      var p := snapshot[k];
      assert snapshot[..k + 1] == snapshot[..k] + [p] && p in snapshot;
      if Labelled(p, JOB_LABEL) && !Labelled(p, MAINTENANCE_LABEL) {
        if p.deleting || p.phase !in {"Running", "Pending", "Succeeded", "Failed"} { return false; }
        if p.phase in {"Running", "Pending"} && p.node !in {"heracles", "nyx"} { return false; }
      }
    }
    assert snapshot[..|snapshot|] == snapshot;
    return true;
  }

  predicate Drained(snapshot: seq<Pod>) {
    forall p :: p in snapshot && IsJob(p) && !IsMaintenance(p) ==> Idle(p)
  }

  ghost predicate SelfConsistent(p: Pod) {
    && IsMaintenance(p) && IsJob(p)
    && p.node == "hestia" && (p.phase == "Running" || p.phase == "Pending") && !p.deleting
  }

  /** Every entry is named and no UID is listed twice. */
  ghost predicate WellListed(items: seq<Pod>) {
    && (forall p :: p in items ==> p.uid != "" && p.name != "")
    && (forall i, j :: 0 <= i < j < |items| ==> items[i].uid != items[j].uid)
  }

  ghost predicate SelfListed(items: seq<Pod>, selfUid: string) {
    && (exists p :: p in items && p.uid == selfUid)
    && (forall p :: p in items && p.uid == selfUid ==> SelfConsistent(p))
  }

  ghost predicate OthersIdle(items: seq<Pod>, selfUid: string) {
    forall p :: p in items && p.uid != selfUid && IsJob(p) ==> Idle(p)
  }

  ghost predicate GateOpen(complete: bool, items: seq<Pod>, selfUid: string) {
    complete && WellListed(items) && SelfListed(items, selfUid) && OthersIdle(items, selfUid)
  }

  ghost predicate OwnPending(items: seq<Pod>, selfUid: string) {
    exists p :: p in items && p.uid == selfUid && p.phase == "Pending"
  }

  lemma LabelsSay(p: Pod)
    ensures Labelled(p, JOB_LABEL) <==> IsJob(p)
    ensures Labelled(p, MAINTENANCE_LABEL) <==> IsMaintenance(p)
  {
  }

  /** The worker's gate: refuse, or report whether its own Pod is past Pending. */
  method PodGate(complete: bool, items: seq<Pod>, selfUid: string) returns (r: Result<bool>)
    ensures r.Ok? <==> GateOpen(complete, items, selfUid)
    ensures r.Ok? ==> (r.value <==> !OwnPending(items, selfUid))
  {
    if !complete { return Refuse; }
    var seen, pending := false, false;
    var uids: set<string> := {};
    for k := 0 to |items|
      invariant WellListed(items[..k])
      invariant forall u :: u in uids <==> exists p :: p in items[..k] && p.uid == u
      invariant OthersIdle(items[..k], selfUid)
      invariant forall p :: p in items[..k] && p.uid == selfUid ==> SelfConsistent(p)
      invariant seen <==> exists p :: p in items[..k] && p.uid == selfUid
      invariant pending <==> OwnPending(items[..k], selfUid)
    {
      var p := items[k];
      ghost var prefix := items[..k];
      assert items[..k + 1] == prefix + [p];
      assert p in items;
      if p.uid == "" || p.name == "" { return Refuse; }
      if p.uid in uids {
        var j :| 0 <= j < k && items[j].uid == p.uid;
        assert !WellListed(items);
        return Refuse;
      }
      uids := uids + {p.uid};
      hide IsJob; hide IsMaintenance;
      LabelsSay(p);
      if p.uid == selfUid {
        if || seen || !Labelled(p, MAINTENANCE_LABEL) || !Labelled(p, JOB_LABEL)
           || p.node != "hestia" || p.phase !in {"Running", "Pending"} || p.deleting { return Refuse; }
        seen, pending := true, p.phase == "Pending";
      } else if Labelled(p, JOB_LABEL) {
        if p.deleting || p.phase !in {"Running", "Pending", "Failed", "Succeeded"} { return Refuse; }
        if p.phase in {"Running", "Pending"} && p.node !in {"heracles", "nyx"} { return Refuse; }
      }
    }
    assert items[..|items|] == items;
    if !seen { return Refuse; }
    return Ok(!pending);
  }

  /** The worker's gate is the coordinator's drain decision plus list integrity, a
      consistent own Pod, and no blocking job Pod hiding behind the maintenance label. So an
      open gate implies a drained node, and the two decisions coincide on a well-formed list
      with a consistent own Pod and no other job Pod labelled as maintenance. */
  lemma GateIsDrainPlusIntegrity(complete: bool, items: seq<Pod>, selfUid: string)
    ensures GateOpen(complete, items, selfUid) <==>
            && complete && WellListed(items) && SelfListed(items, selfUid) && Drained(items)
            && forall p :: p in items && p.uid != selfUid && IsJob(p) && IsMaintenance(p) ==> Idle(p)
  {
  }
}
