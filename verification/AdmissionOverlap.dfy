/** With overlapping recovery passes an operation can be restored twice: the passes re-read
    the state without rechecking the GC slot or ALERT. One concrete execution shows it. */
module AdmissionOverlap {
  import opened Pods
  import opened AdmissionState
  import opened AdmissionProtocol
  import opened AdmissionInvariant
  import opened AdmissionRecovery
  import opened AdmissionSequential

  function Ident(namespace: Namespace, name: string): Identity {
    Identity(namespace, name, name, name, name)
  }

  const FIRST_GC := Ident(WORKER, "a")
  const SECOND_GC := Ident(WORKER, "b")
  const COORDINATOR := Ident(CONTROL, "c")
  const FIRST_PASS := Ident(CONTROL, "d")
  const RACING_PASS := Ident(CONTROL, "e")
  const ALERTING_PASS := Ident(CONTROL, "f")
  const SLOT := 2820

  // ------------------------------------------------------------------- Pod evidence

  function DeadPod(i: Identity): Pod {
    Pod(i.namespace, i.name, i.uid, map[], false, [OwnerRef(true, "Job", i.job, i.jobUid)], "hestia", "Succeeded",
        Containers(["main"], [ContainerStatus("main", true)]), Containers([], []), Containers([], []))
  }

  /** What the passes see, at time `t`: the first GC holder and then the coordinator retired; the
      second GC holder and then the coordinator and the first pass; nothing. */
  function FirstSight(t: int): Sight {
    Sight([DeadPod(FIRST_GC)], [DeadPod(COORDINATOR)], _ => t)
  }

  function RacingSight(t: int): Sight {
    Sight([DeadPod(SECOND_GC)], [DeadPod(COORDINATOR), DeadPod(FIRST_PASS)], _ => t)
  }

  function Blind(t: int): Sight {
    Sight([], [], _ => t)
  }

  lemma DeadPodIdentity(i: Identity)
    requires ValidIdentity(i)
    ensures PodIdentity(DeadPod(i)) == Ok(i)
    ensures AllTerminated(DeadPod(i).main) && AllTerminated(DeadPod(i).init) && AllTerminated(DeadPod(i).ephemeral)
  {
    var p := DeadPod(i);
    assert p.owners[1..] == [] && Controllers(p.owners) == [p.owners[0]];
    var c := p.main;
    assert (set s | s in c.statuses :: s.name) == {"main"} by {
      assert ContainerStatus("main", true) in c.statuses;
    }
    assert (set n | n in c.names) == {"main"};
  }

  /** A list of fully terminated Pods with distinct identities proves exactly those. */
  lemma DeadPodsEvidence(a: Identity, b: Identity)
    requires ValidIdentity(a) && ValidIdentity(b) && a.name != b.name
    ensures EvidenceOf([DeadPod(a)]).terminal == {a}
    ensures EvidenceOf([DeadPod(a), DeadPod(b)]).terminal == {a, b}
  {
    DeadPodIdentity(a);
    DeadPodIdentity(b);
    var one, two := [DeadPod(a)], [DeadPod(a), DeadPod(b)];
    assert one[1..] == [] && two[1..] == [DeadPod(b)] && [DeadPod(b)][1..] == [];
    assert Matching(one, a) == [DeadPod(a)];
    assert Matching([DeadPod(b)], a) == [] && Matching([DeadPod(b)], b) == [DeadPod(b)];
    assert Matching(two, a) == [DeadPod(a)];
    assert Matching(two, b) == [DeadPod(b)];
    assert Retired(one, a) && Retired(two, a) && Retired(two, b);
    forall i ensures i in EvidenceOf(one).terminal <==> i == a {
      EvidenceIsExact(one, i);
    }
    forall i ensures i in EvidenceOf(two).terminal <==> i == a || i == b {
      EvidenceIsExact(two, i);
    }
  }

  // ------------------------------------------------------------ the other processes

  lemma SoloCollector(w: World, me: Identity, sight: Sight) returns (v: World)
    requires Coherent(w.state) && Closed(w.state.phase) && w.state.gcHolder.None? && w.now >= 0
    requires ValidIdentity(me) && me.namespace == WORKER && me in w.procs && w.procs[me].pc == G(GcGate) && Still(sight, w.now)
    ensures Solo(w, v, me, sight, G(GcHolding)) && RunnerAsIn(w, v)
    ensures v.state == w.state.(gcHolder := Some(GcHolder(me, w.now)))
  {
    hide CoordinatorNext; hide WorkerNext; hide RecoveryNext; hide OthersAsIn;
    hide OwnReaches; hide ValidIdentity; hide Coherent;
    SoloStart(w, me, sight);
    v := SoloDecide(w, w, me, sight, G(GcGate));
    v := SoloRead(w, v, me, sight, G(GcRead));
    v := SoloDecide(w, v, me, sight, G(GcJudge));
    BuildsKeepsCoherent(DoGcClaim, me, w.state, v.procs[me].copy);
    v := SoloSave(w, v, me, sight, DoGcClaim);
  }

  lemma SoloBegin(w: World, me: Identity, sight: Sight) returns (v: World)
    requires Coherent(w.state) && w.state.phase == IDLE && w.state.operation.None? && !w.paused
    requires w.now == SLOT && w.state.heartbeat <= SLOT <= w.state.heartbeat + 150
    requires ValidIdentity(me) && me.namespace == CONTROL && me in w.procs && w.procs[me].pc == C(CoordRead) && w.procs[me].slot == SLOT && Still(sight, SLOT)
    ensures Solo(w, v, me, sight, C(CoordPut)) && RunnerAsIn(w, v) && v.state == Begin(w.state, SLOT, me)
    ensures v.procs[me].copy == v.state && v.procs[me].slot == SLOT
  {
    hide RecoveryNext; hide WorkerNext; hide CollectorNext; hide OthersAsIn;
    hide OwnReaches; hide ValidIdentity; hide Coherent;
    SoloStart(w, me, sight);
    v := SoloRead(w, w, me, sight, C(CoordRead));
    v := SoloDecide(w, v, me, sight, C(CoordCheck));
    v := SoloProbe(w, v, me, sight, C(CoordBaseline));
    BuildsKeepsCoherent(DoBegin, me, w.state, v.procs[me].copy);
    v := SoloSave(w, v, me, sight, DoBegin);
  }

  lemma SoloPausePut(w: World, u: World, me: Identity, sight: Sight) returns (v: World)
    requires Solo(w, u, me, sight, C(CoordPut)) && u.procs[me].copy.operation.Some?
    ensures Solo(w, v, me, sight, C(CoordConfirm)) && v.state == u.state && v.version == u.version
    ensures v.paused && v.inflight == u.inflight && v.procs[me].slot == u.procs[me].slot
    ensures v.puts == u.puts + [Put(u.procs[me].copy.operation.value.id, PausePut, me, true)]
  {
    hide Coherent; hide OwnReaches; hide OthersAsIn;
    v := SoloPuts(w, u, me, sight, C(CoordPut));
  }

  lemma SoloPause(w: World, u: World, me: Identity, sight: Sight) returns (v: World)
    requires Solo(w, u, me, sight, C(CoordPut)) && ValidIdentity(me) && u.procs[me].copy == u.state
    requires u.state.phase == PAUSE_INTENT && u.state.operation.Some? && u.state.operation.value.coordinator == me
    ensures Solo(w, v, me, sight, C(CoordLoop)) && v.state == StartDrain(u.state)
    ensures v.paused && v.inflight == u.inflight && v.procs[me].slot == u.procs[me].slot
    ensures v.puts == u.puts + [Put(u.state.operation.value.id, PausePut, me, true)]
  {
    hide RecoveryNext; hide WorkerNext; hide CollectorNext; hide OthersAsIn;
    hide OwnReaches; hide ValidIdentity; hide Coherent;
    v := SoloPausePut(w, u, me, sight);
    v := SoloProbe(w, v, me, sight, C(CoordConfirm));
    v := SoloRead(w, v, me, sight, C(CoordPauseRead));
    v := SoloDecide(w, v, me, sight, C(CoordPauseSave));
    BuildsKeepsCoherent(DoDrain, me, u.state, v.procs[me].copy);
    v := SoloSave(w, v, me, sight, DoDrain);
  }

  // -------------------------------------------------------------------- the execution

  const START := World(0, State(0, IDLE, None, None), {}, false, multiset{}, map[], {}, 2800, [], {}, {})

  /** Reachable and with a coherent state. */
  ghost predicate Staged(w: World) {
    Reaches(START, w) && Coherent(w.state)
  }

  lemma Spawned(w: World, me: Identity, kind: Kind) returns (v: World)
    requires Staged(w) && ValidIdentity(me) && me.namespace == HomeOf(kind) && me !in w.procs && me !in w.retired
    ensures Staged(v) && v.state == w.state && RunnerAsIn(w, v) && v.now == w.now && v.retired == w.retired
    ensures OthersAsIn(w, v, me) && me in v.procs && v.procs[me].pc == StartOf(kind)
  {
    v := Apply(w, Spawn(me, kind));
    ReachStep(START, w, Spawn(me, kind));
    hide Reaches; hide OwnReaches; hide Coherent;
  }

  lemma Scheduled(w: World, me: Identity) returns (v: World)
    requires Staged(w) && w.now == SLOT && me in w.procs && w.procs[me].pc == C(CoordObserve)
    ensures Staged(v) && v.state == w.state && RunnerAsIn(w, v) && v.now == w.now && v.retired == w.retired && OthersAsIn(w, v, me)
    ensures me in v.procs && v.procs[me].pc == C(CoordRead) && v.procs[me].slot == SLOT
  {
    NoPodsNoEvidence();
    v := Apply(w, Schedule(me, [], SLOT));
    ReachStep(START, w, Schedule(me, [], SLOT));
    hide Reaches; hide OwnReaches; hide Coherent; hide EvidenceOf;
  }

  lemma Gone(w: World, me: Identity) returns (v: World)
    requires Staged(w)
    ensures Staged(v) && v.state == w.state && RunnerAsIn(w, v) && v.now == w.now && v.retired == w.retired + {me}
    ensures OthersAsIn(w, v, me) && v.procs.Keys == w.procs.Keys
  {
    v := Apply(w, Retire(me));
    ReachStep(START, w, Retire(me));
    hide Reaches; hide OwnReaches; hide Coherent;
  }

  lemma Later(w: World, t: int) returns (v: World)
    requires Staged(w) && w.now <= t
    ensures Staged(v) && v == w.(now := t)
  {
    v := Apply(w, Tick(t));
    ReachStep(START, w, Tick(t));
    hide Reaches; hide OwnReaches; hide Coherent;
  }

  lemma Onward(u: World, v: World, me: Identity, sight: Sight, pc: Pc)
    requires Staged(u) && Solo(u, v, me, sight, pc) && Still(sight, u.now)
    ensures Staged(v) && v.now == u.now
  {
    hide Reaches; hide OwnReaches; hide Coherent;
    OwnIsRun(u, v, me, sight);
    ReachTrans(START, u, v);
  }

  /** The first GC holder came and went. */
  lemma FirstGc() returns (w: World)
    ensures Staged(w) && w.state == State(0, IDLE, None, Some(GcHolder(FIRST_GC, 2800)))
    ensures w.now == 2800 && RunnerAsIn(START, w) && w.procs.Keys == {FIRST_GC} && w.retired == {FIRST_GC}
  {
    ReachRefl(START);
    hide Reaches; hide OwnReaches;
    var u := Spawned(START, FIRST_GC, Collector);
    w := SoloCollector(u, FIRST_GC, Blind(2800));
    Onward(u, w, FIRST_GC, Blind(2800), G(GcHolding));
    w := Gone(w, FIRST_GC);
  }

  lemma SoloClear(u: World) returns (w: World)
    requires Coherent(u.state) && u.state == State(0, IDLE, None, Some(GcHolder(FIRST_GC, 2800))) && u.now == 2800 && u.retired == {FIRST_GC}
    requires FIRST_PASS in u.procs && u.procs[FIRST_PASS].pc == StartOf(Recovery)
    ensures Solo(u, w, FIRST_PASS, FirstSight(2800), R(RecReload)) && RunnerAsIn(u, w) && w.state == State(2800, IDLE, None, None)
  {
    hide Reaches; hide OwnReaches; hide EvidenceOf; hide Coherent; hide CoordinatorNext; hide WorkerNext; hide CollectorNext; hide OthersAsIn;
    w := SoloBeat(u, FIRST_PASS, FirstSight(2800));
    w := SoloRead(u, w, FIRST_PASS, FirstSight(2800), R(RecMain));
    w := SoloDecide(u, w, FIRST_PASS, FirstSight(2800), R(RecGc));
    DeadPodsEvidence(FIRST_GC, SECOND_GC);
    w := SoloObserve(u, w, FIRST_PASS, FirstSight(2800), R(RecGcObserve), [DeadPod(FIRST_GC)]);
    w := SoloDecide(u, w, FIRST_PASS, FirstSight(2800), R(RecGcJudge));
    BuildsKeepsCoherent(DoRetireGc, FIRST_PASS, w.state, w.procs[FIRST_PASS].copy);
    w := SoloSave(u, w, FIRST_PASS, FirstSight(2800), DoRetireGc);
  }

  /** The first pass clears the slot and is about to re-read the state. */
  lemma SlotCleared() returns (w: World)
    ensures Staged(w) && w.state == State(2800, IDLE, None, None) && w.now == 2800 && RunnerAsIn(START, w)
    ensures w.procs.Keys == {FIRST_GC, FIRST_PASS} && w.procs[FIRST_PASS].pc == R(RecReload) && w.retired == {FIRST_GC}
  {
    hide Reaches; hide OwnReaches; hide Coherent;
    var z := FirstGc();
    var u := Spawned(z, FIRST_PASS, Recovery);
    w := SoloClear(u);
    Onward(u, w, FIRST_PASS, FirstSight(2800), R(RecReload));
  }

  /** The second GC claims the slot. */
  lemma SecondGcHolds() returns (w: World)
    ensures Staged(w) && w.now == SLOT && RunnerAsIn(START, w) && w.retired == {FIRST_GC}
    ensures w.state == State(2800, IDLE, None, Some(GcHolder(SECOND_GC, 2800)))
    ensures w.procs.Keys == {FIRST_GC, FIRST_PASS, SECOND_GC} && w.procs[FIRST_PASS].pc == R(RecReload)
  {
    hide Reaches; hide OwnReaches; hide EvidenceOf; hide Coherent;
    var z := SlotCleared();
    var u := Spawned(z, SECOND_GC, Collector);
    w := SoloCollector(u, SECOND_GC, Blind(2800));
    Onward(u, w, SECOND_GC, Blind(2800), G(GcHolding));
    w := Later(w, SLOT);
  }

  /** Then an operation begins, pauses, and loses its coordinator. */
  lemma PausedWithGc() returns (w: World)
    ensures Staged(w) && w.now == SLOT && w.paused && w.inflight == multiset{} && w.retired == {FIRST_GC, COORDINATOR}
    ensures w.state == StartDrain(Begin(State(2800, IDLE, None, Some(GcHolder(SECOND_GC, 2800))), SLOT, COORDINATOR))
    ensures w.puts == [Put(OpId(SLOT, "c"), PausePut, COORDINATOR, true)]
    ensures w.procs.Keys == {FIRST_GC, FIRST_PASS, SECOND_GC, COORDINATOR} && w.procs[FIRST_PASS].pc == R(RecReload)
  {
    hide Reaches; hide OwnReaches; hide EvidenceOf; hide Coherent;
    w := SecondGcHolds();
    var u := Spawned(w, COORDINATOR, Coordinator);
    u := Scheduled(u, COORDINATOR);
    w := SoloBegin(u, COORDINATOR, Blind(SLOT));
    w := SoloPause(u, w, COORDINATOR, Blind(SLOT));
    Onward(u, w, COORDINATOR, Blind(SLOT), C(CoordLoop));
    w := Gone(w, COORDINATOR);
  }

  const OP := OpId(SLOT, "c")

  const ALL_PODS := {FIRST_GC, FIRST_PASS, SECOND_GC, COORDINATOR, RACING_PASS, ALERTING_PASS}

  /** The operation in place is COORDINATOR's, restored by FIRST_PASS. */
  ghost predicate RestoredByFirst(s: State) {
    && s.operation.Some? && s.gcHolder == Some(GcHolder(SECOND_GC, 2800))
    && var op := s.operation.value;
       && op.id == OP && op.coordinator == COORDINATOR && op.holder == Some(FIRST_PASS) && !op.claimed
       && op.restored && op.write == NoWrite && op.recoverBy == SLOT + 2700
  }

  lemma SoloClose(w: World, u: World, me: Identity, sight: Sight) returns (v: World)
    requires Solo(w, u, me, sight, R(RecRetire)) && Fresh(u, me) && u.state.operation.Some?
    requires ValidIdentity(me) && me.namespace == CONTROL
    requires OwnersRetired(u.state.operation.value, u.procs[me].ev) && u.state.operation.value.write == NoWrite
    ensures Solo(w, v, me, sight, Stopped) && v.inflight == u.inflight
    ensures v.state == Finish(BeginRestore(u.state, me, RestoredOutcome(u.state.operation.value, u.procs[me].ev)))
    ensures v.puts == u.puts + [Put(u.state.operation.value.id, RestorePut, me, true)]
  {
    hide Reaches; hide OwnReaches; hide Coherent; hide RestoredOutcome; hide OwnersRetired; hide OthersAsIn; hide ValidIdentity;
    v := SoloBeginRestore(w, u, me, sight);
    v := SoloFinish(w, v, me, sight);
  }

  /** The first pass, unaware of the new GC holder, seals the operation. */
  lemma SealedWithGc() returns (u: World, w: World)
    ensures Staged(u) && Solo(u, w, FIRST_PASS, FirstSight(SLOT), R(RecRetire)) && Fresh(w, FIRST_PASS)
    ensures u.now == SLOT && w.inflight == multiset{} && u.retired == {FIRST_GC, COORDINATOR}
    ensures w.state == Seal(StartDrain(Begin(State(2800, IDLE, None, Some(GcHolder(SECOND_GC, 2800))), SLOT, COORDINATOR)))
    ensures w.procs[FIRST_PASS].ev.terminal == {COORDINATOR}
    ensures w.puts == [Put(OP, PausePut, COORDINATOR, true)]
    ensures u.procs.Keys == {FIRST_GC, FIRST_PASS, SECOND_GC, COORDINATOR}
  {
    hide Reaches; hide OwnReaches; hide EvidenceOf; hide Coherent; hide Next; hide DeadPod; hide OthersAsIn;
    u := PausedWithGc();
    SoloStart(u, FIRST_PASS, FirstSight(SLOT));
    w := SoloRead(u, u, FIRST_PASS, FirstSight(SLOT), R(RecReload));
    DeadPodsEvidence(COORDINATOR, FIRST_GC);
    w := SoloJudge(u, w, FIRST_PASS, FirstSight(SLOT));
  }

  /** It then restores and ends in DONE with the GC slot still held. */
  lemma RestoredWithGc() returns (w: World)
    ensures Staged(w) && w.now == SLOT && w.inflight == multiset{}
    ensures w.state.phase == DONE && RestoredByFirst(w.state) && w.retired == {FIRST_GC, COORDINATOR, FIRST_PASS}
    ensures w.puts == [Put(OP, PausePut, COORDINATOR, true), Put(OP, RestorePut, FIRST_PASS, true)]
    ensures w.procs.Keys == {FIRST_GC, FIRST_PASS, SECOND_GC, COORDINATOR}
  {
    hide Reaches; hide OwnReaches; hide Coherent; hide RestoredOutcome;
    var u, v := SealedWithGc();
    w := SoloClose(u, v, FIRST_PASS, FirstSight(SLOT));
    Onward(u, w, FIRST_PASS, FirstSight(SLOT), Stopped);
    w := Gone(w, FIRST_PASS);
  }

  /** Two overlapping passes beat; one of them raises the GC horizon alert from DONE. */
  lemma AlertFromDone() returns (w: World)
    ensures Staged(w) && w.now == 5500 && w.inflight == multiset{} && w.state.phase == ALERT && RestoredByFirst(w.state)
    ensures w.retired == {FIRST_GC, COORDINATOR, FIRST_PASS, SECOND_GC}
    ensures w.puts == [Put(OP, PausePut, COORDINATOR, true), Put(OP, RestorePut, FIRST_PASS, true)]
    ensures w.procs.Keys == ALL_PODS && w.procs[RACING_PASS].pc == R(RecMain)
  {
    hide Reaches; hide OwnReaches; hide EvidenceOf; hide Coherent;
    var z := RestoredWithGc();
    z := Later(z, 5500);
    var u := Spawned(z, RACING_PASS, Recovery);
    w := SoloBeat(u, RACING_PASS, RacingSight(5500));
    Onward(u, w, RACING_PASS, RacingSight(5500), R(RecMain));
    u := Spawned(w, ALERTING_PASS, Recovery);
    w := SoloBeat(u, ALERTING_PASS, Blind(5500));
    NoPodsNoEvidence();
    w := SoloGc(u, w, ALERTING_PASS, Blind(5500));
    Onward(u, w, ALERTING_PASS, Blind(5500), Stopped);
    w := Gone(w, SECOND_GC);
  }

  /** The racing pass clears the slot and seals the restored operation. */
  lemma SealedAgain() returns (u: World, w: World)
    ensures Staged(u) && u.now == 5500 && Solo(u, w, RACING_PASS, RacingSight(5500), R(RecRetire)) && Fresh(w, RACING_PASS)
    ensures w.puts == [Put(OP, PausePut, COORDINATOR, true), Put(OP, RestorePut, FIRST_PASS, true)]
    ensures w.state.operation.Some? && w.state.operation.value.id == OP && w.state.operation.value.write == NoWrite
    ensures OwnersRetired(w.state.operation.value, w.procs[RACING_PASS].ev)
  {
    hide Reaches; hide OwnReaches; hide EvidenceOf; hide Coherent; hide Next; hide DeadPod; hide OthersAsIn;
    u := AlertFromDone();
    SoloStart(u, RACING_PASS, RacingSight(5500));
    DeadPodsEvidence(SECOND_GC, FIRST_GC);
    w := SoloGc(u, u, RACING_PASS, RacingSight(5500));
    DeadPodsEvidence(COORDINATOR, FIRST_PASS);
    w := SoloJudge(u, w, RACING_PASS, RacingSight(5500));
  }

  /** It then restores it again. */
  lemma RestoredAgain() returns (w: World)
    ensures Reaches(START, w)
    ensures w.puts == [Put(OP, PausePut, COORDINATOR, true), Put(OP, RestorePut, FIRST_PASS, true),
                       Put(OP, RestorePut, RACING_PASS, true)]
  {
    hide Reaches; hide OwnReaches; hide EvidenceOf; hide Coherent; hide RestoredOutcome; hide Next; hide DeadPod; hide OwnersRetired;
    var u;
    u, w := SealedAgain();
    w := SoloBeginRestore(u, w, RACING_PASS, RacingSight(5500));
    w := SoloPut(u, w, RACING_PASS, RacingSight(5500));
    Onward(u, w, RACING_PASS, RacingSight(5500), R(RecConfirm));
  }

  /** Without the non-overlap of recovery passes, at most one restore PUT per operation is
      not guaranteed. */
  lemma OverlapCanRestoreTwice()
    ensures exists ws: seq<World>, ls: seq<Label> :: IsExecution(ws, ls) && !RestoresUnique(ws[|ls|].puts)
  {
    var w := RestoredAgain();
    hide Enabled; hide Apply; hide EvidenceOf;
    var ws, ls :| IsRun(ws, ls) && ws[0] == START && ws[|ls|] == w;
    assert Initial(START);
    assert IsExecution(ws, ls);
    assert w.puts[1].op == w.puts[2].op;
  }
}
