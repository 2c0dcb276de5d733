/** One whole hour of the protocol, from bootstrap to a clean end: paused, drained, admitted,
    claimed, worked, retired and restored. */
module AdmissionCycle {
  import opened Pods
  import opened AdmissionState
  import opened AdmissionProtocol
  import opened AdmissionInvariant
  import opened AdmissionRecovery
  import opened AdmissionOverlap

  const WORKER_POD := Ident(WORKER, "w")
  const CLOSING_PASS := Ident(CONTROL, "r")

  /** The closing pass sees the coordinator and the worker ended. */
  function EndSight(t: int): Sight {
    Sight([], [DeadPod(COORDINATOR), DeadPod(WORKER_POD)], _ => t)
  }

  lemma EndEvidence()
    ensures var ev := EvidenceOf([DeadPod(COORDINATOR), DeadPod(WORKER_POD)]);
            ev.terminal == {COORDINATOR, WORKER_POD} && WORKER_POD in ev.succeeded
  {
    var two := [DeadPod(COORDINATOR), DeadPod(WORKER_POD)];
    DeadPodsEvidence(COORDINATOR, WORKER_POD);
    DeadPodIdentity(WORKER_POD);
    assert two[1] in two && Matches(two[1], WORKER_POD);
    assert Succeeded(two, WORKER_POD);
    hide DeadPod; hide Succeeded;
    EvidenceIsExact(two, WORKER_POD);
    assert WORKER_POD in EvidenceOf(two).terminal;
  }

  /** A recovery pass with nothing open leaves a fresh heartbeat. */
  lemma Beaten() returns (w: World)
    ensures Staged(w) && w.now == SLOT && RunnerAsIn(START, w) && w.retired == {} && w.procs.Keys == {FIRST_PASS}
    ensures w.state == State(2800, IDLE, None, None)
  {
    ReachRefl(START);
    assert Staged(START);
    hide Reaches; hide OwnReaches; hide EvidenceOf; hide Coherent;
    var u := Spawned(START, FIRST_PASS, Recovery);
    NoPodsNoEvidence();
    assert PassStarts(u, FIRST_PASS, Blind(2800));
    w := SoloPass(u, FIRST_PASS, Blind(2800));
    Onward(u, w, FIRST_PASS, Blind(2800), Stopped);
    w := Later(w, SLOT);
  }

  /** The coordinator's drain loop up to its look at the GC slot. */
  lemma SoloLooped(w: World, u: World, me: Identity, sight: Sight) returns (v: World)
    requires Solo(w, u, me, sight, C(CoordLoop)) && u.procs[me].slot == SLOT && Still(sight, SLOT) && sight.open == []
    requires u.state.phase == DRAINING && u.state.operation.Some? && u.state.operation.value.coordinator == me
    ensures Solo(w, v, me, sight, C(CoordGcCheck)) && Fresh(v, me) && v.state == u.state && RunnerAsIn(u, v) && v.procs[me].ev.idle
  {
    hide RecoveryNext; hide WorkerNext; hide CollectorNext; hide OthersAsIn; hide OwnReaches; hide Coherent; hide EvidenceOf;
    NoPodsNoEvidence();
    v := SoloDecide(w, u, me, sight, C(CoordLoop));
    v := SoloRead(w, v, me, sight, C(CoordDrainRead));
    v := SoloDecide(w, v, me, sight, C(CoordDrainCheck));
    v := SoloObserve(w, v, me, sight, C(CoordDrainObserve), []);
  }

  /** The coordinator has paused the runner and finds it drained. */
  lemma SoloDrained(w: World, u: World, me: Identity, sight: Sight) returns (v: World)
    requires Solo(w, u, me, sight, C(CoordLoop)) && u.procs[me].slot == SLOT && Still(sight, SLOT) && sight.open == []
    requires u.paused && u.state.gcHolder.None? && u.state.phase == DRAINING && u.state.operation.Some? && u.state.operation.value.coordinator == me
    ensures Solo(w, v, me, sight, C(CoordSelect)) && Fresh(v, me) && v.state == u.state && RunnerAsIn(u, v) && v.procs[me].ev.idle
  {
    hide RecoveryNext; hide WorkerNext; hide CollectorNext; hide OthersAsIn;
    hide OwnReaches; hide ValidIdentity; hide Coherent; hide EvidenceOf;
    v := SoloLooped(w, u, me, sight);
    v := SoloDecide(w, v, me, sight, C(CoordGcCheck));
    v := SoloProbe(w, v, me, sight, C(CoordRunner));
  }

  const PAUSE := Put(OP, PausePut, COORDINATOR, true)

  /** The operation begins, and its coordinator finds the paused node drained. */
  lemma Drained() returns (w: World)
    ensures Staged(w) && w.now == SLOT && w.paused && w.inflight == multiset{} && w.puts == [PAUSE] && w.retired == {}
    ensures w.procs.Keys == {FIRST_PASS, COORDINATOR} && w.procs[COORDINATOR].pc == C(CoordSelect) && Fresh(w, COORDINATOR)
    ensures w.procs[COORDINATOR].ev.idle
    ensures w.state == StartDrain(Begin(State(2800, IDLE, None, None), SLOT, COORDINATOR))
  {
    hide Reaches; hide OwnReaches; hide EvidenceOf; hide Coherent;
    w := Beaten();
    var u := Spawned(w, COORDINATOR, Coordinator);
    u := Scheduled(u, COORDINATOR);
    w := SoloBegin(u, COORDINATOR, Blind(SLOT));
    w := SoloPause(u, w, COORDINATOR, Blind(SLOT));
    w := SoloDrained(u, w, COORDINATOR, Blind(SLOT));
    Onward(u, w, COORDINATOR, Blind(SLOT), C(CoordSelect));
  }

  lemma Selected(w: World) returns (v: World)
    requires Staged(w) && COORDINATOR in w.procs && w.procs[COORDINATOR].pc == C(CoordSelect) && Fresh(w, COORDINATOR)
    requires w.state.operation.Some? && w.procs[COORDINATOR].ev.idle
    ensures Staged(v) && v.state == w.state && v.version == w.version && RunnerAsIn(w, v) && v.now == w.now && v.retired == w.retired
    ensures v.procs.Keys == w.procs.Keys && v.procs[COORDINATOR].pc == Saving(DoAdmit)
    ensures v.procs[COORDINATOR].ver == v.version && v.procs[COORDINATOR].copy == Admit(w.state, WORKER_POD)
  {
    var l := Select(COORDINATOR, true, [WORKER_POD]);
    v := Apply(w, l);
    ReachStep(START, w, l);
    hide Reaches; hide Coherent;
  }

  lemma Admitted() returns (w: World)
    ensures Staged(w) && w.now == SLOT && w.paused && w.inflight == multiset{} && w.puts == [PAUSE] && w.retired == {COORDINATOR}
    ensures w.procs.Keys == {FIRST_PASS, COORDINATOR}
    ensures w.state == Admit(StartDrain(Begin(State(2800, IDLE, None, None), SLOT, COORDINATOR)), WORKER_POD)
  {
    hide Reaches; hide OwnReaches; hide EvidenceOf; hide Coherent;
    var z := Drained();
    assert Coherent(Admit(z.state, WORKER_POD)) by { BuildsKeepsCoherent(DoAdmit, COORDINATOR, z.state, Admit(z.state, WORKER_POD)); }
    var u := Selected(z);
    SoloStart(u, COORDINATOR, Blind(SLOT));
    w := SoloSave(u, u, COORDINATOR, Blind(SLOT), DoAdmit);
    Onward(u, w, COORDINATOR, Blind(SLOT), Stopped);
    w := Gone(w, COORDINATOR);
  }

  lemma SoloToClaim(w: World, me: Identity, sight: Sight) returns (v: World)
    requires Coherent(w.state) && w.state.phase == ADMITTED && w.state.operation.Some? && w.state.operation.value.worker == Some(me)
    requires w.state.gcHolder.None? && me in w.procs && w.procs[me].pc == K(WorkLoop) && w.now < w.procs[me].slot && Still(sight, w.now)
    requires w.now < w.state.operation.value.cleanupBy
    ensures Solo(w, v, me, sight, Saving(DoClaim)) && v.state == w.state && RunnerAsIn(w, v)
    ensures v.procs[me].copy == Claim(w.state) && v.procs[me].ver == v.version
  {
    hide RecoveryNext; hide CoordinatorNext; hide CollectorNext; hide OthersAsIn; hide OwnReaches; hide FenceHolds; hide Coherent;
    SoloStart(w, me, sight);
    v := SoloDecide(w, w, me, sight, K(WorkLoop));
    v := SoloRead(w, v, me, sight, K(WorkRead));
    v := SoloDecide(w, v, me, sight, K(WorkJudge));
  }

  lemma SoloClaims(w: World, me: Identity, sight: Sight) returns (v: World)
    requires Coherent(w.state) && w.state.phase == ADMITTED && w.state.operation.Some? && w.state.operation.value.worker == Some(me)
    requires ValidIdentity(me) && me in w.procs && w.procs[me].pc == K(WorkLoop) && w.now < w.procs[me].slot && Still(sight, w.now)
    requires w.now < w.state.operation.value.cleanupBy
    ensures Solo(w, v, me, sight, K(WorkCheck)) && v.state == Claim(w.state) && RunnerAsIn(w, v)
    ensures v.procs[me].opId == Some(w.state.operation.value.id)
  {
    hide OthersAsIn; hide OwnReaches; hide ValidIdentity;
    assert w.state.gcHolder.None?;
    hide Coherent; hide Valid;
    v := SoloToClaim(w, me, sight);
    BuildsKeepsCoherent(DoClaim, me, w.state, v.procs[me].copy);
    v := SoloSave(w, v, me, sight, DoClaim);
  }

  lemma SoloWorks(w: World, u: World, me: Identity, sight: Sight) returns (v: World)
    requires Solo(w, u, me, sight, K(WorkCheck)) && Still(sight, w.now) && u.state.phase == CLAIMED && u.state.operation.Some?
    requires var op := u.state.operation.value;
             u.procs[me].opId == Some(op.id) && op.worker == Some(me) && op.claimed && op.write == NoWrite && w.now < op.cleanupBy
    ensures Solo(w, v, me, sight, K(Working)) && v.state == u.state && RunnerAsIn(u, v)
  {
    hide RecoveryNext; hide CoordinatorNext; hide CollectorNext; hide OthersAsIn; hide Coherent; hide OwnReaches; hide ValidIdentity;
    v := SoloRead(w, u, me, sight, K(WorkCheck));
    v := SoloDecide(w, v, me, sight, K(WorkCheckJudge));
  }

  lemma Hired(w: World) returns (v: World)
    requires Staged(w) && WORKER_POD !in w.procs && WORKER_POD !in w.retired
    ensures Staged(v) && v.state == w.state && RunnerAsIn(w, v) && v.now == w.now && v.retired == w.retired
    ensures v.procs.Keys == w.procs.Keys + {WORKER_POD} && v.procs[WORKER_POD].pc == K(WorkLoop) && v.now < v.procs[WORKER_POD].slot
  {
    v := Apply(w, Spawn(WORKER_POD, Worker));
    ReachStep(START, w, Spawn(WORKER_POD, Worker));
    hide Reaches; hide OwnReaches; hide Coherent;
  }

  lemma Leaves(u: World) returns (w: World)
    requires Staged(u)
    ensures Staged(w) && Reaches(u, w) && w.state == u.state && RunnerAsIn(u, w) && w.now == u.now && w.retired == u.retired + {WORKER_POD}
    ensures w.procs.Keys == u.procs.Keys
  {
    w := Apply(u, Retire(WORKER_POD));
    ReachRefl(u);
    ReachStep(u, u, Retire(WORKER_POD));
    ReachStep(START, u, Retire(WORKER_POD));
    hide Reaches; hide OwnReaches; hide Coherent;
  }

  lemma Joins(z: World) returns (u: World)
    requires Staged(z) && CLOSING_PASS !in z.procs && CLOSING_PASS !in z.retired
    ensures Staged(u) && Reaches(z, u) && u.state == z.state && RunnerAsIn(z, u) && u.now == z.now && u.retired == z.retired
    ensures CLOSING_PASS in u.procs && u.procs[CLOSING_PASS].pc == R(RecRead)
  {
    u := Apply(z, Spawn(CLOSING_PASS, Recovery));
    ReachRefl(z);
    ReachStep(z, z, Spawn(CLOSING_PASS, Recovery));
    ReachStep(START, z, Spawn(CLOSING_PASS, Recovery));
    hide Reaches; hide OwnReaches; hide Coherent;
  }

  /** The worker claims, works behind its check, and ends. */
  lemma WorkedOut() returns (u: World, w: World)
    ensures Staged(u) && WORKER_POD in u.procs && u.procs[WORKER_POD].pc == K(Working)
    ensures Staged(w) && w.now == SLOT && w.paused && w.inflight == multiset{} && w.puts == [PAUSE] && w.retired == {COORDINATOR, WORKER_POD}
    ensures w.procs.Keys == {FIRST_PASS, COORDINATOR, WORKER_POD} && Reaches(u, w)
    ensures w.state == Claim(Admit(StartDrain(Begin(State(2800, IDLE, None, None), SLOT, COORDINATOR)), WORKER_POD))
  {
    hide Reaches; hide OwnReaches; hide EvidenceOf; hide Coherent;
    var z := Admitted();
    z := Hired(z);
    var v := SoloClaims(z, WORKER_POD, Blind(SLOT));
    u := SoloWorks(z, v, WORKER_POD, Blind(SLOT));
    Onward(z, u, WORKER_POD, Blind(SLOT), K(Working));
    w := Leaves(u);
  }

  /** The next recovery pass, in the phase the worker left, restores the runner. */
  lemma WoundUp(z: World) returns (w: World)
    requires Staged(z) && z.now == SLOT && z.paused && z.inflight == multiset{} && z.puts == [PAUSE] && z.retired == {COORDINATOR, WORKER_POD}
    requires CLOSING_PASS !in z.procs
    requires z.state == Claim(Admit(StartDrain(Begin(State(2800, IDLE, None, None), SLOT, COORDINATOR)), WORKER_POD))
    ensures Reaches(z, w) && !w.paused && w.inflight == multiset{} && w.puts == [PAUSE, Put(OP, RestorePut, CLOSING_PASS, true)]
    ensures w.state.phase == DONE && w.state.operation.Some?
    ensures var op := w.state.operation.value; op.id == OP && op.claimed && op.restored && op.write == NoWrite && op.outcome == CleanupSucceeded
  {
    hide Reaches; hide OwnReaches; hide EvidenceOf; hide Coherent;
    var u := Joins(z);
    NoPodsNoEvidence();
    EndEvidence();
    hide DeadPod;
    w := SoloPass(u, CLOSING_PASS, EndSight(SLOT));
    OwnIsRun(u, w, CLOSING_PASS, EndSight(SLOT));
    ReachTrans(z, u, w);
  }

  /** The protocol can do what it is for: from bootstrap, one execution pauses the runner once,
      drains the node, admits and claims its worker, lets it work behind its fence, and restores the
      runner once, recording that the cleanup succeeded. */
  lemma CleanHour() returns (u: World, v: World)
    ensures Initial(START) && Reaches(START, u) && Reaches(u, v)
    ensures WORKER_POD in u.procs && u.procs[WORKER_POD].pc == K(Working)
    ensures !v.paused && v.inflight == multiset{} && v.puts == [PAUSE, Put(OP, RestorePut, CLOSING_PASS, true)]
    ensures v.state.phase == DONE && v.state.operation.Some? && v.state.operation.value.id == OP
    ensures v.state.operation.value.restored && v.state.operation.value.outcome == CleanupSucceeded
  {
    hide Reaches; hide Coherent;
    var z;
    u, z := WorkedOut();
    v := WoundUp(z);
    ReachTrans(u, z, v);
  }
}
