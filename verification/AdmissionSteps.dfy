/** Every step of the maintenance protocol keeps the invariant. */
module AdmissionSteps {
  import opened Pods
  import opened AdmissionState
  import opened AdmissionProtocol
  import opened AdmissionInvariant

  // ----------------------------------------------------------------------- commits

  lemma RunnerBegin(w: World, a: Identity, t: State)
    requires CoreOk(w) && Legal(w, a, DoBegin, t)
    ensures RunnerOk(Commit(w, t))
  {
    hide HistoryOk; hide PutsOk; hide OwnersOk;
  }

  lemma RunnerSettle(w: World, a: Identity, m: Move, t: State)
    requires CoreOk(w) && Legal(w, a, m, t)
    requires m.DoDrain? || m.DoRestore? || m.DoFinish?
    ensures RunnerOk(Commit(w, t))
  {
    hide HistoryOk; hide PutsOk; hide OwnersOk;
  }

  lemma RunnerUnknown(w: World, a: Identity, m: Move, t: State)
    requires CoreOk(w) && Legal(w, a, m, t) && (m.DoUnknownPause? || m.DoUnknownRestore?)
    ensures RunnerOk(Commit(w, t))
  {
    hide HistoryOk; hide PutsOk; hide OwnersOk; hide ValidIdentity; hide ScheduledSlot;
  }

  /** The other saves leave what the runner's history is about: the operation, its write and
      its restored mark. */
  lemma WriteStays(w: World, a: Identity, m: Move, t: State)
    requires Legal(w, a, m, t)
    requires !(m.DoBegin? || m.DoDrain? || m.DoRestore? || m.DoFinish? || m.DoUnknownPause? || m.DoUnknownRestore?)
    ensures w.state.operation.Some? <==> t.operation.Some?
    ensures t.operation.Some? ==>
              var p, q := w.state.operation.value, t.operation.value;
              p.id == q.id && p.slot == q.slot && p.coordinator == q.coordinator && p.holder == q.holder
              && p.write == q.write && p.restored == q.restored && p.baseline == q.baseline
  {
  }

  lemma RunnerStays(w: World, a: Identity, m: Move, t: State)
    requires CoreOk(w) && Legal(w, a, m, t)
    requires !(m.DoBegin? || m.DoDrain? || m.DoRestore? || m.DoFinish? || m.DoUnknownPause? || m.DoUnknownRestore?)
    ensures RunnerOk(Commit(w, t))
  {
    hide HistoryOk; hide PutsOk; hide OwnersOk; hide Legal; hide Coherent; hide NewClaims; hide NewGcClaims;
    WriteStays(w, a, m, t);
  }

  lemma RunnerCommit(w: World, a: Identity, m: Move, t: State)
    requires CoreOk(w) && Legal(w, a, m, t)
    ensures RunnerOk(Commit(w, t))
  {
    hide CoreOk; hide Legal; hide RunnerOk;
    if m.DoBegin? { RunnerBegin(w, a, t); }
    else if m.DoDrain? || m.DoRestore? || m.DoFinish? { RunnerSettle(w, a, m, t); }
    else if m.DoUnknownPause? || m.DoUnknownRestore? { RunnerUnknown(w, a, m, t); }
    else { RunnerStays(w, a, m, t); }
  }

  lemma OwnersCommit(w: World, a: Identity, m: Move, t: State)
    requires CoreOk(w) && Legal(w, a, m, t)
    ensures OwnersOk(Commit(w, t))
  {
    hide HistoryOk; hide PutsOk; hide RunnerOk;
  }

  /** The history across the saves that move a claim or the GC slot. */
  lemma HistoryMoves(w: World, a: Identity, m: Move, t: State)
    requires CoreOk(w) && Legal(w, a, m, t)
    requires m.DoBegin? || m.DoAdmit? || m.DoClaim? || m.DoRetireGc? || m.DoGcClaim?
    ensures HistoryOk(Commit(w, t))
  {
    hide PutsOk; hide RunnerOk; hide ValidIdentity; hide ScheduledSlot;
  }

  lemma HistoryStays(w: World, a: Identity, m: Move, t: State)
    requires CoreOk(w) && Legal(w, a, m, t)
    requires !(m.DoBegin? || m.DoAdmit? || m.DoClaim? || m.DoRetireGc? || m.DoGcClaim?)
    ensures HistoryOk(Commit(w, t))
  {
    hide PutsOk; hide RunnerOk; hide ValidIdentity; hide ScheduledSlot; hide OwnersOk;
  }

  lemma HistoryCommit(w: World, a: Identity, m: Move, t: State)
    requires CoreOk(w) && Legal(w, a, m, t)
    ensures HistoryOk(Commit(w, t))
  {
    hide CoreOk; hide Legal; hide HistoryOk;
    if m.DoBegin? || m.DoAdmit? || m.DoClaim? || m.DoRetireGc? || m.DoGcClaim? {
      HistoryMoves(w, a, m, t);
    } else {
      HistoryStays(w, a, m, t);
    }
  }

  lemma CommitCore(w: World, a: Identity, m: Move, t: State)
    requires CoreOk(w) && Legal(w, a, m, t) && ValidIdentity(a)
    ensures CoreOk(Commit(w, t))
  {
    RunnerCommit(w, a, m, t);
    OwnersCommit(w, a, m, t);
    HistoryCommit(w, a, m, t);
    BuildsKeepsCoherent(m, a, w.state, t);
  }

  /** Another process's unresolved pause or restore survives every lawful commit. */
  lemma OwnershipSurvives(w: World, a: Identity, m: Move, t: State, i: Identity)
    requires CoreOk(w) && Legal(w, a, m, t)
    requires i != a
    ensures OwnsPause(w, i) ==>
              OwnsPause(Commit(w, t), i) && t.operation.value.id == w.state.operation.value.id
    ensures OwnsRestore(w, i) ==>
              OwnsRestore(Commit(w, t), i) && t.operation.value.id == w.state.operation.value.id
  {
    hide HistoryOk; hide PutsOk; hide RunnerOk; hide OwnersOk;
  }

  lemma CommitProc(w: World, a: Identity, m: Move, t: State, i: Identity, p: Proc)
    requires CoreOk(w) && Legal(w, a, m, t) && ProcOk(w, i, p)
    requires i != a || p.pc == Stopped
    ensures ProcOk(Commit(w, t), i, p)
  {
    if p.pc != Stopped { OwnershipSurvives(w, a, m, t, i); }
    hide CoreOk; hide Coherent; hide Legal; hide NewClaims; hide NewGcClaims; hide Belongs; hide ValidIdentity;
    hide SavedFacts;
  }

  /** Once anything commits, every other save attempt is stale for good. */
  lemma CommitLate(w: World, t: State, x: Write)
    requires LateOk(w, x)
    ensures LateOk(Commit(w, t), x)
  {
    hide Coherent; hide Legal; hide NewClaims; hide NewGcClaims;
  }

  lemma CommitInv(w: World, a: Identity, m: Move, t: State)
    requires Inv(w) && Legal(w, a, m, t) && ValidIdentity(a) && a in w.procs
    ensures CoreOk(Commit(w, t))
    ensures forall i :: i in w.procs && (i != a || w.procs[i].pc == Stopped) ==> ProcOk(Commit(w, t), i, w.procs[i])
    ensures forall x :: x in w.late ==> LateOk(Commit(w, t), x)
  {
    hide CoreOk; hide ProcOk; hide LateOk; hide Legal; hide ValidIdentity;
    CommitCore(w, a, m, t);
    forall i | i in w.procs && (i != a || w.procs[i].pc == Stopped) ensures ProcOk(Commit(w, t), i, w.procs[i]) {
      CommitProc(w, a, m, t, i, w.procs[i]);
    }
    forall x | x in w.late ensures LateOk(Commit(w, t), x) { CommitLate(w, t, x); }
  }

  lemma LateCommitInv(w: World, x: Write)
    requires Inv(w) && x in w.late && x.ver == w.version
    ensures Inv(Commit(w, x.next))
  {
    hide CoreOk; hide ProcOk; hide Legal; hide Coherent; hide ValidIdentity;
    assert LateOk(w, x);
    CommitInv(w, x.author, x.move, x.next);
  }

  lemma SavedProc(w: World, me: Identity, p: Proc)
    requires ProcOk(w, me, p) && p.pc.Saving?
    ensures ProcOk(Commit(w, p.copy), me, p.(pc := ReadingBack(p.pc.move)))
  {
    hide Coherent; hide NewClaims; hide NewGcClaims; hide ValidIdentity; hide SavedFacts; hide Legal;
  }

  lemma SaveInv(w: World, me: Identity)
    requires Inv(w) && me in w.procs && w.procs[me].pc.Saving?
    ensures Inv(SaveStep(w, me, w.procs[me]))
  {
    hide CoreOk; hide Legal; hide Coherent; hide ValidIdentity; hide Facts; hide NewClaims; hide NewGcClaims; hide Valid;
    var p := w.procs[me];
    assert ProcOk(w, me, p);
    if !Valid(p.copy) || p.ver != w.version {
      StoppingOk(w, me);
      OneProcess(w, me, p.(pc := Stopped));
    } else {
      CommitInv(w, me, p.pc.move, p.copy);
      SavedProc(w, me, p);
      AfterCommit(w, me, p.copy, p.(pc := ReadingBack(p.pc.move)));
    }
  }

  lemma AfterCommit(w: World, me: Identity, t: State, p: Proc)
    requires Inv(w) && me in w.procs && w.procs[me].pc != Stopped
    requires CoreOk(Commit(w, t)) && ProcOk(Commit(w, t), me, p)
    requires forall i :: i in w.procs && i != me ==> ProcOk(Commit(w, t), i, w.procs[i])
    requires forall x :: x in w.late ==> LateOk(Commit(w, t), x)
    ensures Inv(With(Commit(w, t), me, p))
  {
    hide CoreOk; hide ProcOk; hide Legal; hide Coherent; hide ValidIdentity; hide NewClaims; hide NewGcClaims;
    var c := Commit(w, t);
    var v := With(c, me, p);
    SameCore(c, v);
    forall i | i in v.procs ensures ProcOk(v, i, v.procs[i]) { SameShared(c, v, i, v.procs[i]); }
    forall x | x in v.late ensures LateOk(v, x) {
      assert LateOk(c, x) && LateOk(w, x);
      SameLegal(c, v, x.author, x.move, x.next);
    }
  }

  /** An errored save stays lawful while it can still commit. */
  lemma SaveErrorInv(w: World, me: Identity)
    requires Inv(w) && me in w.procs && w.procs[me].pc.Saving?
    ensures Inv(Apply(w, SaveError(me)))
  {
    hide CoreOk; hide Legal; hide Coherent; hide ValidIdentity; hide Facts; hide NewClaims;
    var p := w.procs[me];
    var v := Apply(w, SaveError(me));
    assert ProcOk(w, me, p);
    SameCore(w, v);
    StoppingOk(w, me);
    forall i | i in v.procs ensures ProcOk(v, i, v.procs[i]) {
      assert ProcOk(w, i, v.procs[i]);
      SameShared(w, v, i, v.procs[i]);
    }
    forall x | x in v.late ensures LateOk(v, x) {
      if x in w.late { assert LateOk(w, x); }
      SameLegal(w, v, x.author, x.move, x.next);
    }
  }

  // ------------------------------------------------------- environment and own steps

  lemma RetireProc(w: World, me: Identity, i: Identity, p: Proc)
    requires ProcOk(w, i, p) && (i == me ==> p.pc == Stopped)
    ensures ProcOk(w.(retired := w.retired + {me}), i, p)
  {
    hide Coherent; hide NewClaims; hide ValidIdentity; hide SavedFacts; hide Builds;
  }

  lemma RetireInv(w: World, me: Identity)
    requires Inv(w) && (me in w.procs ==> w.procs[me].pc == Stopped)
    ensures Inv(w.(retired := w.retired + {me}))
  {
    var v := w.(retired := w.retired + {me});
    RetireCore(w, me);
    hide CoreOk; hide ProcOk; hide Coherent; hide ValidIdentity; hide Builds;
    hide Legal;
    forall i | i in v.procs ensures ProcOk(v, i, v.procs[i]) { RetireProc(w, me, i, w.procs[i]); }
    forall x | x in v.late ensures LateOk(v, x) {
      assert LateOk(w, x);
      if x.ver == w.version { RetireLegal(w, me, x.author, x.move, x.next); }
    }
  }

  lemma RetireLegal(w: World, me: Identity, a: Identity, m: Move, t: State)
    requires Legal(w, a, m, t)
    ensures Legal(w.(retired := w.retired + {me}), a, m, t)
  {
    hide Builds;
  }

  lemma RetireCore(w: World, me: Identity)
    requires CoreOk(w)
    ensures CoreOk(w.(retired := w.retired + {me}))
  {
    hide Coherent; hide PutsOk;
  }

  lemma TickProc(w: World, later: int, i: Identity, p: Proc)
    requires ProcOk(w, i, p)
    ensures ProcOk(w.(now := later), i, p)
  {
    hide Coherent; hide ValidIdentity; hide Builds; hide SavedFacts; hide NewClaims;
  }

  lemma TickCore(w: World, later: int)
    requires CoreOk(w) && w.now <= later
    ensures CoreOk(w.(now := later))
  {
    hide Coherent; hide PutsOk; hide NewClaims; hide NewGcClaims;
  }

  lemma TickLate(w: World, later: int, x: Write)
    requires LateOk(w, x)
    ensures LateOk(w.(now := later), x)
  {
    hide Coherent; hide ValidIdentity; hide Builds;
  }

  lemma TickInv(w: World, later: int)
    requires Inv(w) && w.now <= later
    ensures Inv(w.(now := later))
  {
    hide CoreOk; hide ProcOk; hide LateOk;
    var v := w.(now := later);
    TickCore(w, later);
    forall i | i in v.procs ensures ProcOk(v, i, v.procs[i]) { TickProc(w, later, i, w.procs[i]); }
    forall x | x in v.late ensures LateOk(v, x) { TickLate(w, later, x); }
  }

  lemma LandProc(w: World, value: bool, i: Identity, p: Proc)
    requires ProcOk(w, i, p) && value in w.inflight
    requires p.pc.Saving? && p.ver == w.version && p.pc.move.DoBegin? ==> Quiet(w)
    ensures ProcOk(w.(paused := value, inflight := w.inflight - multiset{value}), i, p)
  {
    hide Coherent; hide NewClaims; hide ValidIdentity; hide SavedFacts; hide Builds;
  }

  lemma LandCore(w: World, value: bool)
    requires CoreOk(w) && value in w.inflight
    ensures CoreOk(w.(paused := value, inflight := w.inflight - multiset{value}))
  {
    hide PutsOk; hide Coherent;
  }

  /** A new operation cannot begin while any runner write is in flight. */
  lemma BeginQuiet(w: World, a: Identity, t: State)
    requires CoreOk(w) && Legal(w, a, DoBegin, t)
    ensures Quiet(w)
  {
    hide PutsOk; hide HistoryOk; hide OwnersOk;
  }

  lemma LandInv(w: World, value: bool)
    requires Inv(w) && value in w.inflight
    ensures Inv(w.(paused := value, inflight := w.inflight - multiset{value}))
  {
    var v := w.(paused := value, inflight := w.inflight - multiset{value});
    hide CoreOk; hide ValidIdentity; hide Coherent; hide Facts; hide Builds; hide NewClaims;
    LandCore(w, value);
    forall i | i in v.procs ensures ProcOk(v, i, v.procs[i]) {
      var p := w.procs[i];
      assert ProcOk(w, i, p);
      if p.pc.Saving? && p.ver == w.version && p.pc.move.DoBegin? { BeginQuiet(w, i, p.copy); }
      LandProc(w, value, i, p);
    }
    forall x | x in v.late ensures LateOk(v, x) {
      assert LateOk(w, x);
      if x.ver == w.version && x.move.DoBegin? { BeginQuiet(w, x.author, x.next); }
    }
  }

  lemma ReadOk(w: World, me: Identity, p: Proc)
    requires CoreOk(w) && ProcOk(w, me, p) && AfterRead(p.pc).Some?
    ensures ProcOk(w, me, p.(pc := AfterRead(p.pc).value, ver := w.version, copy := w.state))
  {
    hide RunnerOk; hide OwnersOk; hide PutsOk; hide Coherent; hide ValidIdentity; hide NoPutBy; hide Quiet;
    hide Acked; hide Issued; hide NewClaims; hide OwnsPause; hide OwnsRestore;
  }

  lemma ObserveOk(w: World, me: Identity, p: Proc, ev: Evidence)
    requires ProcOk(w, me, p) && AfterObserve(p.pc).Some? && ev.terminal <= w.retired
    ensures ProcOk(w, me, p.(pc := AfterObserve(p.pc).value, ev := ev))
  {
    hide Coherent; hide ValidIdentity; hide NewClaims; hide NoPutBy;
  }

  lemma ScheduleOk(w: World, me: Identity, p: Proc, ev: Evidence, slot: int)
    requires ProcOk(w, me, p) && p.pc == C(CoordObserve) && ev.terminal <= w.retired && ScheduledSlot(slot)
    ensures ProcOk(w, me, p.(pc := C(CoordRead), ev := ev, slot := slot))
  {
    hide Coherent; hide ValidIdentity; hide NewClaims; hide NoPutBy;
  }

  lemma DecideOk(w: World, me: Identity, p: Proc)
    requires CoreOk(w) && ProcOk(w, me, p) && Decides(p.pc)
    ensures ProcOk(w, me, Next(me, p, w.now))
  {
    hide CoreOk; hide ProcOk; hide CoordinatorNext; hide RecoveryNext; hide WorkerNext; hide CollectorNext;
    match p.pc {
      case C(c) => CoordinatorNextOk(w, me, p, c);
      case R(r) => RecoveryNextOk(w, me, p, r);
      case K(k) => WorkerNextOk(w, me, p, k);
      case G(g) => CollectorNextOk(w, me, p, g);
      case _ =>
    }
  }

  /** A confirmed save: the store still holds exactly what was saved. */
  lemma ReadBackOk(w: World, me: Identity, p: Proc)
    requires CoreOk(w) && ProcOk(w, me, p) && p.pc.ReadingBack? && w.state == p.copy
    ensures ProcOk(w, me, AfterSave(p, p.pc.move))
  {
    hide RunnerOk; hide OwnersOk; hide PutsOk; hide Coherent; hide ValidIdentity; hide NoPutBy; hide Quiet;
    hide Acked; hide Issued; hide NewClaims;
  }

  lemma CoordProbeOk(w: World, me: Identity, p: Proc, ok: bool)
    requires CoreOk(w) && ProcOk(w, me, p) && p.pc.C? && Probes(p.pc)
    ensures ProcOk(w, me, AfterProbe(me, p, w.paused, ok, w.now))
  {
    hide RunnerOk; hide OwnersOk; hide PutsOk; hide HistoryOk; hide Coherent; hide ValidIdentity; hide NewClaims;
    hide NoPutBy; hide Quiet;
    var n := AfterProbe(me, p, w.paused, ok, w.now);
    if n.pc.Saving? { SavesOk(w, me, p, n.pc.move, n.copy); } else { GoOk(w, me, p, n.pc); }
  }

  lemma RecProbeOk(w: World, me: Identity, p: Proc, ok: bool)
    requires CoreOk(w) && ProcOk(w, me, p) && p.pc.R? && Probes(p.pc)
    ensures ProcOk(w, me, AfterProbe(me, p, w.paused, ok, w.now))
  {
    hide RunnerOk; hide OwnersOk; hide PutsOk; hide HistoryOk; hide Coherent; hide ValidIdentity; hide NewClaims;
    hide NoPutBy; hide Quiet; hide Acked;
    var n := AfterProbe(me, p, w.paused, ok, w.now);
    if n.pc.Saving? { SavesOk(w, me, p, n.pc.move, n.copy); } else { RecGoOk(w, me, p, n.pc, ok); }
  }

  lemma RecGoOk(w: World, me: Identity, p: Proc, pc: Pc, ok: bool)
    requires CoreOk(w) && ProcOk(w, me, p) && p.pc.R? && Probes(p.pc)
    requires pc == AfterProbe(me, p, w.paused, ok, w.now).pc && !pc.Saving?
    ensures ProcOk(w, me, p.(pc := pc))
  {
    hide RunnerOk; hide OwnersOk; hide PutsOk; hide HistoryOk; hide Coherent; hide ValidIdentity; hide NewClaims; hide NoPutBy;
    GoOk(w, me, p, pc);
  }

  lemma SelectOk(w: World, me: Identity, p: Proc, quiet: bool, workers: seq<Identity>)
    requires ProcOk(w, me, p) && p.pc == C(CoordSelect)
    requires forall i :: i in workers ==> ValidIdentity(i) && i.namespace == WORKER
    ensures ProcOk(w, me, AfterSelect(p, quiet, workers))
  {
    hide Coherent; hide ValidIdentity; hide NewClaims;
    var n := AfterSelect(p, quiet, workers);
    if n.pc.Saving? { SavesOk(w, me, p, n.pc.move, n.copy); } else { GoOk(w, me, p, n.pc); }
  }

  // ------------------------------------------------------------------- runner PUTs

  /** What the issuer of a PUT knows: it owns the stored operation's unresolved write and
      has issued nothing before. */
  ghost predicate MayPut(w: World, me: Identity, p: Proc) {
    && Coherent(w.state) && NoPutBy(w, me) && p.copy.operation.Some? && Puts(p.pc)
    && (p.pc == C(CoordPut) ==> OwnsPause(w, me))
    && (p.pc == R(RecPut) ==> OwnsRestore(w, me) && !p.copy.operation.value.baseline)
    && w.state.operation.Some? && p.copy.operation.value.id == w.state.operation.value.id
  }

  lemma IssuerMayPut(w: World, me: Identity, p: Proc)
    requires CoreOk(w) && ProcOk(w, me, p) && Puts(p.pc)
    ensures MayPut(w, me, p)
  {
    hide RunnerOk; hide OwnersOk; hide PutsOk; hide HistoryOk; hide Coherent; hide ValidIdentity;
  }

  lemma PutsSnoc(puts: seq<Put>, q: Put)
    requires PutsOk(puts) && (forall x :: x in puts ==> x.author != q.author)
    requires q.kind == PausePut ==> forall x :: x in puts && x.kind == PausePut ==> x.op != q.op
    requires q.kind == RestorePut ==> exists x :: x in puts && x.op == q.op && x.kind == PausePut && x.ok
    ensures PutsOk(puts + [q])
  {
    hide PausedBefore;
    var qs, n := puts + [q], |puts|;
    assert forall i :: 0 <= i < n ==> qs[i] == puts[i] && puts[i] in puts;
    forall j | 0 <= j < |qs| && qs[j].kind == RestorePut ensures PausedBefore(qs, j) {
      if j < n { StillPaused(puts, q, j); } else { NowPaused(puts, q); }
    }
  }

  lemma StillPaused(puts: seq<Put>, q: Put, j: nat)
    requires j < |puts| && PausedBefore(puts, j)
    ensures PausedBefore(puts + [q], j)
  {
    var i :| 0 <= i < j && puts[i].op == puts[j].op && puts[i].kind == PausePut && puts[i].ok;
    var qs := puts + [q];
    assert qs[i] == puts[i] && qs[j] == puts[j];
  }

  lemma NowPaused(puts: seq<Put>, q: Put)
    requires exists x :: x in puts && x.op == q.op && x.kind == PausePut && x.ok
    ensures PausedBefore(puts + [q], |puts|)
  {
    var x :| x in puts && x.op == q.op && x.kind == PausePut && x.ok;
    var i :| 0 <= i < |puts| && puts[i] == x;
    var qs := puts + [q];
    assert qs[i] == x && qs[|puts|] == q;
  }

  lemma PutHistory(w: World, me: Identity, p: Proc, ok: bool)
    requires MayPut(w, me, p) && PutsOk(w.puts) && RunnerOk(w)
    ensures PutsOk(PutStep(w, me, p, ok).puts)
  {
    var q := Put(p.copy.operation.value.id, if p.pc == C(CoordPut) then PausePut else RestorePut, me, ok);
    assert PutStep(w, me, p, ok).puts == w.puts + [q];
    NewPutIsDue(w, me, p, q);
    hide MayPut; hide RunnerOk; hide PutsOk; hide PutStep;
    PutsSnoc(w.puts, q);
  }

  lemma NewPutIsDue(w: World, me: Identity, p: Proc, q: Put)
    requires MayPut(w, me, p) && RunnerOk(w) && q.author == me && q.op == p.copy.operation.value.id
    requires q.kind == if p.pc == C(CoordPut) then PausePut else RestorePut
    ensures forall x :: x in w.puts ==> x.author != me
    ensures q.kind == PausePut ==> forall x :: x in w.puts && x.kind == PausePut ==> x.op != q.op
    ensures q.kind == RestorePut ==> exists x :: x in w.puts && x.op == q.op && x.kind == PausePut && x.ok
  {
    hide Coherent;
    var op := w.state.operation.value;
    if q.kind == RestorePut { assert Put(op.id, PausePut, op.coordinator, true) in w.puts; }
  }

  lemma PutRunnerOk(w: World, me: Identity, p: Proc, ok: bool)
    requires MayPut(w, me, p) && RunnerOk(w)
    ensures RunnerOk(PutStep(w, me, p, ok))
  {
    assert w.state.operation.value.id.slot == w.state.operation.value.slot;
    hide Valid;
  }

  lemma PutCore(w: World, me: Identity, p: Proc, ok: bool)
    requires CoreOk(w) && MayPut(w, me, p)
    ensures CoreOk(PutStep(w, me, p, ok))
  {
    PutHistory(w, me, p, ok);
    PutRunnerOk(w, me, p, ok);
    assert Puts(p.pc) && p.copy.operation.Some?;
    hide RunnerOk; hide PutsOk; hide Coherent; hide MayPut;
  }

  lemma PutLegal(w: World, me: Identity, p: Proc, ok: bool, a: Identity, m: Move, t: State)
    requires MayPut(w, me, p) && RunnerOk(w) && Legal(w, a, m, t) && a != me
    ensures Legal(PutStep(w, me, p, ok), a, m, t)
  {
    hide Valid;
  }

  lemma PutProc(w: World, me: Identity, p: Proc, ok: bool, i: Identity, o: Proc)
    requires MayPut(w, me, p) && RunnerOk(w) && ProcOk(w, i, o) && i != me
    ensures ProcOk(PutStep(w, me, p, ok), i, o)
  {
    if o.pc.Saving? && o.ver == w.version { PutLegal(w, me, p, ok, i, o.pc.move, o.copy); }
    hide RunnerOk; hide Coherent; hide ValidIdentity; hide NewClaims; hide SavedFacts; hide Legal;
  }

  lemma PutSelf(w: World, me: Identity, p: Proc, ok: bool)
    requires MayPut(w, me, p) && RunnerOk(w) && ProcOk(w, me, p)
    ensures var v := PutStep(w, me, p, ok); ProcOk(v, me, v.procs[me])
  {
    hide ValidIdentity; hide NewClaims; hide Coherent;
  }

  lemma PutInv(w: World, me: Identity, ok: bool)
    requires Inv(w) && me in w.procs && Puts(w.procs[me].pc)
    ensures w.procs[me].copy.operation.Some? && Inv(PutStep(w, me, w.procs[me], ok))
  {
    var p := w.procs[me];
    IssuerMayPut(w, me, p);
    var v := PutStep(w, me, p, ok);
    PutCore(w, me, p, ok);
    PutSelf(w, me, p, ok);
    assert RunnerOk(w);
    hide CoreOk; hide ProcOk; hide RunnerOk; hide Coherent; hide Legal; hide ValidIdentity;
    forall i | i in v.procs ensures ProcOk(v, i, v.procs[i]) {
      if i != me { PutProc(w, me, p, ok, i, w.procs[i]); }
    }
    forall x | x in v.late ensures LateOk(v, x) {
      assert LateOk(w, x);
      if x.ver == w.version { PutLegal(w, me, p, ok, x.author, x.move, x.next); }
    }
  }

  // -------------------------------------------------------------------- every step

  lemma SpawnOk(w: World, me: Identity, kind: Kind)
    requires Inv(w) && ValidIdentity(me) && me.namespace == HomeOf(kind) && me !in w.procs && me !in w.retired
    ensures ProcOk(w, me, Proc(kind, StartOf(kind), 0, w.state, Evidence({}, {}, false), w.now + 1200, None))
  {
    hide CoreOk; hide LateOk; hide ValidIdentity;
  }

  /** A process's own step that leaves everything else alone. */
  ghost predicate IsLocal(l: Label) {
    l.Crash? || l.Schedule? || l.Observe? || l.Read? || l.Decide? || l.ReadBack? || l.Probe? || l.Select? || l.Recheck?
  }

  lemma LocalInv(w: World, l: Label)
    requires Inv(w) && Enabled(w, l) && IsLocal(l)
    ensures Inv(Apply(w, l))
  {
    hide CoreOk; hide ProcOk; hide LateOk; hide EvidenceOf; hide Next; hide AfterSave; hide AfterProbe; hide AfterSelect;
    hide AfterRead; hide AfterObserve; hide Coherent; hide ValidIdentity;
    var me := l.me;
    var p := w.procs[me];
    StoppingOk(w, me);
    match l {
      case Schedule(_, pods, slot) => ScheduleOk(w, me, p, EvidenceOf(pods), slot);
      case Observe(_, pods) => ObserveOk(w, me, p, EvidenceOf(pods));
      case Read(_) => ReadOk(w, me, p);
      case Decide(_) => DecideOk(w, me, p);
      case ReadBack(_) => if w.state == p.copy { ReadBackOk(w, me, p); }
      case Probe(_, ok) => if p.pc.C? { CoordProbeOk(w, me, p, ok); } else { RecProbeOk(w, me, p, ok); }
      case Select(_, quiet, workers) => SelectOk(w, me, p, quiet, workers);
      case Recheck(_) => RecheckOk(w, me, p);
      case _ =>
    }
    OneProcess(w, me, Apply(w, l).procs[me]);
    assert Apply(w, l) == With(w, me, Apply(w, l).procs[me]);
  }

  lemma RecheckOk(w: World, me: Identity, p: Proc)
    requires ProcOk(w, me, p) && p.pc == K(Working)
    ensures ProcOk(w, me, p.(pc := K(WorkCheck)))
  {
    hide ValidIdentity;
  }

  /** Every step keeps the invariant. */
  lemma StepInv(w: World, l: Label)
    requires Inv(w) && Enabled(w, l)
    ensures Inv(Apply(w, l))
  {
    hide CoreOk; hide ProcOk; hide LateOk; hide EvidenceOf; hide Coherent; hide ValidIdentity; hide SaveStep; hide PutStep;
    match l {
      case Spawn(me, kind) =>
        SpawnOk(w, me, kind);
        OneProcess(w, me, Apply(w, l).procs[me]);
      case Retire(me) =>
        if me in w.procs {
          StoppingOk(w, me);
          OneProcess(w, me, w.procs[me].(pc := Stopped));
          RetireInv(With(w, me, w.procs[me].(pc := Stopped)), me);
        } else {
          RetireInv(w, me);
        }
      case Tick(later) => TickInv(w, later);
      case LateCommit(x) => LateCommitInv(w, x);
      case Land(v) => LandInv(w, v);
      case Save(me) => SaveInv(w, me);
      case SaveError(me) => SaveErrorInv(w, me);
      case PutRunner(me, ok) => PutInv(w, me, ok);
      case _ => LocalInv(w, l);
    }
  }

  /** The invariant holds in every world of every execution. */
  lemma {:induction false} ExecutionInv(ws: seq<World>, ls: seq<Label>, k: nat)
    requires IsExecution(ws, ls) && k < |ws|
    ensures Inv(ws[k])
  {
    hide Inv; hide Initial; hide Enabled; hide Apply;
    if k == 0 {
      InitialInv(ws[0]);
    } else {
      ExecutionInv(ws, ls, k - 1);
      StepInv(ws[k - 1], ls[k - 1]);
    }
  }
}
