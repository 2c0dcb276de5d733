/** The inductive invariant of the maintenance protocol. It rests on the durable write
    intent, the claim latch and Pod retirement; the phase alone is not a latch. */
module AdmissionInvariant {
  import opened Pods
  import opened AdmissionState
  import opened AdmissionProtocol

  // ------------------------------------------------------------- history of PUTs

  ghost predicate Acked(w: World, id: OpId, kind: PutKind, i: Identity) {
    Put(id, kind, i, true) in w.puts
  }

  ghost predicate Issued(w: World, id: OpId, kind: PutKind, i: Identity) {
    Put(id, kind, i, true) in w.puts || Put(id, kind, i, false) in w.puts
  }

  ghost predicate NoPutBy(w: World, i: Identity) {
    forall q :: q in w.puts ==> q.author != i
  }

  ghost predicate HasRestore(w: World, id: OpId) {
    exists q :: q in w.puts && q.op == id && q.kind == RestorePut
  }

  ghost predicate Quiet(w: World) {
    w.inflight == multiset{}
  }

  /** No two PUTs by one Pod, one pause per operation, and every restore follows an
      acknowledged pause of its operation. */
  ghost predicate PutsOk(puts: seq<Put>) {
    && (forall i, j :: 0 <= i < j < |puts| ==> puts[i].author != puts[j].author)
    && (forall i, j :: 0 <= i < j < |puts| && puts[i].kind == PausePut && puts[j].kind == PausePut ==> puts[i].op != puts[j].op)
    && (forall j :: 0 <= j < |puts| && puts[j].kind == RestorePut ==> PausedBefore(puts, j))
  }

  ghost predicate PausedBefore(puts: seq<Put>, j: int)
    requires 0 <= j < |puts|
  {
    exists i :: 0 <= i < j && puts[i].op == puts[j].op && puts[i].kind == PausePut && puts[i].ok
  }

  // --------------------------------------------------------------- runner and owners

  ghost predicate RunnerOk(w: World) {
    match w.state.operation
    case None => w.puts == [] && Quiet(w)
    case Some(op) =>
      && (forall q :: q in w.puts ==> q.op.slot <= op.slot && (q.op.slot == op.slot ==> q.op == op.id))
      && (forall q :: q in w.puts && q.op == op.id && q.kind == PausePut ==> q.author == op.coordinator)
      && match op.write
         case NoWrite =>
           && Quiet(w) && w.paused == !op.restored && Acked(w, op.id, PausePut, op.coordinator)
           && (op.restored <==> HasRestore(w, op.id))
         case PauseWrite =>
           && !HasRestore(w, op.id)
           && (!Issued(w, op.id, PausePut, op.coordinator) ==> Quiet(w) && !w.paused)
         case RestoreWrite =>
           && Acked(w, op.id, PausePut, op.coordinator)
           && (op.holder.Some? && !Issued(w, op.id, RestorePut, op.holder.value) ==>
                 Quiet(w) && w.paused == !op.restored && (op.restored <==> HasRestore(w, op.id)))
         case UnknownWrite => Issued(w, op.id, PausePut, op.coordinator)
  }

  ghost predicate OwnersOk(w: World) {
    w.state.operation.Some? ==>
      var op := w.state.operation.value;
      && (op.claimed && op.worker.Some? && op.worker.value !in w.retired ==>
            op.write == NoWrite && !op.restored && w.state.gcHolder.None?)
      && (op.write == RestoreWrite || op.restored ==> op.coordinator in w.retired)
  }

  ghost predicate CurrentClaim(s: State, c: ClaimRecord) {
    && s.operation.Some? && s.operation.value.id == c.op && s.operation.value.claimed
    && s.operation.value.worker == Some(c.worker)
  }

  ghost predicate PastClaim(s: State, c: ClaimRecord) {
    s.operation.Some? && c.op.slot < s.operation.value.slot
  }

  /** Claims and GC claims that ever committed belong to a retired Pod or are current. */
  ghost predicate HistoryOk(w: World) {
    && NewClaims(w.state) <= w.claims
    && NewGcClaims(w.state) <= w.gcClaims
    && (forall c :: c in w.claims ==> c.worker in w.retired || CurrentClaim(w.state, c))
    && (forall c :: c in w.claims ==> PastClaim(w.state, c) || CurrentClaim(w.state, c))
    && (forall g :: g in w.gcClaims ==> g in w.retired || (w.state.gcHolder.Some? && w.state.gcHolder.value.identity == g))
  }

  // ------------------------------------------------------------------- save attempts

  /** A save that would commit now is a lawful successor of the stored state. */
  ghost predicate Legal(w: World, me: Identity, move: Move, t: State) {
    && Builds(move, me, w.state, t)
    && match move
       case DoBegin => !w.paused && (w.state.operation.Some? ==> w.state.operation.value.holder.value in w.retired)
       case DoDrain => Acked(w, w.state.operation.value.id, PausePut, me) && w.paused && Quiet(w)
       case DoAdmit => w.state.gcHolder.Some? ==> w.state.gcHolder.value.identity in w.retired
       case DoUnknownPause => Issued(w, w.state.operation.value.id, PausePut, me)
       case DoRetireGc => w.state.gcHolder.value.identity in w.retired
       case DoRestore =>
         && NoPutBy(w, me) && w.state.operation.value.coordinator in w.retired
         && (w.state.operation.value.claimed ==>
               w.state.operation.value.worker.Some? && w.state.operation.value.worker.value in w.retired)
       case DoUnknownRestore => Issued(w, w.state.operation.value.id, RestorePut, me)
       case DoFinish => Acked(w, w.state.operation.value.id, RestorePut, me) && !w.paused && Quiet(w)
       case _ => true
  }

  ghost predicate LateOk(w: World, x: Write) {
    && x.ver <= w.version && Coherent(x.next) && ValidIdentity(x.author)
    && x.author in w.procs && w.procs[x.author].pc == Stopped
    && (x.ver == w.version ==> Legal(w, x.author, x.move, x.next))
  }

  // --------------------------------------------------------------------- processes

  /** Points at which the copy is the last state read. */
  predicate Loaded(pc: Pc) {
    match pc
    case C(c) =>
      || c.CoordCheck? || c.CoordBaseline? || c.CoordUnknownSave? || c.CoordPauseSave? || c.CoordDrainCheck?
      || c.CoordDrainObserve? || c.CoordGcCheck? || c.CoordRunner? || c.CoordSelect? || c.CoordTimeoutSave?
    case R(r) =>
      || r.RecCheck? || r.RecProbe? || r.RecBeat? || r.RecGc? || r.RecGcObserve? || r.RecGcJudge? || r.RecPhase?
      || r.RecObserve? || r.RecJudge? || r.RecRetire? || r.RecUnknownSave? || r.RecDoneSave?
    case K(k) => k.WorkJudge? || k.WorkCheckJudge?
    case G(g) => g.GcJudge?
    case _ => false
  }

  function KindOfMove(m: Move): Kind {
    match m
    case DoBegin | DoDrain | DoAdmit | DoCloseDrain | DoUnknownPause => Coordinator
    case DoClaim => Worker
    case DoGcClaim => Collector
    case _ => Recovery
  }

  /** Which kind of process may stand at a program point. */
  predicate Belongs(kind: Kind, pc: Pc) {
    match pc
    case Stopped => true
    case Saving(m) => kind == KindOfMove(m)
    case ReadingBack(m) => kind == KindOfMove(m)
    case C(_) => kind == Coordinator
    case R(_) => kind == Recovery
    case K(_) => kind == Worker
    case G(_) => kind == Collector
  }

  predicate PrePutMove(m: Move) {
    m.DoBegin? || m.DoHeartbeat? || m.DoRetireGc? || m.DoSeal? || m.DoRestore?
  }

  /** Program points before the process's only runner PUT. */
  predicate PrePut(pc: Pc) {
    match pc
    case C(c) => c.CoordObserve? || c.CoordRead? || c.CoordCheck? || c.CoordBaseline? || c.CoordPut?
    case R(r) => !(r.RecConfirm? || r.RecUnknown? || r.RecUnknownSave? || r.RecDone? || r.RecDoneSave?)
    case Saving(m) => PrePutMove(m)
    case ReadingBack(m) => PrePutMove(m)
    case _ => false
  }

  /** The stored operation is `me`'s, with its pause (restore) still unresolved. */
  ghost predicate OwnsPause(w: World, me: Identity) {
    w.state.operation.Some? && w.state.operation.value.coordinator == me && w.state.operation.value.write == PauseWrite
  }

  ghost predicate OwnsRestore(w: World, me: Identity) {
    w.state.operation.Some? && w.state.operation.value.holder == Some(me) && w.state.operation.value.write == RestoreWrite
  }

  ghost predicate OwnDrain(me: Identity, s: State) {
    s.phase == DRAINING && s.operation.Some? && s.operation.value.coordinator == me
  }

  ghost predicate GcGone(s: State, ev: Evidence) {
    s.gcHolder.Some? ==> s.gcHolder.value.identity in ev.terminal
  }

  /** What a coordinator at `c` knows. */
  ghost predicate CoordFacts(w: World, me: Identity, p: Proc, c: CoordPc) {
    var s := p.copy;
    && (c.CoordRead? || c.CoordCheck? || c.CoordBaseline? ==> ScheduledSlot(p.slot))
    && (c.CoordBaseline? ==>
          && Closed(s.phase)
          && (s.operation.Some? ==> s.operation.value.slot < p.slot && s.operation.value.holder.Some?
                                    && s.operation.value.holder.value in p.ev.terminal))
    && (c.CoordDrainObserve? || c.CoordGcCheck? || c.CoordRunner? || c.CoordSelect? ==> OwnDrain(me, s))
    && (c.CoordRunner? || c.CoordSelect? ==> GcGone(s, p.ev))
    && (c.CoordPut? ==>
          OwnsPause(w, me) && p.copy.operation.Some? && p.copy.operation.value.id == w.state.operation.value.id)
    && (c.CoordConfirm? || c.CoordPauseRead? || c.CoordPauseSave? ==>
          OwnsPause(w, me) && Acked(w, w.state.operation.value.id, PausePut, me) && w.paused && Quiet(w))
    && (c.CoordUnknown? || c.CoordUnknownSave? ==>
          OwnsPause(w, me) && Issued(w, w.state.operation.value.id, PausePut, me))
  }

  /** What a recovery pass at `r` knows. */
  ghost predicate RecFacts(w: World, me: Identity, p: Proc, r: RecPc) {
    var s := p.copy;
    && (r.RecProbe? || r.RecBeat? ==> s.phase != ALERT)
    && (r.RecGcObserve? || r.RecGcJudge? ==> s.gcHolder.Some?)
    && (r.RecObserve? || r.RecJudge? ==> s.operation.Some? && !Closed(s.phase))
    && (r.RecPut? || r.RecConfirm? ==> s.operation.Some? && !s.operation.value.baseline)
    && (r.RecPut? ==> OwnsRestore(w, me) && s.operation.value.id == w.state.operation.value.id)
    && (r.RecConfirm? || r.RecDone? || r.RecDoneSave? ==>
          OwnsRestore(w, me) && Acked(w, w.state.operation.value.id, RestorePut, me) && !w.paused && Quiet(w))
    && (r.RecUnknown? || r.RecUnknownSave? ==>
          OwnsRestore(w, me) && Issued(w, w.state.operation.value.id, RestorePut, me))
  }

  /** What a save of `s` by `me` records about itself. */
  ghost predicate SavedFacts(me: Identity, m: Move, s: State) {
    && (m.DoBegin? ==> s.operation.Some? && s.operation.value.coordinator == me && s.operation.value.write == PauseWrite)
    && (m.DoRestore? ==>
          && s.operation.Some? && s.operation.value.holder == Some(me) && s.operation.value.write == RestoreWrite
          && !s.operation.value.baseline)
    && (m.DoGcClaim? ==> s.gcHolder.Some? && s.gcHolder.value.identity == me)
  }

  ghost predicate Facts(w: World, me: Identity, p: Proc) {
    match p.pc
    case Stopped => true
    case Saving(m) => SavedFacts(me, m, p.copy)
    case ReadingBack(m) => SavedFacts(me, m, p.copy)
    case C(c) => CoordFacts(w, me, p, c)
    case R(r) => RecFacts(w, me, p, r)
    case K(k) => k.Working? ==> p.opId.Some? && ClaimRecord(p.opId.value, me) in w.claims
    case G(g) => g.GcHolding? ==> me in w.gcClaims
  }

  ghost predicate CopyOk(w: World, p: Proc) {
    Coherent(p.copy) && NewClaims(p.copy) <= w.claims && (p.ver == w.version ==> p.copy == w.state)
  }

  ghost predicate SaveOk(w: World, me: Identity, p: Proc, m: Move) {
    Coherent(p.copy) && (p.ver == w.version ==> Legal(w, me, m, p.copy))
  }

  ghost predicate ProcOk(w: World, me: Identity, p: Proc) {
    && ValidIdentity(me) && me.namespace == HomeOf(p.kind) && Belongs(p.kind, p.pc)
    && (p.pc != Stopped ==> me !in w.retired)
    && p.ev.terminal <= w.retired && p.ver <= w.version
    && (Loaded(p.pc) ==> CopyOk(w, p))
    && (p.pc.Saving? ==> SaveOk(w, me, p, p.pc.move))
    && (PrePut(p.pc) ==> NoPutBy(w, me))
    && Facts(w, me, p)
  }

  ghost predicate CoreOk(w: World) {
    && Coherent(w.state) && w.now >= 0
    && RunnerOk(w) && OwnersOk(w) && PutsOk(w.puts) && HistoryOk(w)
  }

  ghost predicate Inv(w: World) {
    && CoreOk(w)
    && (forall i :: i in w.procs ==> ProcOk(w, i, w.procs[i]))
    && (forall x :: x in w.late ==> LateOk(w, x))
    && (forall q :: q in w.puts ==> q.author in w.procs)
  }

  // ------------------------------------------------------- steps of a single process

  lemma InitialInv(w: World)
    requires Initial(w)
    ensures Inv(w)
  {
  }

  /** A step that changes only one process keeps the invariant if the process is ok. */
  lemma OneProcess(w: World, me: Identity, p: Proc)
    requires Inv(w) && ProcOk(w, me, p)
    requires me in w.procs && w.procs[me].pc == Stopped ==> p.pc == Stopped
    ensures Inv(With(w, me, p))
  {
    hide Coherent; hide RunnerOk; hide OwnersOk; hide PutsOk; hide HistoryOk; hide ProcOk; hide Legal; hide ValidIdentity;
    var v := With(w, me, p);
    assert CoreOk(v) by { SameCore(w, v); }
    forall i | i in v.procs ensures ProcOk(v, i, v.procs[i]) {
      assert ProcOk(w, i, v.procs[i]);
      SameShared(w, v, i, v.procs[i]);
    }
    forall x | x in v.late ensures LateOk(v, x) {
      assert LateOk(w, x);
      SameLegal(w, v, x.author, x.move, x.next);
    }
  }

  lemma SameCore(w: World, v: World)
    requires v == w.(procs := v.procs, late := v.late) && CoreOk(w)
    ensures CoreOk(v)
  {
    hide Coherent; hide PutsOk;
  }

  lemma SameLegal(w: World, v: World, me: Identity, m: Move, t: State)
    requires v == w.(procs := v.procs, late := v.late)
    ensures Legal(w, me, m, t) == Legal(v, me, m, t)
  {
    hide Builds;
  }

  /** Process facts do not depend on the process table. */
  lemma SameShared(w: World, v: World, i: Identity, p: Proc)
    requires v == w.(procs := v.procs, late := v.late) && ProcOk(w, i, p)
    ensures ProcOk(v, i, p)
  {
    hide Coherent; hide Builds; hide ValidIdentity; hide Belongs; hide NewClaims; hide SavedFacts;
  }

  lemma StoppingOk(w: World, me: Identity)
    requires Inv(w) && me in w.procs
    ensures ProcOk(w, me, w.procs[me].(pc := Stopped))
  {
    hide CoreOk; hide Coherent; hide LateOk; hide CopyOk; hide SaveOk; hide Facts; hide ValidIdentity;
    assert ProcOk(w, me, w.procs[me]);
    assert Facts(w, me, w.procs[me].(pc := Stopped)) by { NoFactsWhenStopped(w, me, w.procs[me].(pc := Stopped)); }
  }

  lemma NoFactsWhenStopped(w: World, me: Identity, p: Proc)
    requires p.pc == Stopped
    ensures Facts(w, me, p)
  {
  }

  /** Moving to another program point with the same copy. */
  lemma GoOk(w: World, me: Identity, p: Proc, pc: Pc)
    requires ProcOk(w, me, p) && p.pc != Stopped && Belongs(p.kind, pc) && !pc.Saving?
    requires Loaded(pc) ==> Loaded(p.pc)
    requires PrePut(pc) ==> PrePut(p.pc)
    requires Facts(w, me, p.(pc := pc))
    ensures ProcOk(w, me, p.(pc := pc))
  {
    hide Coherent; hide Facts; hide PrePut; hide Loaded; hide NewClaims; hide ValidIdentity; hide Belongs;
  }

  /** Building a save from a loaded copy. */
  lemma SavesOk(w: World, me: Identity, p: Proc, m: Move, t: State)
    requires ProcOk(w, me, p) && p.pc != Stopped && Loaded(p.pc) && p.kind == KindOfMove(m)
    requires Builds(m, me, p.copy, t) && SavedFacts(me, m, t)
    requires PrePutMove(m) ==> PrePut(p.pc)
    requires p.ver == w.version ==> Legal(w, me, m, t)
    ensures ProcOk(w, me, Saves(p, m, t))
  {
    hide Coherent; hide PrePutMove; hide NewClaims; hide ValidIdentity; hide Builds; hide Legal;
    hide SavedFacts; hide CoordFacts; hide RecFacts;
    BuildsKeepsCoherent(m, me, p.copy, t);
  }

  lemma UnknownPauseOk(w: World, me: Identity, p: Proc)
    requires CoreOk(w) && ProcOk(w, me, p) && p.pc == C(CoordUnknownSave) && p.copy.operation.Some?
    ensures ProcOk(w, me, Saves(p, DoUnknownPause, LatchUnknown(p.copy, UnknownPauseWrite)))
  {
    hide RunnerOk; hide OwnersOk; hide PutsOk; hide HistoryOk; hide NewClaims; hide ValidIdentity;
  }

  lemma CoordinatorNextOk(w: World, me: Identity, p: Proc, c: CoordPc)
    requires CoreOk(w) && ProcOk(w, me, p) && p.pc == C(c) && Decides(p.pc)
    ensures ProcOk(w, me, CoordinatorNext(me, p, c, w.now))
  {
    hide RunnerOk; hide OwnersOk; hide PutsOk; hide HistoryOk; hide Coherent; hide NewClaims; hide ValidIdentity;
    hide Quiet; hide Acked; hide Issued; hide NoPutBy;
    var n := CoordinatorNext(me, p, c, w.now);
    if c == CoordUnknownSave {
      if n.pc.Saving? { UnknownPauseOk(w, me, p); } else { GoOk(w, me, p, Stopped); }
    } else if n.pc.Saving? {
      SavesOk(w, me, p, n.pc.move, n.copy);
    } else {
      GoOk(w, me, p, n.pc);
    }
  }

  lemma UnknownRestoreOk(w: World, me: Identity, p: Proc)
    requires CoreOk(w) && ProcOk(w, me, p) && p.pc == R(RecUnknownSave) && p.copy.operation.Some?
    ensures ProcOk(w, me, Saves(p, DoUnknownRestore, LatchUnknown(p.copy, UnknownRestoreWrite)))
  {
    hide RunnerOk; hide OwnersOk; hide PutsOk; hide HistoryOk; hide NewClaims; hide ValidIdentity;
  }

  lemma JudgeOk(w: World, me: Identity, p: Proc)
    requires CoreOk(w) && ProcOk(w, me, p) && p.pc == R(RecJudge)
    ensures ProcOk(w, me, RecoveryNext(me, p, RecJudge, w.now))
  {
    hide RunnerOk; hide OwnersOk; hide PutsOk; hide HistoryOk; hide Coherent; hide NewClaims; hide ValidIdentity;
    hide NoPutBy; hide RaiseAlert;
    var n := RecoveryNext(me, p, RecJudge, w.now);
    if n.pc.Saving? { SavesOk(w, me, p, n.pc.move, n.copy); } else { GoOk(w, me, p, n.pc); }
  }

  lemma ConcludeOk(w: World, me: Identity, p: Proc)
    requires CoreOk(w) && ProcOk(w, me, p) && p.pc == R(RecRetire)
    ensures ProcOk(w, me, RecoveryNext(me, p, RecRetire, w.now))
  {
    hide RunnerOk; hide OwnersOk; hide PutsOk; hide HistoryOk; hide NewClaims; hide ValidIdentity;
    hide NoPutBy; hide RaiseAlert; hide RestoredOutcome;
    var n := RecoveryNext(me, p, RecRetire, w.now);
    if n.pc.Saving? { SavesOk(w, me, p, n.pc.move, n.copy); } else { GoOk(w, me, p, n.pc); }
  }

  lemma GcJudgeOk(w: World, me: Identity, p: Proc)
    requires CoreOk(w) && ProcOk(w, me, p) && p.pc == R(RecGcJudge)
    ensures ProcOk(w, me, RecoveryNext(me, p, RecGcJudge, w.now))
  {
    hide RunnerOk; hide OwnersOk; hide PutsOk; hide HistoryOk; hide Coherent; hide NewClaims; hide ValidIdentity;
    hide NoPutBy; hide RaiseAlert;
    var n := RecoveryNext(me, p, RecGcJudge, w.now);
    if n.pc.Saving? { SavesOk(w, me, p, n.pc.move, n.copy); } else { GoOk(w, me, p, n.pc); }
  }

  lemma DoneSaveOk(w: World, me: Identity, p: Proc)
    requires CoreOk(w) && ProcOk(w, me, p) && p.pc == R(RecDoneSave)
    ensures ProcOk(w, me, RecoveryNext(me, p, RecDoneSave, w.now))
  {
    hide RunnerOk; hide OwnersOk; hide PutsOk; hide HistoryOk; hide Coherent; hide NewClaims; hide ValidIdentity;
    hide NoPutBy; hide Acked; hide Issued; hide Quiet;
    var n := RecoveryNext(me, p, RecDoneSave, w.now);
    if n.pc.Saving? { SavesOk(w, me, p, n.pc.move, n.copy); } else { GoOk(w, me, p, n.pc); }
  }

  lemma RecoveryNextOk(w: World, me: Identity, p: Proc, r: RecPc)
    requires CoreOk(w) && ProcOk(w, me, p) && p.pc == R(r) && Decides(p.pc)
    ensures ProcOk(w, me, RecoveryNext(me, p, r, w.now))
  {
    hide RunnerOk; hide OwnersOk; hide PutsOk; hide HistoryOk; hide Coherent; hide NewClaims; hide ValidIdentity;
    hide Quiet; hide Acked; hide Issued; hide NoPutBy;
    var n := RecoveryNext(me, p, r, w.now);
    if r == RecUnknownSave {
      if n.pc.Saving? { UnknownRestoreOk(w, me, p); } else { GoOk(w, me, p, Stopped); }
    } else if r == RecJudge {
      JudgeOk(w, me, p);
    } else if r == RecGcJudge {
      GcJudgeOk(w, me, p);
    } else if r == RecDoneSave {
      DoneSaveOk(w, me, p);
    } else if r == RecRetire {
      ConcludeOk(w, me, p);
    } else if n.pc.Saving? {
      SavesOk(w, me, p, n.pc.move, n.copy);
    } else {
      GoOk(w, me, p, n.pc);
    }
  }

  lemma WorkerNextOk(w: World, me: Identity, p: Proc, k: WorkPc)
    requires CoreOk(w) && ProcOk(w, me, p) && p.pc == K(k) && Decides(p.pc)
    ensures ProcOk(w, me, WorkerNext(me, p, k, w.now))
  {
    hide RunnerOk; hide OwnersOk; hide PutsOk; hide HistoryOk; hide Coherent; hide ValidIdentity;
    var n := WorkerNext(me, p, k, w.now);
    if n.pc.Saving? { SavesOk(w, me, p, n.pc.move, n.copy); } else { GoOk(w, me, p, n.pc); }
  }

  lemma CollectorNextOk(w: World, me: Identity, p: Proc, g: GcPc)
    requires CoreOk(w) && ProcOk(w, me, p) && p.pc == G(g) && Decides(p.pc)
    ensures ProcOk(w, me, CollectorNext(me, p, g, w.now))
  {
    hide RunnerOk; hide OwnersOk; hide PutsOk; hide HistoryOk; hide Coherent; hide ValidIdentity;
    var n := CollectorNext(me, p, g, w.now);
    if n.pc.Saving? { SavesOk(w, me, p, n.pc.move, n.copy); } else { GoOk(w, me, p, n.pc); }
  }
}
