/** What must have happened before: every change of the stored state, every admission, every claim
    and every stretch of work traced back to the steps that led to it, in every execution. */
module AdmissionHistory {
  import opened Pods
  import opened AdmissionState
  import opened AdmissionProtocol
  import opened AdmissionInvariant
  import opened AdmissionSteps
  import opened AdmissionTheorems
  import opened AdmissionOrigins

  // ------------------------------------------------------- how a process came to where it stands

  /** Process `a` went from `from` to where `q` stands and took nothing else with it. */
  ghost predicate Went(a: Identity, w: World, from: Pc, q: Proc) {
    a in w.procs && w.procs[a].pc == from && q == w.procs[a].(pc := q.pc)
  }

  /** Its save was acknowledged and the store read back as saved. */
  ghost predicate Confirmed(a: Identity, w: World, l: Label, m: Move, q: Proc) {
    l == ReadBack(a) && Went(a, w, ReadingBack(m), q) && w.state == q.copy
  }

  /** It read the stored state, whole. */
  ghost predicate Fetched(a: Identity, w: World, l: Label, from: Pc, q: Proc) {
    && l == Read(a) && a in w.procs && w.procs[a].pc == from
    && q == w.procs[a].(pc := q.pc, ver := w.version, copy := w.state)
  }

  ghost predicate Decided(a: Identity, w: World, l: Label, from: Pc, q: Proc) {
    l == Decide(a) && Went(a, w, from, q)
  }

  /** The step that brought a coordinator to `at`, and what held then. */
  ghost predicate CoordArrived(a: Identity, w: World, l: Label, q: Proc, at: CoordPc) {
    var s := q.copy;
    match at
    case CoordObserve => l == Spawn(a, Coordinator)
    case CoordRead =>
      && l.Schedule? && l.me == a && l.slot == q.slot && q.slot % 3600 == 2820 && 0 <= w.now - q.slot <= 90
      && q.ev == EvidenceOf(l.pods)
    case CoordCheck => Fetched(a, w, l, C(CoordRead), q)
    case CoordBaseline =>
      && Decided(a, w, l, C(CoordCheck), q) && (s.phase == IDLE || s.phase == DONE)
      && 0 <= w.now - s.heartbeat <= 150 && w.now + 2700 < 1825372800
      && (s.operation.Some? ==> s.operation.value.slot < q.slot && s.operation.value.holder.Some?
                                && s.operation.value.holder.value in q.ev.terminal)
    case CoordPut => Confirmed(a, w, l, DoBegin, q)
    case CoordConfirm => l == PutRunner(a, true) && Went(a, w, C(CoordPut), q)
    case CoordPauseRead => l == Probe(a, true) && w.paused && Went(a, w, C(CoordConfirm), q)
    case CoordUnknown =>
      || (l == PutRunner(a, false) && Went(a, w, C(CoordPut), q))
      || (l.Probe? && l.me == a && !(l.ok && w.paused) && Went(a, w, C(CoordConfirm), q))
    case CoordUnknownSave => Fetched(a, w, l, C(CoordUnknown), q)
    case CoordPauseSave => Fetched(a, w, l, C(CoordPauseRead), q)
    case CoordLoop =>
      || Confirmed(a, w, l, DoDrain, q)
      || (Decided(a, w, l, C(CoordGcCheck), q) && s.gcHolder.Some? && s.gcHolder.value.identity !in q.ev.terminal)
      || (l == Probe(a, true) && !w.paused && Went(a, w, C(CoordRunner), q))
      || (l.Select? && l.me == a && (!l.quiet || !q.ev.idle || l.workers == []) && Went(a, w, C(CoordSelect), q))
    case CoordDrainRead => Decided(a, w, l, C(CoordLoop), q) && w.now < q.slot + 1200
    case CoordTimeoutRead => Decided(a, w, l, C(CoordLoop), q) && w.now >= q.slot + 1200
    case CoordDrainCheck => Fetched(a, w, l, C(CoordDrainRead), q)
    case CoordTimeoutSave => Fetched(a, w, l, C(CoordTimeoutRead), q)
    case CoordDrainObserve =>
      && Decided(a, w, l, C(CoordDrainCheck), q) && s.phase == DRAINING
      && s.operation.Some? && s.operation.value.coordinator == a
    case CoordGcCheck =>
      && l.Observe? && l.me == a && a in w.procs && w.procs[a].pc == C(CoordDrainObserve)
      && q == w.procs[a].(pc := q.pc, ev := EvidenceOf(l.pods))
    case CoordRunner =>
      Decided(a, w, l, C(CoordGcCheck), q) && (s.gcHolder.None? || s.gcHolder.value.identity in q.ev.terminal)
    case CoordSelect => l == Probe(a, true) && w.paused && Went(a, w, C(CoordRunner), q)
  }

  /** The step that brought a worker to `at`, and what held then. */
  ghost predicate WorkArrived(a: Identity, w: World, l: Label, q: Proc, at: WorkPc) {
    var s := q.copy;
    match at
    case WorkLoop =>
      || (l == Spawn(a, Worker) && q.slot == w.now + 1200)
      || (Decided(a, w, l, K(WorkJudge), q)
          && if s.operation.Some? && s.operation.value.worker == Some(a)
             then (s.phase == PAUSE_INTENT || s.phase == DRAINING) && w.now < s.operation.value.cleanupBy
             else s.phase !in {ALERT, CLOSING, RESTORING})
    case WorkRead => Decided(a, w, l, K(WorkLoop), q) && w.now < q.slot
    case WorkJudge => Fetched(a, w, l, K(WorkRead), q)
    case WorkCheck =>
      || (l == ReadBack(a) && a in w.procs && w.procs[a].pc == ReadingBack(DoClaim) && w.state == q.copy
          && q == w.procs[a].(pc := q.pc, opId := q.opId) && q.opId == if s.operation.Some? then Some(s.operation.value.id) else None)
      || (l == Recheck(a) && Went(a, w, K(Working), q))
    case WorkCheckJudge => Fetched(a, w, l, K(WorkCheck), q)
    case Working =>
      && Decided(a, w, l, K(WorkCheckJudge), q) && s.phase == CLAIMED && s.operation.Some?
      && Some(s.operation.value.id) == q.opId && s.operation.value.worker == Some(a) && s.operation.value.claimed
      && s.operation.value.write == NoWrite && w.now < s.operation.value.cleanupBy
  }

  /** The step that brought `a` to where `q` stands, and what held then. Recovery passes and
      collectors apart, whose courses are functions of what they see. */
  ghost predicate Arrived(a: Identity, w: World, l: Label, q: Proc) {
    match q.pc
    case Saving(m) => a in w.procs && q == w.procs[a].(pc := q.pc, copy := q.copy) && Written(m, a, w, l, q.copy)
    case C(c) => CoordArrived(a, w, l, q, c)
    case K(k) => WorkArrived(a, w, l, q, k)
    case _ => true
  }

  /** The process table changed at `a`. */
  ghost predicate Moved(w: World, l: Label, a: Identity)
    requires Enabled(w, l)
  {
    var v := Apply(w, l);
    a in v.procs && !(a in w.procs && w.procs[a] == v.procs[a])
  }

  lemma DecisionArrives(w: World, a: Identity)
    requires Enabled(w, Decide(a))
    ensures var q := Next(a, w.procs[a], w.now); !q.pc.Saving? ==> Arrived(a, w, Decide(a), q)
  {
    hide MustWait; hide OwnersRetired; hide RestoredOutcome; hide EvidenceOf;
  }

  lemma ProbeArrives(w: World, a: Identity, ok: bool)
    requires Enabled(w, Probe(a, ok))
    ensures var q := AfterProbe(a, w.procs[a], w.paused, ok, w.now); !q.pc.Saving? ==> Arrived(a, w, Probe(a, ok), q)
  {
  }

  lemma SelectArrives(w: World, a: Identity, quiet: bool, workers: seq<Identity>)
    requires Enabled(w, Select(a, quiet, workers))
    ensures var q := AfterSelect(w.procs[a], quiet, workers); !q.pc.Saving? ==> Arrived(a, w, Select(a, quiet, workers), q)
  {
  }

  lemma ReadBackArrives(w: World, a: Identity)
    requires Enabled(w, ReadBack(a)) && w.state == w.procs[a].copy
    ensures Arrived(a, w, ReadBack(a), AfterSave(w.procs[a], w.procs[a].pc.move))
  {
  }

  lemma PutArrives(w: World, a: Identity, ok: bool)
    requires Enabled(w, PutRunner(a, ok))
    ensures Arrived(a, w, PutRunner(a, ok), Apply(w, PutRunner(a, ok)).procs[a])
  {
  }

  lemma OthersArrive(w: World, l: Label, a: Identity)
    requires Enabled(w, l) && Moved(w, l, a)
    requires !((l.Decide? || l.Probe? || l.Select? || l.ReadBack? || l.PutRunner?) && l.me == a)
    ensures Arrived(a, w, l, Apply(w, l).procs[a])
  {
    hide EvidenceOf; hide Next; hide AfterProbe; hide AfterSelect; hide AfterSave; hide Valid; hide ValidIdentity; hide Written;
    hide NewClaims; hide NewGcClaims;
  }

  /** Every step of a process is one of these. */
  lemma StepArrives(w: World, l: Label, a: Identity)
    requires Enabled(w, l) && Moved(w, l, a)
    ensures Arrived(a, w, l, Apply(w, l).procs[a])
  {
    var q := Apply(w, l).procs[a];
    if q.pc.Saving? {
      SavingArrives(w, l, a);
    } else {
      hide Arrived; hide Next; hide AfterProbe; hide AfterSelect; hide AfterSave; hide EvidenceOf; hide Valid; hide ValidIdentity; hide PutStep;
      hide NewClaims; hide NewGcClaims; hide Moved;
      if l.Decide? && l.me == a { DecisionArrives(w, a); }
      else if l.Probe? && l.me == a { ProbeArrives(w, a, l.ok); }
      else if l.Select? && l.me == a { SelectArrives(w, a, l.quiet, l.workers); }
      else if l.ReadBack? && l.me == a { BackArrives(w, a); }
      else if l.PutRunner? && l.me == a { PutArrives(w, a, l.ok); }
      else { OthersArrive(w, l, a); }
    }
  }

  lemma BackArrives(w: World, a: Identity)
    requires Enabled(w, ReadBack(a))
    ensures Arrived(a, w, ReadBack(a), Apply(w, ReadBack(a)).procs[a])
  {
    hide AfterSave; hide Written; hide CoordArrived; hide WorkArrived;
    if w.state == w.procs[a].copy { ReadBackArrives(w, a); }
  }

  lemma SavingArrives(w: World, l: Label, a: Identity)
    requires Enabled(w, l) && Moved(w, l, a) && Apply(w, l).procs[a].pc.Saving?
    ensures Arrived(a, w, l, Apply(w, l).procs[a])
  {
    hide Written; hide EvidenceOf; hide Valid; hide ValidIdentity; hide NewClaims; hide NewGcClaims;
    var q := Apply(w, l).procs[a];
    NotBornSaving(w, l, a);
    PreparedIff(w, l, a, q.pc.move, q.copy);
  }

  lemma OnlyPcAndCopy(p: Proc, a: Identity, now: int)
    ensures var q := Next(a, p, now); q == p.(pc := q.pc, copy := q.copy)
  {
    hide MustWait; hide OwnersRetired; hide RestoredOutcome; hide FenceHolds;
  }

  lemma AfterProbeOnly(p: Proc, a: Identity, paused: bool, ok: bool, now: int)
    ensures var q := AfterProbe(a, p, paused, ok, now); q == p.(pc := q.pc, copy := q.copy)
  {
  }

  lemma NotBornSaving(w: World, l: Label, a: Identity)
    requires Enabled(w, l) && Moved(w, l, a) && Apply(w, l).procs[a].pc.Saving?
    ensures a in w.procs && !w.procs[a].pc.Saving?
    ensures Apply(w, l).procs[a] == w.procs[a].(pc := Apply(w, l).procs[a].pc, copy := Apply(w, l).procs[a].copy)
  {
    if l.Decide? { OnlyPcAndCopy(w.procs[l.me], l.me, w.now); }
    if l.Probe? { AfterProbeOnly(w.procs[l.me], l.me, w.paused, l.ok, w.now); }
    hide EvidenceOf; hide Next; hide AfterProbe; hide Valid; hide ValidIdentity; hide NewClaims; hide NewGcClaims;
  }

  // --------------------------------------------------------------------------- tracing back

  /** The step by which process `a` came to be as it is. */
  lemma {:induction false} Arrival(ws: seq<World>, ls: seq<Label>, k: nat, a: Identity) returns (i: nat)
    requires IsExecution(ws, ls) && k < |ws| && a in ws[k].procs
    ensures i < k && Enabled(ws[i], ls[i]) && ws[i + 1] == Apply(ws[i], ls[i])
    ensures a in ws[i + 1].procs && ws[i + 1].procs[a] == ws[k].procs[a]
    ensures Arrived(a, ws[i], ls[i], ws[k].procs[a])
    decreases k
  {
    hide Enabled; hide Apply; hide Arrived;
    if a in ws[k - 1].procs && ws[k - 1].procs[a] == ws[k].procs[a] {
      i := Arrival(ws, ls, k - 1, a);
    } else {
      i := k - 1;
      StepArrives(ws[i], ls[i], a);
    }
  }

  /** The stored state changes only with its version. */
  lemma {:induction false} SameVersionSameState(ws: seq<World>, ls: seq<Label>, i: nat, j: nat)
    requires IsRun(ws, ls) && i <= j < |ws|
    ensures ws[i].version <= ws[j].version && (ws[i].version == ws[j].version ==> ws[i].state == ws[j].state)
    decreases j
  {
    hide Enabled; hide Apply;
    if i < j {
      SameVersionSameState(ws, ls, i, j - 1);
      StepVersion(ws[j - 1], ls[j - 1]);
    }
  }

  lemma StepVersion(w: World, l: Label)
    requires Enabled(w, l)
    ensures var v := Apply(w, l); (v.version == w.version && v.state == w.state) || v.version == w.version + 1
  {
    hide EvidenceOf; hide Next; hide AfterProbe; hide AfterSelect; hide AfterSave; hide Valid; hide NewClaims; hide NewGcClaims;
  }

  /** A save that ended in an error was under way when it did. */
  lemma {:induction false} LateOrigin(ws: seq<World>, ls: seq<Label>, k: nat, x: Write) returns (j: nat)
    requires IsExecution(ws, ls) && k < |ws| && x in ws[k].late
    ensures j < k && x.author in ws[j].procs
    ensures var p := ws[j].procs[x.author]; p.pc == Saving(x.move) && p.copy == x.next && p.ver == x.ver
    decreases k
  {
    hide Enabled; hide Apply;
    if x in ws[k - 1].late {
      j := LateOrigin(ws, ls, k - 1, x);
    } else {
      j := k - 1;
      NewLate(ws[j], ls[j], x);
    }
  }

  lemma NewLate(w: World, l: Label, x: Write)
    requires Enabled(w, l) && x !in w.late && x in Apply(w, l).late
    ensures x.author in w.procs && w.procs[x.author].pc == Saving(x.move) && w.procs[x.author].copy == x.next && w.procs[x.author].ver == x.ver
  {
    hide EvidenceOf; hide Next; hide AfterProbe; hide AfterSelect; hide AfterSave; hide Valid; hide NewClaims; hide NewGcClaims;
  }

  /** Who commits at a step that changes the version, with what. */
  lemma Committer(w: World, l: Label) returns (m: Move, a: Identity, late: bool)
    requires Enabled(w, l) && Apply(w, l).version != w.version
    ensures late ==> Write(w.version, Apply(w, l).state, a, m) in w.late
    ensures !late ==> a in w.procs && w.procs[a].pc == Saving(m) && w.procs[a].copy == Apply(w, l).state && w.procs[a].ver == w.version
  {
    hide EvidenceOf; hide Next; hide AfterProbe; hide AfterSelect; hide AfterSave; hide Valid; hide NewClaims; hide NewGcClaims;
    m, a, late := DoSeal, Identity(CI, "", "", "", ""), false;
    match l {
      case Save(me) => m, a := w.procs[me].pc.move, me;
      case LateCommit(x) =>
        m, a, late := x.move, x.author, true;
        assert x == Write(w.version, x.next, a, m);
      case _ =>
    }
  }

  /** Every change of the stored state, even one that commits after its caller saw an error, was
      prepared at some step before, by one process, under exactly the conditions `Written` gives,
      from the very state it replaces. */
  lemma EveryChangeIsDue(ws: seq<World>, ls: seq<Label>, k: nat) returns (i: nat, m: Move, a: Identity)
    requires IsExecution(ws, ls) && k < |ls| && ws[k + 1].version != ws[k].version
    ensures i < k && Written(m, a, ws[i], ls[i], ws[k + 1].state)
    ensures ws[i].state == ws[k].state && ws[i].procs[a].copy == ws[k].state
  {
    hide Enabled; hide Apply; hide Written; hide Inv; hide Arrived; hide Initial;
    var late;
    m, a, late := Committer(ws[k], ls[k]);
    var j := k;
    if late { j := LateOrigin(ws, ls, k, Write(ws[k].version, ws[k + 1].state, a, m)); }
    i := Arrival(ws, ls, j, a);
    SavedWritten(a, ws[i], ls[i], ws[j].procs[a]);
    ExecutionInv(ws, ls, i);
    SameVersionSameState(ws, ls, i, k);
    LoadedWriter(ws[i], ls[i], m, a, ws[k + 1].state);
  }

  lemma SavedWritten(a: Identity, w: World, l: Label, q: Proc)
    requires Arrived(a, w, l, q) && q.pc.Saving?
    ensures a in w.procs && Written(q.pc.move, a, w, l, q.copy) && w.procs[a].ver == q.ver && w.procs[a].slot == q.slot && w.procs[a].ev == q.ev
  {
    hide Written;
  }

  lemma LoadedWriter(w: World, l: Label, m: Move, a: Identity, t: State)
    requires Inv(w) && Written(m, a, w, l, t)
    ensures a in w.procs && w.procs[a].ver <= w.version && (w.procs[a].ver == w.version ==> w.procs[a].copy == w.state)
  {
    hide CoreOk; hide LateOk; hide Coherent; hide ValidIdentity; hide Facts; hide TimeLeft; hide OwnerLeft; hide RecordedAs; hide NewClaims;
    assert ProcOk(w, a, w.procs[a]);
  }

  // ------------------------------------------------------------------ the start of an operation

  /** Only admission names a worker, and only a new operation has another coordinator or slot. */
  lemma KeepsOperation(m: Move, a: Identity, w: World, l: Label, t: State)
    requires Written(m, a, w, l, t) && !m.DoBegin? && t.operation.Some?
    ensures var s := w.procs[a].copy;
            && s.operation.Some?
            && var p, q := s.operation.value, t.operation.value;
               && q.id == p.id && q.slot == p.slot && q.coordinator == p.coordinator
               && (!m.DoAdmit? ==> q.worker == p.worker)
  {
    hide TimeLeft; hide OwnerLeft; hide RecordedAs;
  }

  /** A process is scheduled once. */
  lemma {:induction false} SlotIsFixed(ws: seq<World>, ls: seq<Label>, i: nat, j: nat, a: Identity)
    requires IsRun(ws, ls) && i <= j < |ws| && a in ws[i].procs && ws[i].procs[a].pc != C(CoordObserve)
    ensures a in ws[j].procs && ws[j].procs[a].pc != C(CoordObserve) && ws[j].procs[a].slot == ws[i].procs[a].slot
    decreases j
  {
    hide Enabled; hide Apply;
    if i < j {
      SlotIsFixed(ws, ls, i, j - 1, a);
      StepKeepsSlot(ws[j - 1], ls[j - 1], a);
    }
  }

  lemma StepKeepsSlot(w: World, l: Label, a: Identity)
    requires Enabled(w, l) && a in w.procs && w.procs[a].pc != C(CoordObserve)
    ensures var v := Apply(w, l); a in v.procs && v.procs[a].pc != C(CoordObserve) && v.procs[a].slot == w.procs[a].slot
  {
    if l.Decide? { OnlyPcAndCopy(w.procs[l.me], l.me, w.now); NoDecisionUnschedules(w.procs[l.me], l.me, w.now); }
    hide EvidenceOf; hide Next; hide Valid; hide NewClaims; hide NewGcClaims;
  }

  lemma NoDecisionUnschedules(p: Proc, a: Identity, now: int)
    ensures Next(a, p, now).pc != C(CoordObserve)
  {
    hide MustWait; hide OwnersRetired; hide RestoredOutcome; hide FenceHolds;
  }

  /** The steps that led coordinator `a` to find the runner unpaused: its schedule `r`, and its
      check `c` of the state it read. */
  lemma BaselineTrail(ws: seq<World>, ls: seq<Label>, b: nat, a: Identity) returns (r: nat, c: nat)
    requires IsExecution(ws, ls) && b < |ws| && a in ws[b].procs && ws[b].procs[a].pc == C(CoordBaseline)
    ensures r < c < b && ScheduledAt(ws, ls, r, a, ws[b].procs[a].slot)
    ensures StartChecked(ws, ls, r, c, a, ws[b].procs[a].slot, ws[b].procs[a].copy)
  {
    hide Enabled; hide Apply; hide Initial; hide Arrived; hide EvidenceOf; hide ScheduledAt; hide StartChecked;
    c := Arrival(ws, ls, b, a);
    assert CoordArrived(a, ws[c], ls[c], ws[b].procs[a], CoordBaseline) by { ArrivedAt(a, ws[c], ls[c], ws[b].procs[a]); }
    var j := Arrival(ws, ls, c, a);
    assert CoordArrived(a, ws[j], ls[j], ws[c].procs[a], CoordCheck) by { ArrivedAt(a, ws[j], ls[j], ws[c].procs[a]); }
    r := Arrival(ws, ls, j, a);
    assert CoordArrived(a, ws[r], ls[r], ws[j].procs[a], CoordRead) by { ArrivedAt(a, ws[r], ls[r], ws[j].procs[a]); }
    BaselineFacts(ws, ls, r, j, c, b, a);
  }

  lemma ArrivedAt(a: Identity, w: World, l: Label, q: Proc)
    requires Arrived(a, w, l, q)
    ensures q.pc.C? ==> CoordArrived(a, w, l, q, q.pc.coord)
    ensures q.pc.K? ==> WorkArrived(a, w, l, q, q.pc.work)
  {
    hide CoordArrived; hide WorkArrived;
  }

  ghost predicate ScheduledAt(ws: seq<World>, ls: seq<Label>, r: nat, a: Identity, slot: int) {
    && r < |ls| && r < |ws| && ls[r].Schedule? && ls[r].me == a && ls[r].slot == slot
    && slot % 3600 == 2820 && 0 <= ws[r].now - slot <= 90
  }

  /** At `c` coordinator `a` found `s` closed, its heartbeat fresh, the token good for long
      enough, and the last operation's restoring Pod ended by the evidence of step `r`. */
  ghost predicate StartChecked(ws: seq<World>, ls: seq<Label>, r: nat, c: nat, a: Identity, slot: int, s: State) {
    && r < |ls| && c < |ls| && c < |ws| && ls[c] == Decide(a) && ls[r].Schedule?
    && (s.phase == IDLE || s.phase == DONE) && 0 <= ws[c].now - s.heartbeat <= 150 && ws[c].now + 2700 < 1825372800
    && (s.operation.Some? ==> s.operation.value.slot < slot && s.operation.value.holder.Some?
                              && s.operation.value.holder.value in EvidenceOf(ls[r].pods).terminal)
  }

  lemma BaselineFacts(ws: seq<World>, ls: seq<Label>, r: nat, j: nat, c: nat, b: nat, a: Identity)
    requires r < j < c < b < |ws| && c < |ls| && a in ws[b].procs && a in ws[c].procs && a in ws[j].procs
    requires CoordArrived(a, ws[c], ls[c], ws[b].procs[a], CoordBaseline)
    requires CoordArrived(a, ws[j], ls[j], ws[c].procs[a], CoordCheck)
    requires CoordArrived(a, ws[r], ls[r], ws[j].procs[a], CoordRead)
    ensures ScheduledAt(ws, ls, r, a, ws[b].procs[a].slot)
    ensures StartChecked(ws, ls, r, c, a, ws[b].procs[a].slot, ws[b].procs[a].copy)
  {
    hide EvidenceOf;
  }

  /** Every operation ever stored was begun by its coordinator: scheduled at its slot, within
      ninety seconds of it, from a state found closed with a fresh heartbeat and the last
      operation's restoring Pod ended, on a runner seen unpaused at step `b`. */
  lemma {:induction false} OperationBegins(ws: seq<World>, ls: seq<Label>, k: nat) returns (r: nat, c: nat, b: nat)
    requires IsExecution(ws, ls) && k < |ws| && ws[k].state.operation.Some?
    ensures var op := ws[k].state.operation.value;
            && r < c < b < k && ScheduledAt(ws, ls, r, op.coordinator, op.slot)
            && ls[b] == Probe(op.coordinator, true) && !ws[b].paused && StartChecked(ws, ls, r, c, op.coordinator, op.slot, ws[b].state)
            && BegunAt(ws[b], op)
    decreases k
  {
    hide Enabled; hide Apply; hide ScheduledAt; hide StartChecked; hide Written; hide EvidenceOf;
    if ws[k].version == ws[k - 1].version {
      SameVersionSameState(ws, ls, k - 1, k);
      r, c, b := OperationBegins(ws, ls, k - 1);
    } else {
      var i, m, a := EveryChangeIsDue(ws, ls, k - 1);
      if m.DoBegin? {
        b := i;
        BeginWritten(a, ws[b], ls[b], ws[k].state);
        r, c := BaselineTrail(ws, ls, b, a);
      } else {
        KeepsOperation(m, a, ws[i], ls[i], ws[k].state);
        r, c, b := OperationBegins(ws, ls, k - 1);
      }
    }
  }

  /** At `w` the operation's coordinator stood before its first probe, with the operation's slot. */
  ghost predicate BegunAt(w: World, op: Operation) {
    op.coordinator in w.procs && w.procs[op.coordinator].pc == C(CoordBaseline) && w.procs[op.coordinator].slot == op.slot
  }

  lemma BeginWritten(a: Identity, w: World, l: Label, t: State)
    requires Written(DoBegin, a, w, l, t)
    ensures l == Probe(a, true) && !w.paused && t.operation.Some? && t.operation.value.coordinator == a && t.operation.value.worker.None?
    ensures a in w.procs && t.operation.value.slot == w.procs[a].slot && w.procs[a].pc == C(CoordBaseline)
  {
  }

  // ----------------------------------------------------------------------- the drain before admission

  /** The last turn of coordinator `a`'s drain loop before it looks for a worker: begun at `d`,
      within twenty minutes of its slot, its Pods seen at `o` with any GC holder among the ended,
      the runner seen paused at `p`. */
  lemma DrainTrail(ws: seq<World>, ls: seq<Label>, i: nat, a: Identity) returns (d: nat, o: nat, p: nat)
    requires IsExecution(ws, ls) && i < |ws| && a in ws[i].procs && ws[i].procs[a].pc == C(CoordSelect)
    ensures d < o < p < i
    ensures ls[d] == Decide(a) && ws[d].now < ws[i].procs[a].slot + 1200
    ensures ls[o].Observe? && ls[o].me == a && ws[i].procs[a].ev == EvidenceOf(ls[o].pods)
    ensures var s := ws[i].procs[a].copy; s.gcHolder.Some? ==> s.gcHolder.value.identity in EvidenceOf(ls[o].pods).terminal
    ensures ls[p] == Probe(a, true) && ws[p].paused
  {
    hide Enabled; hide Apply; hide Initial; hide Arrived; hide EvidenceOf; hide CoordArrived;
    p := Arrival(ws, ls, i, a);
    ArrivedAt(a, ws[p], ls[p], ws[i].procs[a]);
    SelectFacts(a, ws[p], ls[p], ws[i].procs[a]);
    var g := Arrival(ws, ls, p, a);
    ArrivedAt(a, ws[g], ls[g], ws[p].procs[a]);
    RunnerFacts(a, ws[g], ls[g], ws[p].procs[a]);
    o := Arrival(ws, ls, g, a);
    ArrivedAt(a, ws[o], ls[o], ws[g].procs[a]);
    GcCheckFacts(a, ws[o], ls[o], ws[g].procs[a]);
    var h := Arrival(ws, ls, o, a);
    ArrivedAt(a, ws[h], ls[h], ws[o].procs[a]);
    DrainObserveFacts(a, ws[h], ls[h], ws[o].procs[a]);
    var e := Arrival(ws, ls, h, a);
    ArrivedAt(a, ws[e], ls[e], ws[h].procs[a]);
    DrainCheckFacts(a, ws[e], ls[e], ws[h].procs[a]);
    d := Arrival(ws, ls, e, a);
    ArrivedAt(a, ws[d], ls[d], ws[e].procs[a]);
    DrainReadFacts(a, ws[d], ls[d], ws[e].procs[a]);
  }

  lemma SelectFacts(a: Identity, w: World, l: Label, q: Proc)
    requires CoordArrived(a, w, l, q, CoordSelect)
    ensures l == Probe(a, true) && w.paused && Went(a, w, C(CoordRunner), q)
  {
  }

  lemma RunnerFacts(a: Identity, w: World, l: Label, q: Proc)
    requires CoordArrived(a, w, l, q, CoordRunner)
    ensures Went(a, w, C(CoordGcCheck), q) && (q.copy.gcHolder.Some? ==> q.copy.gcHolder.value.identity in q.ev.terminal)
  {
  }

  lemma GcCheckFacts(a: Identity, w: World, l: Label, q: Proc)
    requires CoordArrived(a, w, l, q, CoordGcCheck)
    ensures l.Observe? && l.me == a && q.ev == EvidenceOf(l.pods)
    ensures a in w.procs && w.procs[a].pc == C(CoordDrainObserve) && w.procs[a].copy == q.copy && w.procs[a].slot == q.slot
  {
    hide EvidenceOf;
  }

  lemma DrainObserveFacts(a: Identity, w: World, l: Label, q: Proc)
    requires CoordArrived(a, w, l, q, CoordDrainObserve)
    ensures Went(a, w, C(CoordDrainCheck), q)
  {
  }

  lemma DrainCheckFacts(a: Identity, w: World, l: Label, q: Proc)
    requires CoordArrived(a, w, l, q, CoordDrainCheck)
    ensures a in w.procs && w.procs[a].pc == C(CoordDrainRead) && w.procs[a].slot == q.slot
  {
  }

  lemma DrainReadFacts(a: Identity, w: World, l: Label, q: Proc)
    requires CoordArrived(a, w, l, q, CoordDrainRead)
    ensures l == Decide(a) && w.now < q.slot + 1200
  {
  }

  /** A coordinator gives up its drain only from twenty minutes after its slot on. */
  lemma TimeoutIsDue(ws: seq<World>, ls: seq<Label>, i: nat, a: Identity) returns (d: nat)
    requires IsExecution(ws, ls) && i < |ws| && a in ws[i].procs && ws[i].procs[a].pc == Saving(DoCloseDrain)
    ensures d < i && ls[d] == Decide(a) && ws[d].now >= ws[i].procs[a].slot + 1200
  {
    hide Enabled; hide Apply; hide Initial; hide Arrived; hide CoordArrived;
    var s := Arrival(ws, ls, i, a);
    SavedWritten(a, ws[s], ls[s], ws[i].procs[a]);
    var e := Arrival(ws, ls, s, a);
    ArrivedAt(a, ws[e], ls[e], ws[s].procs[a]);
    TimeoutSaveFacts(a, ws[e], ls[e], ws[s].procs[a]);
    d := Arrival(ws, ls, e, a);
    ArrivedAt(a, ws[d], ls[d], ws[e].procs[a]);
    TimeoutReadFacts(a, ws[d], ls[d], ws[e].procs[a]);
  }

  lemma TimeoutSaveFacts(a: Identity, w: World, l: Label, q: Proc)
    requires CoordArrived(a, w, l, q, CoordTimeoutSave)
    ensures a in w.procs && w.procs[a].pc == C(CoordTimeoutRead) && w.procs[a].slot == q.slot
  {
  }

  lemma TimeoutReadFacts(a: Identity, w: World, l: Label, q: Proc)
    requires CoordArrived(a, w, l, q, CoordTimeoutRead)
    ensures l == Decide(a) && w.now >= q.slot + 1200
  {
  }

  /** Where a coordinator looks for a worker its operation is draining on a paused runner. */
  lemma SelectingIsPaused(w: World, a: Identity)
    requires Inv(w) && a in w.procs && w.procs[a].pc == C(CoordSelect) && w.procs[a].copy == w.state
    ensures w.paused && Quiet(w) && w.state.phase == DRAINING && w.state.operation.Some? && w.state.operation.value.coordinator == a
    ensures w.state.gcHolder.Some? ==> w.state.gcHolder.value.identity in w.retired
  {
    hide HistoryOk; hide OwnersOk; hide PutsOk; hide LateOk; hide ValidIdentity;
    assert ProcOk(w, a, w.procs[a]);
  }

  /** Step `i` admitted `worker` to the operation of coordinator `a`: no accepted job was active,
      one worker Pod waited, the runner was paused with nothing in flight, the operation was
      draining, and any GC holder had ended. */
  ghost predicate AdmittedAt(ws: seq<World>, ls: seq<Label>, i: nat, id: OpId, a: Identity, worker: Identity) {
    && i < |ls| && i < |ws| && ls[i] == Select(a, true, [worker]) && ws[i].paused && Quiet(ws[i])
    && ws[i].state.phase == DRAINING && ws[i].state.operation.Some? && ws[i].state.operation.value.id == id
    && (ws[i].state.gcHolder.Some? ==> ws[i].state.gcHolder.value.identity in ws[i].retired)
    && a in ws[i].procs && ws[i].procs[a].pc == C(CoordSelect) && ws[i].procs[a].copy == ws[i].state && ws[i].procs[a].ev.idle
  }

  lemma AdmissionWritten(w: World, a: Identity, l: Label, t: State, i: nat, ws: seq<World>, ls: seq<Label>)
    requires Inv(w) && Written(DoAdmit, a, w, l, t) && w.procs[a].copy == w.state
    requires i < |ls| && i < |ws| && ws[i] == w && ls[i] == l
    ensures t.operation.Some? && t.operation.value.worker.Some?
    ensures AdmittedAt(ws, ls, i, t.operation.value.id, t.operation.value.coordinator, t.operation.value.worker.value)
  {
    hide Inv;
    SelectingIsPaused(w, a);
    assert l.workers == [l.workers[0]];
  }

  lemma {:induction false} AdmittingStep(ws: seq<World>, ls: seq<Label>, k: nat) returns (i: nat)
    requires IsExecution(ws, ls) && k < |ws| && ws[k].state.operation.Some? && ws[k].state.operation.value.worker.Some?
    ensures var op := ws[k].state.operation.value; i < k && AdmittedAt(ws, ls, i, op.id, op.coordinator, op.worker.value)
    decreases k
  {
    hide Enabled; hide Apply; hide AdmittedAt; hide Written; hide Inv;
    if ws[k].version == ws[k - 1].version {
      SameVersionSameState(ws, ls, k - 1, k);
      i := AdmittingStep(ws, ls, k - 1);
    } else {
      var m, a;
      i, m, a := EveryChangeIsDue(ws, ls, k - 1);
      if m.DoAdmit? {
        ExecutionInv(ws, ls, i);
        AdmissionWritten(ws[i], a, ls[i], ws[k].state, i, ws, ls);
      } else {
        if m.DoBegin? { BeginWritten(a, ws[i], ls[i], ws[k].state); }
        KeepsOperation(m, a, ws[i], ls[i], ws[k].state);
        i := AdmittingStep(ws, ls, k - 1);
      }
    }
  }

  /** No worker is ever admitted before the node is drained, however the save that admits it comes
      to commit: in the last turn of the coordinator's loop, begun within twenty minutes of the
      slot, the CI Pods were seen idle and any GC holder ended, then the runner was seen paused, and
      then no accepted job was active and this one worker waited. */
  lemma AdmissionIsDrained(ws: seq<World>, ls: seq<Label>, k: nat) returns (d: nat, o: nat, p: nat, i: nat)
    requires IsExecution(ws, ls) && k < |ws| && ws[k].state.operation.Some? && ws[k].state.operation.value.worker.Some?
    ensures d < o < p < i < k
    ensures var op := ws[k].state.operation.value;
            && ls[d] == Decide(op.coordinator) && ws[d].now < op.slot + 1200
            && ls[o].Observe? && ls[o].me == op.coordinator && Drained(ls[o].pods)
            && (ws[i].state.gcHolder.Some? ==> ws[i].state.gcHolder.value.identity in EvidenceOf(ls[o].pods).terminal)
            && ls[p] == Probe(op.coordinator, true) && ws[p].paused
            && ls[i] == Select(op.coordinator, true, [op.worker.value]) && ws[i].paused && Quiet(ws[i])
            && ws[i].state.phase == DRAINING && ws[i].state.operation.Some? && ws[i].state.operation.value.id == op.id
  {
    hide Enabled; hide Apply; hide EvidenceOf; hide Initial; hide ScheduledAt; hide StartChecked;
    var op := ws[k].state.operation.value;
    i := AdmittingStep(ws, ls, k);
    d, o, p := DrainTrail(ws, ls, i, op.coordinator);
    IdleIsDrained(ls[o].pods);
    var r, c, b := OperationBegins(ws, ls, k);
    if b <= i { SlotIsFixed(ws, ls, b, i, op.coordinator); } else { SlotIsFixed(ws, ls, i, b, op.coordinator); }
  }

  // ------------------------------------------------------------------------- claims and work

  /** Step `i`: worker `c.worker` found its operation admitted, its time not up and no GC holder,
      and prepared its claim. */
  ghost predicate ClaimedAt(ws: seq<World>, ls: seq<Label>, i: nat, c: ClaimRecord) {
    && i < |ls| && i < |ws| && ls[i] == Decide(c.worker)
    && ws[i].state.phase == ADMITTED && ws[i].state.gcHolder.None? && ws[i].state.operation.Some?
    && var op := ws[i].state.operation.value;
       op.id == c.op && op.worker == Some(c.worker) && ws[i].now < op.cleanupBy
  }

  lemma ClaimWritten(m: Move, a: Identity, w: World, l: Label, t: State, c: ClaimRecord)
    requires Written(m, a, w, l, t) && c in NewClaims(t)
    requires m.DoAdmit? ==> !w.procs[a].copy.operation.value.claimed
    ensures c in NewClaims(w.procs[a].copy) || (m.DoClaim? && l == Decide(a) && a == c.worker)
    ensures c !in NewClaims(w.procs[a].copy) ==>
              var s := w.procs[a].copy;
              && s.phase == ADMITTED && s.gcHolder.None? && s.operation.Some? && s.operation.value.id == c.op
              && s.operation.value.worker == Some(c.worker) && w.now < s.operation.value.cleanupBy
  {
    hide TimeLeft; hide OwnerLeft; hide RecordedAs;
  }

  /** Every claim ever recorded was made in time by the admitted worker itself, from an admitted
      state with no GC holder. */
  lemma {:induction false} ClaimsAreDue(ws: seq<World>, ls: seq<Label>, k: nat, c: ClaimRecord) returns (i: nat)
    requires IsExecution(ws, ls) && k < |ws| && c in ws[k].claims
    ensures i < k && ClaimedAt(ws, ls, i, c)
    decreases k
  {
    hide Enabled; hide Apply; hide ClaimedAt; hide Written; hide Inv; hide NewClaims;
    if c in ws[k - 1].claims {
      i := ClaimsAreDue(ws, ls, k - 1, c);
    } else {
      ClaimsAreCommits(ws[k - 1], ls[k - 1], c);
      NewClaimsAre(ws[k].state, c);
      var m, a;
      i, m, a := EveryChangeIsDue(ws, ls, k - 1);
      if m.DoAdmit? {
        ExecutionInv(ws, ls, i);
        AdmitsUnclaimed(ws[i], a, ls[i], ws[k].state);
      }
      ClaimWritten(m, a, ws[i], ls[i], ws[k].state, c);
      StoredClaims(ws, ls, k - 1);
      NewClaimAt(ws, ls, i, m, a, ws[k].state, c);
    }
  }

  lemma NewClaimAt(ws: seq<World>, ls: seq<Label>, i: nat, m: Move, a: Identity, t: State, c: ClaimRecord)
    requires i < |ls| && i < |ws| && Written(m, a, ws[i], ls[i], t) && c in NewClaims(t)
    requires ws[i].procs[a].copy == ws[i].state && c !in NewClaims(ws[i].state)
    requires m.DoAdmit? ==> ws[i].state.operation.Some? && !ws[i].state.operation.value.claimed
    ensures ClaimedAt(ws, ls, i, c)
  {
    hide Written;
    ClaimWritten(m, a, ws[i], ls[i], t, c);
  }

  lemma AdmitsUnclaimed(w: World, a: Identity, l: Label, t: State)
    requires Inv(w) && Written(DoAdmit, a, w, l, t) && w.procs[a].copy == w.state
    ensures w.state.operation.Some? && !w.state.operation.value.claimed
  {
    SelectingIsPaused(w, a);
    hide ProcOk; hide LateOk; hide RunnerOk; hide OwnersOk; hide HistoryOk; hide PutsOk;
  }

  lemma StoredClaims(ws: seq<World>, ls: seq<Label>, k: nat)
    requires IsExecution(ws, ls) && k < |ws|
    ensures NewClaims(ws[k].state) <= ws[k].claims
  {
    hide RunnerOk; hide OwnersOk; hide PutsOk; hide ProcOk; hide LateOk; hide Coherent;
    ExecutionInv(ws, ls, k);
  }

  /** A worker at work last read, at `r`, an operation claimed by it and no write pending, and then
      found, at `i`, its time not up. */
  lemma WorkIsChecked(ws: seq<World>, ls: seq<Label>, k: nat, a: Identity) returns (r: nat, i: nat)
    requires IsExecution(ws, ls) && k < |ws| && a in ws[k].procs && ws[k].procs[a].pc == K(Working)
    ensures r < i < k && ls[r] == Read(a) && ls[i] == Decide(a)
    ensures ws[r].state.phase == CLAIMED && ws[r].state.operation.Some?
    ensures var op := ws[r].state.operation.value;
            && ws[k].procs[a].opId == Some(op.id) && op.worker == Some(a) && op.claimed && op.write == NoWrite
            && ws[i].now < op.cleanupBy
  {
    hide Enabled; hide Apply; hide Initial; hide Arrived; hide WorkArrived;
    i := Arrival(ws, ls, k, a);
    ArrivedAt(a, ws[i], ls[i], ws[k].procs[a]);
    WorkingFacts(a, ws[i], ls[i], ws[k].procs[a]);
    r := Arrival(ws, ls, i, a);
    ArrivedAt(a, ws[r], ls[r], ws[i].procs[a]);
    WorkReadFacts(a, ws[r], ls[r], ws[i].procs[a]);
  }

  lemma WorkingFacts(a: Identity, w: World, l: Label, q: Proc)
    requires WorkArrived(a, w, l, q, Working)
    ensures l == Decide(a) && Went(a, w, K(WorkCheckJudge), q) && q.copy.phase == CLAIMED && q.copy.operation.Some?
    ensures var op := q.copy.operation.value;
            q.opId == Some(op.id) && op.worker == Some(a) && op.claimed && op.write == NoWrite && w.now < op.cleanupBy
  {
  }

  lemma WorkReadFacts(a: Identity, w: World, l: Label, q: Proc)
    requires WorkArrived(a, w, l, q, WorkCheckJudge)
    ensures l == Read(a) && q.copy == w.state && a in w.procs
  {
  }

  // --------------------------------------------------------------------------------- progress

  /** `l` is a call or a decision of `a` itself. */
  ghost predicate Acts(l: Label, a: Identity) {
    match l
    case Schedule(i, _, _) => i == a
    case Observe(i, _) => i == a
    case Read(i) => i == a
    case Decide(i) => i == a
    case Save(i) => i == a
    case ReadBack(i) => i == a
    case Probe(i, _) => i == a
    case PutRunner(i, _) => i == a
    case Select(i, _, _) => i == a
    case Recheck(i) => i == a
    case _ => false
  }

  /** The next call or decision at each point. */
  function NextStep(a: Identity, pc: Pc): Label {
    match pc
    case Saving(_) => Save(a)
    case ReadingBack(_) => ReadBack(a)
    case C(CoordObserve) => Schedule(a, [], 2820)
    case C(CoordPut) => PutRunner(a, true)
    case R(RecPut) => PutRunner(a, true)
    case C(CoordSelect) => Select(a, false, [])
    case K(Working) => Recheck(a)
    case _ =>
      if AfterRead(pc).Some? then Read(a) else if AfterObserve(pc).Some? then Observe(a, [])
      else if Probes(pc) then Probe(a, true) else Decide(a)
  }

  /** In no execution is a process ever stuck: unless it has stopped, or holds the GC slot, there
      is a step it can take itself. */
  lemma NoneIsStuck(ws: seq<World>, ls: seq<Label>, k: nat, a: Identity)
    requires IsExecution(ws, ls) && k < |ws| && a in ws[k].procs && ws[k].procs[a].pc != Stopped && ws[k].procs[a].pc != G(GcHolding)
    ensures exists l :: Enabled(ws[k], l) && Acts(l, a)
  {
    var w := ws[k];
    ExecutionInv(ws, ls, k);
    if Puts(w.procs[a].pc) { IssuerHasOperation(w, a); }
    hide Inv; hide Enabled; hide Acts;
    NextStepEnabled(w, a);
  }

  lemma IssuerHasOperation(w: World, a: Identity)
    requires Inv(w) && a in w.procs && Puts(w.procs[a].pc)
    ensures w.procs[a].copy.operation.Some?
  {
    hide CoreOk; hide LateOk; hide ValidIdentity;
    assert ProcOk(w, a, w.procs[a]);
  }

  lemma NextStepEnabled(w: World, a: Identity)
    requires Running(w, a) && w.procs[a].pc != G(GcHolding) && (Puts(w.procs[a].pc) ==> w.procs[a].copy.operation.Some?)
    ensures Enabled(w, NextStep(a, w.procs[a].pc)) && Acts(NextStep(a, w.procs[a].pc), a)
  {
    NoPodsNoEvidence();
    hide EvidenceOf; hide ValidIdentity;
  }
}
