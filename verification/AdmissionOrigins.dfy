/** Where every change of the stored state comes from: the step that prepared it, the state it saw
    and the clock, the runner and the evidence at that moment, written out. */
module AdmissionOrigins {
  import opened Pods
  import opened AdmissionState
  import opened AdmissionProtocol

  // ------------------------------------------------------------- what may be written, and when

  /** `s` in ALERT for `reason`. */
  ghost function Alarm(s: State, reason: Outcome): State {
    if s.operation.Some? then s.(phase := ALERT, operation := Some(s.operation.value.(outcome := reason))) else s.(phase := ALERT)
  }

  /** Some owner of the operation is not known to have ended. */
  ghost predicate OwnerLeft(op: Operation, ev: Evidence) {
    || op.coordinator !in ev.terminal
    || (op.claimed && (op.worker.None? || op.worker.value !in ev.terminal))
    || (op.holder.Some? && op.holder.value !in ev.terminal)
  }

  /** The operation's coordinator still has time to drain, or its worker to clean up. */
  ghost predicate TimeLeft(s: State, op: Operation, ev: Evidence, now: int) {
    if s.phase == PAUSE_INTENT || s.phase == DRAINING then now < op.drainBy && op.coordinator !in ev.terminal
    else if s.phase == ADMITTED || s.phase == CLAIMED then now < op.cleanupBy && (!op.claimed || op.worker.None? || op.worker.value !in ev.terminal)
    else false
  }

  /** How a restored operation is recorded to have gone. */
  ghost predicate RecordedAs(op: Operation, ev: Evidence, outcome: Outcome) {
    match op.claimed
    case true => if op.worker.Some? && op.worker.value in ev.succeeded then outcome == CleanupSucceeded else outcome == CleanupFailed
    case false =>
      && (op.outcome == AdmittedWorker ==> outcome == WorkerUnclaimed) && (op.outcome == PauseIntended ==> outcome == CoordinatorFailed)
      && (op.outcome != AdmittedWorker && op.outcome != PauseIntended ==> outcome == op.outcome)
  }

  /** The step `l` prepares the save `t` for process `a` as move `m`: from its copy `s` of the
      state, and only under these conditions. */
  ghost predicate Written(m: Move, a: Identity, w: World, l: Label, t: State) {
    && a in w.procs
    && var p := w.procs[a];
       var s := p.copy;
       match m
       case DoBegin =>
         && l == Probe(a, true) && p.pc == C(CoordBaseline) && !w.paused
         && t == State(s.heartbeat, PAUSE_INTENT,
                       Some(Operation(OpId(p.slot, a.uid), p.slot, a, None, false, None, false, true, PauseWrite,
                                      p.slot + 1200, p.slot + 1800, p.slot + 2700, PauseIntended, false)), s.gcHolder)
       case DoDrain =>
         && l == Decide(a) && p.pc == C(CoordPauseSave) && s.phase == PAUSE_INTENT && s.operation.Some?
         && s.operation.value.coordinator == a && t == s.(phase := DRAINING, operation := Some(s.operation.value.(write := NoWrite)))
       case DoAdmit =>
         && p.pc == C(CoordSelect) && s.operation.Some? && l.Select? && l.me == a && l.quiet && p.ev.idle && |l.workers| == 1
         && t == s.(phase := ADMITTED, operation := Some(s.operation.value.(worker := Some(l.workers[0]), outcome := AdmittedWorker)), gcHolder := None)
       case DoCloseDrain =>
         && l == Decide(a) && p.pc == C(CoordTimeoutSave) && s.phase == DRAINING && s.operation.Some?
         && t == s.(phase := CLOSING, operation := Some(s.operation.value.(outcome := DrainTimedOut)))
       case DoUnknownPause =>
         && l == Decide(a) && p.pc == C(CoordUnknownSave) && s.operation.Some?
         && t == s.(phase := ALERT, operation := Some(s.operation.value.(write := UnknownWrite, outcome := UnknownPauseWrite)))
       case DoHeartbeat => l == Decide(a) && p.pc == R(RecBeat) && t == s.(heartbeat := w.now)
       case DoProbeAlert =>
         && l.Probe? && l.me == a && p.pc == R(RecProbe) && (!l.ok || w.now + 60 >= 1825372800)
         && s.operation.Some? && s.phase != DONE && t == Alarm(s, RecoveryUnavailable)
       case DoRetireGc =>
         && l == Decide(a) && p.pc == R(RecGcJudge) && s.gcHolder.Some? && s.gcHolder.value.identity in p.ev.terminal
         && t == s.(gcHolder := None)
       case DoGcAlert =>
         && l == Decide(a) && p.pc == R(RecGcJudge) && s.gcHolder.Some? && s.gcHolder.value.identity !in p.ev.terminal
         && w.now >= s.gcHolder.value.claimedAt + 2700 && t == Alarm(s, GcHorizonExceeded)
       case DoHorizonAlert =>
         && l == Decide(a) && p.pc == R(RecJudge) && s.operation.Some? && w.now >= s.operation.value.recoverBy
         && t == Alarm(s, RecoveryHorizonExceeded)
       case DoSeal =>
         && l == Decide(a) && p.pc == R(RecJudge) && s.operation.Some? && w.now < s.operation.value.recoverBy
         && !TimeLeft(s, s.operation.value, p.ev, w.now) && s.phase != RESTORING && t == s.(phase := CLOSING)
       case DoUnresolvedAlert =>
         && l == Decide(a) && p.pc == R(RecRetire) && s.operation.Some? && !OwnerLeft(s.operation.value, p.ev)
         && s.operation.value.write != NoWrite && t == Alarm(s, UnresolvedRemoteWrite)
       case DoRestore =>
         && l == Decide(a) && p.pc == R(RecRetire) && s.operation.Some? && !OwnerLeft(s.operation.value, p.ev)
         && s.operation.value.write == NoWrite && t.operation.Some? && RecordedAs(s.operation.value, p.ev, t.operation.value.outcome)
         && t == s.(phase := RESTORING,
                    operation := Some(s.operation.value.(holder := Some(a), write := RestoreWrite, outcome := t.operation.value.outcome)))
       case DoUnknownRestore =>
         && l == Decide(a) && p.pc == R(RecUnknownSave) && s.operation.Some?
         && t == s.(phase := ALERT, operation := Some(s.operation.value.(write := UnknownWrite, outcome := UnknownRestoreWrite)))
       case DoFinish =>
         && l == Decide(a) && p.pc == R(RecDoneSave) && s.phase == RESTORING && s.operation.Some? && s.operation.value.holder == Some(a)
         && t == s.(phase := DONE, operation := Some(s.operation.value.(write := NoWrite, restored := true)))
       case DoClaim =>
         && l == Decide(a) && p.pc == K(WorkJudge) && s.operation.Some? && s.operation.value.worker == Some(a)
         && w.now < s.operation.value.cleanupBy && s.phase == ADMITTED && s.gcHolder.None?
         && t == s.(phase := CLAIMED, operation := Some(s.operation.value.(claimed := true)))
       case DoGcClaim =>
         && l == Decide(a) && p.pc == G(GcJudge) && (s.phase == IDLE || s.phase == DONE) && s.gcHolder.None?
         && t == s.(gcHolder := Some(GcHolder(a, w.now)))
  }

  ghost predicate Prepares(w: World, l: Label, a: Identity, m: Move, t: State)
    requires Enabled(w, l)
  {
    var v := Apply(w, l);
    a in v.procs && v.procs[a].pc == Saving(m) && v.procs[a].copy == t
  }

  lemma DecisionIff(a: Identity, p: Proc, w: World, m: Move, t: State)
    requires a in w.procs && p == w.procs[a] && Decides(p.pc)
    ensures (Next(a, p, w.now).pc == Saving(m) && Next(a, p, w.now).copy == t) <==> Written(m, a, w, Decide(a), t)
  {
    match p.pc {
      case C(_) => CoordinatorIff(a, p, w, m, t);
      case R(_) => RecoveryIff(a, p, w, m, t);
      case _ => OthersIff(a, p, w, m, t);
    }
  }

  lemma CoordinatorIff(a: Identity, p: Proc, w: World, m: Move, t: State)
    requires a in w.procs && p == w.procs[a] && Decides(p.pc) && p.pc.C?
    ensures (Next(a, p, w.now).pc == Saving(m) && Next(a, p, w.now).copy == t) <==> Written(m, a, w, Decide(a), t)
  {
    hide RecoveryNext; hide WorkerNext; hide CollectorNext;
  }

  lemma RecoveryIff(a: Identity, p: Proc, w: World, m: Move, t: State)
    requires a in w.procs && p == w.procs[a] && Decides(p.pc) && p.pc.R?
    ensures (Next(a, p, w.now).pc == Saving(m) && Next(a, p, w.now).copy == t) <==> Written(m, a, w, Decide(a), t)
  {
    hide Written; hide Next;
    if p.pc == R(RecJudge) || p.pc == R(RecRetire) { JudgementIff(a, p, w, m, t); } else { PassageIff(a, p, w, m, t); }
  }

  lemma JudgementIff(a: Identity, p: Proc, w: World, m: Move, t: State)
    requires a in w.procs && p == w.procs[a] && (p.pc == R(RecJudge) || p.pc == R(RecRetire))
    ensures (Next(a, p, w.now).pc == Saving(m) && Next(a, p, w.now).copy == t) <==> Written(m, a, w, Decide(a), t)
  {
    hide CoordinatorNext; hide WorkerNext; hide CollectorNext;
  }

  lemma PassageIff(a: Identity, p: Proc, w: World, m: Move, t: State)
    requires a in w.procs && p == w.procs[a] && Decides(p.pc) && p.pc.R? && p.pc != R(RecJudge) && p.pc != R(RecRetire)
    ensures (Next(a, p, w.now).pc == Saving(m) && Next(a, p, w.now).copy == t) <==> Written(m, a, w, Decide(a), t)
  {
    hide CoordinatorNext; hide WorkerNext; hide CollectorNext; hide Judge; hide Conclude; hide TimeLeft; hide OwnerLeft; hide RecordedAs;
  }

  lemma OthersIff(a: Identity, p: Proc, w: World, m: Move, t: State)
    requires a in w.procs && p == w.procs[a] && Decides(p.pc) && !p.pc.C? && !p.pc.R?
    ensures (Next(a, p, w.now).pc == Saving(m) && Next(a, p, w.now).copy == t) <==> Written(m, a, w, Decide(a), t)
  {
    hide CoordinatorNext; hide RecoveryNext;
  }

  lemma ProbeIff(a: Identity, p: Proc, w: World, ok: bool, m: Move, t: State)
    requires a in w.procs && p == w.procs[a] && Probes(p.pc)
    ensures var q := AfterProbe(a, p, w.paused, ok, w.now);
            (q.pc == Saving(m) && q.copy == t) <==> Written(m, a, w, Probe(a, ok), t)
  {
  }

  lemma SelectIff(a: Identity, p: Proc, w: World, quiet: bool, workers: seq<Identity>, m: Move, t: State)
    requires a in w.procs && p == w.procs[a] && p.pc == C(CoordSelect)
    ensures var q := AfterSelect(p, quiet, workers);
            (q.pc == Saving(m) && q.copy == t) <==> Written(m, a, w, Select(a, quiet, workers), t)
  {
  }

  /** A step prepares a save exactly under the conditions written out, and only so. */
  lemma PreparedIff(w: World, l: Label, a: Identity, m: Move, t: State)
    requires Enabled(w, l) && a in w.procs && !w.procs[a].pc.Saving?
    ensures Prepares(w, l, a, m, t) <==> Written(m, a, w, l, t)
  {
    hide EvidenceOf; hide Next; hide AfterProbe; hide AfterSelect; hide AfterSave; hide Valid; hide ValidIdentity; hide NewClaims; hide NewGcClaims;
    var p := w.procs[a];
    if l.Decide? && l.me == a {
      DecisionIff(a, p, w, m, t);
    } else if l.Probe? && l.me == a {
      ProbeIff(a, p, w, l.ok, m, t);
    } else if l.Select? && l.me == a {
      SelectIff(a, p, w, l.quiet, l.workers, m, t);
    } else {
      NotPrepared(w, l, a, m, t);
    }
  }

  lemma NotPrepared(w: World, l: Label, a: Identity, m: Move, t: State)
    requires Enabled(w, l) && a in w.procs && !w.procs[a].pc.Saving? && !((l.Decide? || l.Probe? || l.Select?) && l.me == a)
    ensures !Prepares(w, l, a, m, t) && !Written(m, a, w, l, t)
  {
    hide Enabled; hide Prepares; hide Written;
    NoSaveBegins(w, l, a, m, t);
    NoneWritten(w, l, a, m, t);
  }

  lemma NoSaveBegins(w: World, l: Label, a: Identity, m: Move, t: State)
    requires Enabled(w, l) && a in w.procs && !w.procs[a].pc.Saving? && !((l.Decide? || l.Probe? || l.Select?) && l.me == a)
    ensures !Prepares(w, l, a, m, t)
  {
    hide EvidenceOf; hide Next; hide AfterProbe; hide AfterSelect; hide Valid; hide ValidIdentity; hide NewClaims; hide NewGcClaims;
  }

  lemma NoneWritten(w: World, l: Label, a: Identity, m: Move, t: State)
    requires !((l.Decide? || l.Probe? || l.Select?) && l.me == a)
    ensures !Written(m, a, w, l, t)
  {
    hide TimeLeft; hide OwnerLeft; hide RecordedAs; hide Alarm;
  }
}
