/** What the maintenance protocol guarantees in every execution: any number of Pods,
    any interleaving, crashes anywhere, saves that commit after an error and runner
    PUTs that land after an error. */
module AdmissionTheorems {
  import opened Pods
  import opened AdmissionState
  import opened AdmissionProtocol
  import opened AdmissionInvariant
  import opened AdmissionSteps

  // --------------------------------------------------------------- the cleanup window

  lemma ClaimedMeansFenced(w: World, c: ClaimRecord)
    requires Inv(w) && c in w.claims && c.worker !in w.retired
    ensures w.paused && Quiet(w) && w.state.gcHolder.None? && CurrentClaim(w.state, c)
  {
  }

  /** From the moment a worker's claim commits until that worker's Pod is fully
      terminated the runner is paused, no runner write is in flight and the GC slot is
      empty. */
  lemma CleanupWindow(ws: seq<World>, ls: seq<Label>, k: nat, c: ClaimRecord)
    requires IsExecution(ws, ls) && k < |ws|
    requires c in ws[k].claims && c.worker !in ws[k].retired
    ensures ws[k].paused && Quiet(ws[k]) && ws[k].state.gcHolder.None?
  {
    hide Inv;
    ExecutionInv(ws, ls, k);
    ClaimedMeansFenced(ws[k], c);
  }

  /** Claims are recorded exactly when a save of a claimed operation commits. */
  lemma ClaimsAreCommits(w: World, l: Label, c: ClaimRecord)
    requires Enabled(w, l)
    ensures var v := Apply(w, l);
            c in v.claims <==>
            || c in w.claims
            || (v.version != w.version && v.state.operation.Some? && v.state.operation.value.id == c.op && v.state.operation.value.claimed
                && v.state.operation.value.worker == Some(c.worker))
  {
    hide EvidenceOf; hide Valid; hide Next; hide AfterSave; hide AfterProbe; hide AfterSelect; hide NewClaims;
    NewClaimsAre(Apply(w, l).state, c);
  }

  lemma NewClaimsAre(s: State, c: ClaimRecord)
    ensures c in NewClaims(s) <==>
            s.operation.Some? && s.operation.value.id == c.op && s.operation.value.claimed && s.operation.value.worker == Some(c.worker)
  {
  }

  /** A worker acts on the caches only behind a successful fence check, and then the
      runner is paused, quiet, and no GC holds the slot. */
  lemma WorkerEffectsAreFenced(ws: seq<World>, ls: seq<Label>, k: nat, me: Identity)
    requires IsExecution(ws, ls) && k < |ws|
    requires me in ws[k].procs && ws[k].procs[me].pc == K(Working)
    ensures ws[k].paused && Quiet(ws[k]) && ws[k].state.gcHolder.None?
    ensures ws[k].state.operation.Some? && ws[k].state.operation.value.worker == Some(me) && ws[k].state.operation.value.claimed
  {
    var w := ws[k];
    ExecutionInv(ws, ls, k);
    hide CoreOk; hide LateOk; hide ValidIdentity; hide Coherent;
    assert ProcOk(w, me, w.procs[me]);
    ClaimedMeansFenced(w, ClaimRecord(w.procs[me].opId.value, me));
  }

  /** No Pod that ever claimed the GC slot and no worker that ever claimed an operation
      are both unretired. */
  lemma GcAndWorkerExclude(ws: seq<World>, ls: seq<Label>, k: nat, g: Identity, c: ClaimRecord)
    requires IsExecution(ws, ls) && k < |ws|
    requires g in ws[k].gcClaims && c in ws[k].claims
    ensures g in ws[k].retired || c.worker in ws[k].retired
  {
    hide ProcOk; hide LateOk; hide Coherent; hide RunnerOk; hide PutsOk;
    ExecutionInv(ws, ls, k);
    if c.worker !in ws[k].retired { ClaimedMeansFenced(ws[k], c); }
  }

  // ------------------------------------------------------------------- runner writes

  /** Every runner PUT ever issued: one per Pod, one pause per operation, every restore
      after an acknowledged pause of the same operation. */
  lemma RunnerWritesAreOrdered(ws: seq<World>, ls: seq<Label>, k: nat)
    requires IsExecution(ws, ls) && k < |ws|
    ensures PutsOk(ws[k].puts)
  {
    hide ProcOk; hide LateOk; hide Coherent; hide RunnerOk; hide PutsOk; hide HistoryOk; hide OwnersOk;
    ExecutionInv(ws, ls, k);
  }

  /** The state in which a pause PUT is issued. */
  ghost predicate PauseDue(w: World, me: Identity) {
    && OwnsPause(w, me) && Quiet(w) && !w.paused
    && (forall q :: q in w.puts ==> q.op != w.state.operation.value.id)
  }

  /** The state in which a restore PUT is issued. */
  ghost predicate RestoreDue(w: World, me: Identity) {
    && OwnsRestore(w, me) && Quiet(w)
    && var op := w.state.operation.value;
       && w.paused == !op.restored
       && Acked(w, op.id, PausePut, op.coordinator)
       && op.coordinator in w.retired
       && (op.claimed ==> op.worker.Some? && op.worker.value in w.retired)
       && (HasRestore(w, op.id) <==> op.restored)
  }

  lemma PutDue(w: World, me: Identity)
    requires Inv(w) && me in w.procs && Puts(w.procs[me].pc)
    ensures w.procs[me].pc == C(CoordPut) ==> PauseDue(w, me)
    ensures w.procs[me].pc == R(RecPut) ==> RestoreDue(w, me)
  {
    IssuerMayPut(w, me, w.procs[me]);
    hide ProcOk; hide LateOk; hide PutsOk; hide HistoryOk;
    var op := w.state.operation.value;
    if w.procs[me].pc == C(CoordPut) {
      forall q | q in w.puts ensures q.op != op.id {
        assert q.op == op.id && q.kind == RestorePut ==> HasRestore(w, op.id);
      }
    }
  }

  /** When a PUT is issued nothing else is in flight. A pause is the first PUT of its
      operation; a restore follows the acknowledged pause, with the coordinator and any
      claimed worker terminated. A restore repeats an earlier one exactly when the stored
      operation was already marked restored. */
  lemma RunnerWriteIsDue(ws: seq<World>, ls: seq<Label>, k: nat)
    requires IsExecution(ws, ls) && k < |ls| && ls[k].PutRunner?
    ensures ws[k].procs[ls[k].me].pc == C(CoordPut) ==> PauseDue(ws[k], ls[k].me)
    ensures ws[k].procs[ls[k].me].pc == R(RecPut) ==> RestoreDue(ws[k], ls[k].me)
  {
    hide Inv; hide Apply; hide PauseDue; hide RestoreDue;
    ExecutionInv(ws, ls, k);
    PutDue(ws[k], ls[k].me);
  }

  /** On DONE the runner is back at its baseline with nothing in flight. */
  lemma DoneMeansRestored(ws: seq<World>, ls: seq<Label>, k: nat)
    requires IsExecution(ws, ls) && k < |ws| && ws[k].state.phase == DONE
    ensures ws[k].state.operation.Some? && ws[k].paused == ws[k].state.operation.value.baseline && Quiet(ws[k])
    ensures HasRestore(ws[k], ws[k].state.operation.value.id)
  {
    hide ProcOk; hide LateOk; hide PutsOk; hide HistoryOk; hide OwnersOk;
    ExecutionInv(ws, ls, k);
  }

  // ------------------------------------------------------------- what steps preserve

  /** A step either leaves the stored state alone or commits a lawful save. */
  lemma StepState(w: World, l: Label) returns (m: Move, a: Identity)
    requires Inv(w) && Enabled(w, l)
    ensures Apply(w, l).state == w.state || Builds(m, a, w.state, Apply(w, l).state)
  {
    hide CoreOk; hide EvidenceOf; hide Next; hide AfterSave; hide AfterProbe; hide AfterSelect; hide Builds; hide ValidIdentity;
    hide Coherent; hide Valid; hide Facts;
    m, a := DoSeal, Identity(CI, "", "", "", "");
    match l {
      case Save(me) =>
        assert ProcOk(w, me, w.procs[me]);
        m, a := w.procs[me].pc.move, me;
      case LateCommit(x) =>
        assert LateOk(w, x);
        m, a := x.move, x.author;
      case _ =>
    }
  }

  lemma StepContinues(w: World, l: Label)
    requires Inv(w) && Enabled(w, l)
    ensures Continues(w.state, Apply(w, l).state)
  {
    var m, a := StepState(w, l);
    hide Apply; hide ProcOk; hide LateOk; hide RunnerOk; hide PutsOk; hide HistoryOk; hide OwnersOk; hide Enabled;
    if Apply(w, l).state != w.state { BuildsContinues(m, a, w.state, Apply(w, l).state); }
  }

  /** Operations follow each other in strictly increasing slots; within one operation the
      claim, the worker it names, the restored mark and an unknown write are never undone. */
  lemma {:induction false} OperationsOnlyAdvance(ws: seq<World>, ls: seq<Label>, i: nat, j: nat)
    requires IsExecution(ws, ls) && i <= j < |ws| && ws[i].state.operation.Some?
    ensures ws[j].state.operation.Some?
    ensures Advances(ws[i].state.operation.value, ws[j].state.operation.value)
    decreases j
  {
    hide Inv; hide Apply; hide Enabled; hide Initial;
    if i < j {
      OperationsOnlyAdvance(ws, ls, i, j - 1);
      ExecutionInv(ws, ls, j - 1);
      StepContinues(ws[j - 1], ls[j - 1]);
    }
  }

  ghost predicate Advances(a: Operation, b: Operation) {
    && a.slot <= b.slot
    && (a.slot == b.slot ==>
          && a.id == b.id && a.coordinator == b.coordinator
          && (a.claimed ==> b.claimed && b.worker == a.worker)
          && (a.restored ==> b.restored)
          && (a.write == UnknownWrite ==> b.write == UnknownWrite))
  }

  /** Everything stored, everything any process is about to save, and everything that may still
      commit after an error, keeps the contract of a stored state. */
  lemma StoredStatesAreValid(ws: seq<World>, ls: seq<Label>, k: nat)
    requires IsExecution(ws, ls) && k < |ws|
    ensures WellFormed(ws[k].state)
    ensures forall i :: i in ws[k].procs && ws[k].procs[i].pc.Saving? ==> WellFormed(ws[k].procs[i].copy)
    ensures forall x :: x in ws[k].late ==> WellFormed(x.next)
  {
    hide RunnerOk; hide PutsOk; hide HistoryOk; hide OwnersOk; hide Facts; hide Legal; hide ValidIdentity; hide Valid; hide WellFormed;
    ExecutionInv(ws, ls, k);
    ValidIff(ws[k].state);
    forall i | i in ws[k].procs && ws[k].procs[i].pc.Saving? ensures WellFormed(ws[k].procs[i].copy) {
      assert ProcOk(ws[k], i, ws[k].procs[i]);
      ValidIff(ws[k].procs[i].copy);
    }
    forall x | x in ws[k].late ensures WellFormed(x.next) {
      assert LateOk(ws[k], x);
      ValidIff(x.next);
    }
  }

  // -------------------------------------------------------------------- unknown latch

  lemma UnknownStep(w: World, l: Label)
    requires Inv(w) && Enabled(w, l)
    requires w.state.operation.Some? && w.state.operation.value.write == UnknownWrite
    ensures var v := Apply(w, l);
            && v.state.operation.Some? && v.state.operation.value.id == w.state.operation.value.id
            && v.state.operation.value.write == UnknownWrite
            && (v.state.phase == ALERT || v.state.phase == CLOSING) && v.puts == w.puts
  {
    hide ProcOk; hide LateOk; hide RunnerOk; hide PutsOk; hide HistoryOk; hide OwnersOk; hide EvidenceOf; hide Next;
    hide AfterSave; hide AfterProbe; hide AfterSelect; hide Builds; hide ValidIdentity;
    var m, a := StepState(w, l);
    var v := Apply(w, l);
    if v.state != w.state { BuildsContinues(m, a, w.state, v.state); }
    if l.PutRunner? { PutDue(w, l.me); }
  }

  /** Once a remote write is unknown the operation is never replaced, the write stays
      unknown, the phase stays within ALERT and CLOSING, and no runner PUT is issued again,
      even when a racing recovery pass overwrites ALERT. */
  lemma {:induction false} UnknownIsLatched(ws: seq<World>, ls: seq<Label>, i: nat, j: nat)
    requires IsExecution(ws, ls) && i < j < |ws|
    requires ws[i].state.operation.Some? && ws[i].state.operation.value.write == UnknownWrite
    ensures ws[j].state.operation.Some? && ws[j].state.operation.value.id == ws[i].state.operation.value.id
    ensures ws[j].state.operation.value.write == UnknownWrite
    ensures ws[j].state.phase == ALERT || ws[j].state.phase == CLOSING
    ensures ws[j].puts == ws[i].puts
    decreases j
  {
    hide Inv; hide Apply; hide Enabled; hide Initial;
    if i < j - 1 { UnknownIsLatched(ws, ls, i, j - 1); }
    ExecutionInv(ws, ls, j - 1);
    UnknownStep(ws[j - 1], ls[j - 1]);
  }

  // ------------------------------------------------------------------ claim against seal

  /** The operation `id` can no longer be claimed. */
  ghost predicate Unclaimable(s: State, id: OpId) {
    && s.operation.Some?
    && (id.slot < s.operation.value.slot
        || (s.operation.value.id == id && Sealed(s.phase) && !s.operation.value.claimed))
  }

  lemma UnclaimableStep(w: World, l: Label, id: OpId)
    requires Inv(w) && Enabled(w, l) && Unclaimable(w.state, id)
    requires forall c :: c in w.claims ==> c.op != id
    ensures Unclaimable(Apply(w, l).state, id)
    ensures forall c :: c in Apply(w, l).claims ==> c.op != id
  {
    StepContinues(w, l);
    StepInv(w, l);
    var v := Apply(w, l);
    forall c | c in v.claims ensures c.op != id {
      ClaimsAreCommits(w, l, c);
    }
    hide Apply; hide ProcOk; hide LateOk; hide RunnerOk; hide PutsOk; hide Enabled;
  }

  lemma SealedHasNoClaim(w: World, id: OpId)
    requires Inv(w) && w.state.operation.Some? && w.state.operation.value.id == id
    requires Sealed(w.state.phase) && !w.state.operation.value.claimed
    ensures Unclaimable(w.state, id) && forall c :: c in w.claims ==> c.op != id
  {
    hide ProcOk; hide LateOk; hide RunnerOk; hide PutsOk;
  }

  lemma {:induction false} SealedStaysUnclaimable(ws: seq<World>, ls: seq<Label>, i: nat, j: nat, id: OpId)
    requires IsExecution(ws, ls) && i <= j < |ws|
    requires ws[i].state.operation.Some? && ws[i].state.operation.value.id == id
    requires Sealed(ws[i].state.phase) && !ws[i].state.operation.value.claimed
    ensures Unclaimable(ws[j].state, id)
    ensures forall c :: c in ws[j].claims ==> c.op != id
    decreases j
  {
    hide Inv; hide Apply; hide Enabled; hide Initial; hide Unclaimable; hide Sealed;
    if i == j {
      ExecutionInv(ws, ls, i);
      SealedHasNoClaim(ws[i], id);
    } else {
      SealedStaysUnclaimable(ws, ls, i, j - 1, id);
      ExecutionInv(ws, ls, j - 1);
      UnclaimableStep(ws[j - 1], ls[j - 1], id);
    }
  }

  /** Once an unclaimed operation is sealed no worker's fence check for it ever succeeds. */
  lemma SealRevokesForGood(ws: seq<World>, ls: seq<Label>, i: nat, j: nat, id: OpId, me: Identity)
    requires IsExecution(ws, ls) && i <= j < |ws|
    requires ws[i].state.operation.Some? && ws[i].state.operation.value.id == id
    requires Sealed(ws[i].state.phase) && !ws[i].state.operation.value.claimed
    requires me in ws[j].procs && ws[j].procs[me].opId == Some(id)
    ensures ws[j].procs[me].pc != K(Working)
  {
    SealedStaysUnclaimable(ws, ls, i, j, id);
    ExecutionInv(ws, ls, j);
    hide CoreOk; hide LateOk; hide ValidIdentity; hide Coherent; hide Unclaimable; hide IsExecution;
    assert ProcOk(ws[j], me, ws[j].procs[me]);
  }

  /** Two saves prepared from the same version: whichever is sent first commits, and the
      other changes nothing, then or later. */
  lemma OneCasWinner(w: World, a: Identity, b: Identity)
    requires Inv(w) && a != b && Enabled(w, Save(a)) && Enabled(w, Save(b))
    requires w.procs[a].ver == w.version && w.procs[b].ver == w.version
    ensures var v := Apply(w, Save(a));
            && v.state == w.procs[a].copy && v.version == w.version + 1
            && Enabled(v, Save(b))
            && var u := Apply(v, Save(b));
               u.state == v.state && u.version == v.version && u.procs[b].pc == Stopped
  {
    hide CoreOk; hide LateOk; hide ValidIdentity; hide Legal; hide Facts;
    assert ProcOk(w, a, w.procs[a]);
  }
}
