/** Recovery passes that never overlap, as the recovery CronJob's Forbid policy arranges:
    then every operation is restored at most once. */
module AdmissionSequential {
  import opened Pods
  import opened AdmissionState
  import opened AdmissionProtocol
  import opened AdmissionInvariant
  import opened AdmissionSteps
  import opened AdmissionTheorems

  ghost predicate RecoveryIdle(w: World) {
    forall i :: i in w.procs && w.procs[i].kind == Recovery ==> w.procs[i].pc == Stopped
  }

  /** A recovery Pod starts only when every earlier one has stopped. */
  ghost predicate StartsAlone(w: World, l: Label) {
    l.Spawn? && l.kind == Recovery ==> RecoveryIdle(w)
  }

  ghost predicate NonOverlapping(ws: seq<World>, ls: seq<Label>)
    requires IsRun(ws, ls)
  {
    forall k :: 0 <= k < |ls| ==> StartsAlone(ws[k], ls[k])
  }

  ghost predicate IsRestored(s: State) {
    s.operation.Some? && s.operation.value.restored
  }

  /** Points after this pass's heartbeat has committed and before its restore. */
  predicate Armed(pc: Pc) {
    match pc
    case R(r) =>
      || r.RecMain? || r.RecGc? || r.RecGcObserve? || r.RecGcJudge? || r.RecReload? || r.RecPhase?
      || r.RecObserve? || r.RecJudge? || r.RecSealed? || r.RecRetire?
    case Saving(m) => m.DoRetireGc? || m.DoSeal? || m.DoGcAlert? || m.DoHorizonAlert? || m.DoUnresolvedAlert? || m.DoRestore?
    case ReadingBack(m) => m.DoHeartbeat? || m.DoRetireGc? || m.DoSeal?
    case _ => false
  }

  /** A restored operation is closed or latched, with nothing pending. */
  ghost predicate RestoredOnce(s: State) {
    IsRestored(s) ==> s.operation.value.write == NoWrite && (s.phase == DONE || s.phase == ALERT)
  }

  ghost predicate SeqProc(w: World, p: Proc) {
    && (Armed(p.pc) ==> (IsRestored(w.state) ==> w.state.phase == DONE))
    && (p.pc == ReadingBack(DoSeal) || p.pc == R(RecSealed) ==> w.state.operation.Some? && !IsRestored(w.state))
    && (p.pc == R(RecRetire) ==> (p.copy.operation.Some? && p.copy.operation.value.write == NoWrite ==> !IsRestored(p.copy)))
    && (p.pc.Saving? && p.ver == w.version && Advancing(p.pc.move) ==> !IsRestored(w.state))
  }

  predicate Advancing(m: Move) {
    m == DoSeal || m == DoRestore
  }

  ghost predicate SomeArmed(w: World) {
    exists i :: i in w.procs && Armed(w.procs[i].pc)
  }

  ghost predicate SeqLate(w: World, x: Write) {
    x.ver == w.version ==>
      (Advancing(x.move) ==> !IsRestored(w.state)) && (SomeArmed(w) ==> KindOfMove(x.move) != Recovery)
  }

  ghost predicate SeqInv(w: World) {
    && RestoredOnce(w.state)
    && (forall i, j ::
          (i in w.procs && j in w.procs && w.procs[i].kind == Recovery && w.procs[j].kind == Recovery
           && w.procs[i].pc != Stopped && w.procs[j].pc != Stopped) ==> i == j)
    && (forall i :: i in w.procs ==> SeqProc(w, w.procs[i]))
    && (forall x :: x in w.late ==> SeqLate(w, x))
  }

  // ------------------------------------------------------------------------ own steps

  lemma SeqRecoveryNext(w: World, me: Identity, p: Proc, r: RecPc)
    requires ProcOk(w, me, p) && SeqProc(w, p) && p.pc == R(r) && Decides(p.pc)
    ensures SeqProc(w, RecoveryNext(me, p, r, w.now))
    ensures Armed(RecoveryNext(me, p, r, w.now).pc) ==> Armed(p.pc)
  {
    hide ValidIdentity; hide NewClaims; hide NoPutBy; hide Legal; hide RestoredOutcome; hide MustWait; hide OwnersRetired;
    hide Valid; hide Quiet; hide Acked; hide Issued;
  }

  lemma SeqDecide(w: World, me: Identity, p: Proc)
    requires ProcOk(w, me, p) && SeqProc(w, p) && Decides(p.pc)
    ensures SeqProc(w, Next(me, p, w.now))
    ensures Armed(Next(me, p, w.now).pc) ==> Armed(p.pc)
  {
    hide ProcOk; hide RecoveryNext; hide FenceHolds;
    if p.pc.R? { SeqRecoveryNext(w, me, p, p.pc.rec); }
  }

  lemma SeqRead(w: World, me: Identity, p: Proc)
    requires Coherent(w.state) && SeqProc(w, p) && AfterRead(p.pc).Some?
    ensures SeqProc(w, p.(pc := AfterRead(p.pc).value, ver := w.version, copy := w.state))
    ensures Armed(AfterRead(p.pc).value) ==> Armed(p.pc)
  {
    hide Coherent;
  }

  lemma SeqProbe(w: World, me: Identity, p: Proc, ok: bool)
    requires SeqProc(w, p) && Probes(p.pc)
    ensures SeqProc(w, AfterProbe(me, p, w.paused, ok, w.now))
    ensures !Armed(AfterProbe(me, p, w.paused, ok, w.now).pc)
  {
  }

  lemma SeqReadBack(w: World, p: Proc)
    requires SeqProc(w, p) && p.pc.ReadingBack? && w.state == p.copy
    ensures SeqProc(w, AfterSave(p, p.pc.move))
    ensures Armed(AfterSave(p, p.pc.move).pc) ==> Armed(p.pc)
  {
  }

  /** Replacing one running process by its successor at the same stored state. */
  lemma SeqOne(w: World, v: World, me: Identity)
    requires SeqInv(w) && me in w.procs && w.procs[me].pc != Stopped
    requires v.state == w.state && v.version == w.version && v.late == w.late
    requires me in v.procs && v.procs == w.procs[me := v.procs[me]]
    requires v.procs[me].kind == w.procs[me].kind && SeqProc(w, v.procs[me])
    requires Armed(v.procs[me].pc) ==> Armed(w.procs[me].pc)
    ensures SeqInv(v)
  {
    hide Armed; hide IsRestored; hide RestoredOnce; hide Advancing;
    forall i | i in v.procs ensures SeqProc(v, v.procs[i]) {
      if i != me { assert SeqProc(w, w.procs[i]); }
    }
    forall x | x in v.late ensures SeqLate(v, x) {
      assert SeqLate(w, x);
      if SomeArmed(v) {
        var i :| i in v.procs && Armed(v.procs[i].pc);
        assert Armed(w.procs[i].pc);
      }
    }
  }

  /** The process itself stops, and an errored save joins the late writes. */
  lemma SeqStop(w: World, v: World, me: Identity)
    requires Inv(w) && SeqInv(w) && me in w.procs
    requires v.state == w.state && v.version == w.version
    requires me in v.procs && v.procs == w.procs[me := v.procs[me]]
    requires v.procs[me].pc == Stopped && v.procs[me].kind == w.procs[me].kind
    requires v.late == w.late || (w.procs[me].pc.Saving? && v.late == w.late + {Write(w.procs[me].ver, w.procs[me].copy, me, w.procs[me].pc.move)})
    ensures SeqInv(v)
  {
    hide CoreOk; hide LateOk; hide Armed; hide IsRestored; hide RestoredOnce; hide Facts; hide CopyOk; hide SaveOk; hide ValidIdentity;
    assert ProcOk(w, me, w.procs[me]) && SeqProc(w, w.procs[me]);
    assert !Armed(Stopped) by { StoppedUnarmed(); }
    forall i | i in v.procs ensures SeqProc(v, v.procs[i]) {
      if i != me { assert SeqProc(w, w.procs[i]); }
    }
    forall x | x in v.late ensures SeqLate(v, x) {
      if SomeArmed(v) {
        var i :| i in v.procs && Armed(v.procs[i].pc);
        assert i != me && Armed(w.procs[i].pc);
        ArmedIsRecovery(w, i);
      }
      if x in w.late { assert SeqLate(w, x); }
    }
  }

  lemma StoppedUnarmed()
    ensures !Armed(Stopped)
  {
  }

  lemma ArmedIsRecovery(w: World, i: Identity)
    requires i in w.procs && ProcOk(w, i, w.procs[i]) && Armed(w.procs[i].pc)
    ensures w.procs[i].kind == Recovery && w.procs[i].pc != Stopped
  {
    hide ValidIdentity; hide Coherent; hide Facts; hide Legal;
  }

  // -------------------------------------------------------------------------- commits

  /** Commits by coordinators, workers and collectors never mark an operation restored and
      leave a restored one alone unless they replace it. */
  lemma ForeignCommit(s: State, a: Identity, m: Move, t: State)
    requires Coherent(s) && RestoredOnce(s) && Builds(m, a, s, t) && KindOfMove(m) != Recovery
    ensures RestoredOnce(t)
    ensures IsRestored(t) ==> IsRestored(s) && t.phase == s.phase
    ensures s.operation.Some? ==> t.operation.Some?
  {
  }

  lemma RecoveryCommit(s: State, a: Identity, m: Move, t: State)
    requires Coherent(s) && RestoredOnce(s) && Builds(m, a, s, t) && KindOfMove(m) == Recovery
    requires Advancing(m) ==> !IsRestored(s)
    ensures RestoredOnce(t)
    ensures m == DoHeartbeat ==> (IsRestored(t) ==> t.phase == DONE)
    ensures m == DoRetireGc && (IsRestored(s) ==> s.phase == DONE) ==> (IsRestored(t) ==> t.phase == DONE)
    ensures m == DoSeal ==> t.operation.Some? && !IsRestored(t)
  {
  }

  lemma SeqCommitOther(w: World, a: Identity, m: Move, t: State, p: Proc)
    requires Coherent(w.state) && RestoredOnce(w.state) && Builds(m, a, w.state, t) && KindOfMove(m) != Recovery
    requires SeqProc(w, p) && p.ver <= w.version
    ensures SeqProc(Commit(w, t), p)
  {
    ForeignCommit(w.state, a, m, t);
    hide Coherent; hide Builds; hide RestoredOnce; hide NewClaims; hide NewGcClaims;
  }

  lemma SeqCommitUnarmed(w: World, t: State, p: Proc)
    requires SeqProc(w, p) && p.ver <= w.version && !Armed(p.pc)
    ensures SeqProc(Commit(w, t), p)
  {
    hide NewClaims; hide NewGcClaims;
  }

  lemma SeqSavedSelf(w: World, me: Identity, p: Proc)
    requires Coherent(w.state) && RestoredOnce(w.state) && SeqProc(w, p) && p.pc.Saving? && p.ver == w.version
    requires Builds(p.pc.move, me, w.state, p.copy)
    ensures SeqProc(Commit(w, p.copy), p.(pc := ReadingBack(p.pc.move)))
    ensures RestoredOnce(p.copy)
  {
    if KindOfMove(p.pc.move) == Recovery {
      RecoveryCommit(w.state, me, p.pc.move, p.copy);
    } else {
      ForeignCommit(w.state, me, p.pc.move, p.copy);
    }
    hide Coherent; hide Builds; hide RestoredOnce; hide NewClaims; hide NewGcClaims;
  }

  lemma SeqSave(w: World, me: Identity)
    requires Inv(w) && SeqInv(w) && me in w.procs && w.procs[me].pc.Saving?
    requires Valid(w.procs[me].copy) && w.procs[me].ver == w.version
    ensures SeqInv(SaveStep(w, me, w.procs[me]))
  {
    hide RunnerOk; hide OwnersOk; hide PutsOk; hide HistoryOk; hide LateOk; hide Coherent; hide ValidIdentity; hide Facts;
    hide CopyOk; hide Builds; hide RestoredOnce; hide IsRestored; hide Valid; hide NewClaims; hide NewGcClaims; hide SeqProc;
    var p := w.procs[me];
    var m := p.pc.move;
    var c := Commit(w, p.copy);
    var v := SaveStep(w, me, p);
    assert ProcOk(w, me, p);
    SeqSavedSelf(w, me, p);
    forall i | i in v.procs ensures SeqProc(v, v.procs[i]) {
      if i == me {
        SameSeq(c, v, v.procs[i]);
      } else {
        assert ProcOk(w, i, w.procs[i]) && SeqProc(w, w.procs[i]);
        if KindOfMove(m) != Recovery {
          SeqCommitOther(w, me, m, p.copy, w.procs[i]);
        } else {
          if Armed(w.procs[i].pc) { ArmedIsRecovery(w, i); }
          SeqCommitUnarmed(w, p.copy, w.procs[i]);
        }
        SameSeq(c, v, v.procs[i]);
      }
    }
    forall x | x in v.late ensures SeqLate(v, x) {
      assert LateOk(w, x);
      LateVersion(w, x);
    }
  }

  lemma SameSeq(w: World, v: World, p: Proc)
    requires v.state == w.state && v.version == w.version && SeqProc(w, p)
    ensures SeqProc(v, p)
  {
  }

  lemma LateVersion(w: World, x: Write)
    requires LateOk(w, x)
    ensures x.ver <= w.version && (x.ver == w.version ==> Builds(x.move, x.author, w.state, x.next))
  {
    hide Coherent; hide ValidIdentity;
  }

  lemma SeqLateCommit(w: World, x: Write)
    requires Inv(w) && SeqInv(w) && x in w.late && x.ver == w.version
    ensures SeqInv(Commit(w, x.next))
  {
    hide RunnerOk; hide OwnersOk; hide PutsOk; hide HistoryOk; hide Coherent; hide ValidIdentity; hide Facts;
    hide CopyOk; hide SaveOk; hide Builds; hide RestoredOnce; hide IsRestored; hide NewClaims; hide NewGcClaims; hide SeqProc;
    hide LateOk;
    var c := Commit(w, x.next);
    LateVersion(w, x);
    assert SeqLate(w, x);
    if KindOfMove(x.move) == Recovery {
      RecoveryCommit(w.state, x.author, x.move, x.next);
    } else {
      ForeignCommit(w.state, x.author, x.move, x.next);
    }
    forall i | i in c.procs ensures SeqProc(c, c.procs[i]) {
      assert ProcOk(w, i, w.procs[i]) && SeqProc(w, w.procs[i]);
      if KindOfMove(x.move) != Recovery {
        SeqCommitOther(w, x.author, x.move, x.next, w.procs[i]);
      } else {
        assert !Armed(w.procs[i].pc);
        SeqCommitUnarmed(w, x.next, w.procs[i]);
      }
    }
    forall y | y in c.late ensures SeqLate(c, y) { LateVersion(w, y); }
  }

  // ----------------------------------------------------------------------- every step

  lemma SeqLocal(w: World, l: Label)
    requires Inv(w) && SeqInv(w) && Enabled(w, l) && IsLocal(l)
    ensures SeqInv(Apply(w, l))
  {
    hide RunnerOk; hide OwnersOk; hide PutsOk; hide HistoryOk; hide LateOk; hide ProcOk; hide EvidenceOf; hide Next; hide AfterSave;
    hide AfterProbe; hide AfterRead; hide Coherent; hide ValidIdentity; hide SeqLate; hide RestoredOnce;
    var me := l.me;
    var p := w.procs[me];
    var v := Apply(w, l);
    assert SeqProc(w, p) && ProcOk(w, me, p);
    KeepsKind(w, l);
    if v.procs[me].pc == Stopped {
      SeqStop(w, v, me);
    } else {
      match l {
        case Read(_) => SeqRead(w, me, p);
        case Decide(_) => SeqDecide(w, me, p);
        case ReadBack(_) => SeqReadBack(w, p);
        case Probe(_, ok) => SeqProbe(w, me, p, ok);
        case _ =>
      }
      SeqOne(w, v, me);
    }
  }

  lemma KeepsKind(w: World, l: Label)
    requires Enabled(w, l) && IsLocal(l)
    ensures Apply(w, l) == With(w, l.me, Apply(w, l).procs[l.me]) && Apply(w, l).procs[l.me].kind == w.procs[l.me].kind
  {
    hide EvidenceOf; hide ValidIdentity;
  }

  lemma SeqPut(w: World, me: Identity, p: Proc, ok: bool)
    requires SeqInv(w) && me in w.procs && p == w.procs[me] && Puts(p.pc) && p.copy.operation.Some?
    ensures SeqInv(PutStep(w, me, p, ok))
  {
    hide SeqLate; hide RestoredOnce; hide IsRestored; hide Advancing;
    var v := PutStep(w, me, p, ok);
    SeqOne(w, v, me);
  }

  lemma SeqSpawn(w: World, me: Identity, kind: Kind)
    requires SeqInv(w) && Enabled(w, Spawn(me, kind)) && StartsAlone(w, Spawn(me, kind))
    ensures SeqInv(Apply(w, Spawn(me, kind)))
  {
    var v := Apply(w, Spawn(me, kind));
    forall i | i in v.procs ensures SeqProc(v, v.procs[i]) {
      if i != me { assert SeqProc(w, w.procs[i]); }
    }
    forall x | x in v.late ensures SeqLate(v, x) {
      assert SeqLate(w, x);
      if SomeArmed(v) {
        var i :| i in v.procs && Armed(v.procs[i].pc);
        assert i != me;
      }
    }
  }

  lemma SeqStep(w: World, l: Label)
    requires Inv(w) && SeqInv(w) && Enabled(w, l) && StartsAlone(w, l)
    ensures SeqInv(Apply(w, l))
  {
    hide Inv; hide SeqInv; hide EvidenceOf; hide ValidIdentity; hide Valid; hide Next; hide AfterProbe; hide AfterSave;
    match l {
      case Spawn(me, kind) => SeqSpawn(w, me, kind);
      case Retire(me) =>
        if me in w.procs {
          var u := With(w, me, w.procs[me].(pc := Stopped));
          SeqStop(w, u, me);
          SeqSameShared(u, Apply(w, l));
        } else {
          SeqSameShared(w, Apply(w, l));
        }
      case Tick(_) => SeqSameShared(w, Apply(w, l));
      case Land(_) => SeqSameShared(w, Apply(w, l));
      case LateCommit(x) => SeqLateCommit(w, x);
      case Save(me) =>
        var p := w.procs[me];
        if !Valid(p.copy) || p.ver != w.version { SeqStop(w, Apply(w, l), me); } else { SeqSave(w, me); }
      case SaveError(me) =>
        SeqStop(w, Apply(w, l), me);
      case PutRunner(me, ok) => SeqPut(w, me, w.procs[me], ok);
      case _ => SeqLocal(w, l);
    }
  }

  lemma SeqSameShared(w: World, v: World)
    requires SeqInv(w) && v.state == w.state && v.version == w.version && v.late == w.late && v.procs == w.procs
    ensures SeqInv(v)
  {
    hide RestoredOnce; hide Armed; hide IsRestored;
    forall i | i in v.procs ensures SeqProc(v, v.procs[i]) { assert SeqProc(w, w.procs[i]); }
    forall x | x in v.late ensures SeqLate(v, x) { assert SeqLate(w, x); }
  }

  lemma {:induction false} SeqExecution(ws: seq<World>, ls: seq<Label>, k: nat)
    requires IsExecution(ws, ls) && NonOverlapping(ws, ls) && k < |ws|
    ensures SeqInv(ws[k])
  {
    hide Inv; hide Apply; hide Enabled;
    if k > 0 {
      hide Initial; hide SeqInv;
      SeqExecution(ws, ls, k - 1);
      ExecutionInv(ws, ls, k - 1);
      SeqStep(ws[k - 1], ls[k - 1]);
    }
  }

  ghost predicate RestoresUnique(puts: seq<Put>) {
    forall i, j :: 0 <= i < j < |puts| && puts[i].kind == RestorePut && puts[j].kind == RestorePut ==> puts[i].op != puts[j].op
  }

  lemma PutsGrowOnlyByPut(w: World, l: Label)
    requires Enabled(w, l)
    ensures !l.PutRunner? ==> Apply(w, l).puts == w.puts
    ensures l.PutRunner? ==> |Apply(w, l).puts| == |w.puts| + 1 && Apply(w, l).puts[..|w.puts|] == w.puts
  {
    hide EvidenceOf; hide Valid; hide Next; hide AfterSave; hide AfterProbe; hide AfterSelect; hide NewClaims; hide ValidIdentity;
  }

  lemma UniqueAppend(a: seq<Put>, b: seq<Put>)
    requires RestoresUnique(a) && |b| == |a| + 1 && b[..|a|] == a
    requires b[|a|].kind == RestorePut ==> forall q :: q in a && q.kind == RestorePut ==> q.op != b[|a|].op
    ensures RestoresUnique(b)
  {
    forall i, j | 0 <= i < j < |b| && b[i].kind == RestorePut && b[j].kind == RestorePut ensures b[i].op != b[j].op {
      assert b[i] == b[..|a|][i] == a[i] && a[i] in a;
      if j < |a| { assert b[j] == b[..|a|][j]; }
    }
  }

  lemma FirstRestore(w: World, me: Identity, ok: bool)
    requires Inv(w) && SeqInv(w) && Enabled(w, PutRunner(me, ok))
    ensures var v := Apply(w, PutRunner(me, ok));
            && |v.puts| == |w.puts| + 1
            && (v.puts[|w.puts|].kind == RestorePut ==>
                  forall q :: q in w.puts && q.kind == RestorePut ==> q.op != v.puts[|w.puts|].op)
  {
    PutDue(w, me);
    IssuerMayPut(w, me, w.procs[me]);
    hide Inv; hide SeqProc; hide SeqLate;
  }

  lemma RestoresStayUnique(w: World, l: Label)
    requires Inv(w) && SeqInv(w) && Enabled(w, l) && RestoresUnique(w.puts)
    ensures RestoresUnique(Apply(w, l).puts)
  {
    hide Inv; hide SeqInv; hide Apply; hide Enabled; hide RestoresUnique;
    PutsGrowOnlyByPut(w, l);
    if l.PutRunner? {
      FirstRestore(w, l.me, l.ok);
      UniqueAppend(w.puts, Apply(w, l).puts);
    }
  }

  /** With recovery passes that never overlap, each operation has at most one restore PUT,
      over every interleaving with the other processes, crashes and late commits. */
  lemma {:induction false} AtMostOneRestore(ws: seq<World>, ls: seq<Label>, k: nat)
    requires IsExecution(ws, ls) && NonOverlapping(ws, ls) && k < |ws|
    ensures RestoresUnique(ws[k].puts)
  {
    hide Inv; hide SeqInv; hide Apply; hide Enabled; hide NonOverlapping;
    if k > 0 {
      hide Initial; hide RestoresUnique;
      AtMostOneRestore(ws, ls, k - 1);
      SeqExecution(ws, ls, k - 1);
      ExecutionInv(ws, ls, k - 1);
      RestoresStayUnique(ws[k - 1], ls[k - 1]);
    }
  }
}
