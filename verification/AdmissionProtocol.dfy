/** The maintenance protocol as a step system: any number of coordinator, recovery,
    worker and store-GC Pods share one compare-and-swap ConfigMap and one remote runner
    switch. Every API call is one atomic step; every local decision reads the clock once. */
module AdmissionProtocol {
  import opened Pods
  import opened AdmissionState

  const TOKEN_EXPIRY := 1825372800

  datatype Kind = Coordinator | Recovery | Worker | Collector

  /** Program points. `Saving(m)` is about to PUT its copy, `ReadingBack(m)` has seen the
      PUT acknowledged and is about to re-read it. */
  datatype Pc =
    | Stopped
    | Saving(move: Move) | ReadingBack(move: Move)
    | C(coord: CoordPc) | R(rec: RecPc) | K(work: WorkPc) | G(gc: GcPc)

  datatype CoordPc =
    | CoordObserve | CoordRead | CoordCheck | CoordBaseline | CoordPut | CoordConfirm
    | CoordUnknown | CoordUnknownSave | CoordPauseRead | CoordPauseSave
    | CoordLoop | CoordDrainRead | CoordDrainCheck | CoordDrainObserve | CoordGcCheck | CoordRunner | CoordSelect
    | CoordTimeoutRead | CoordTimeoutSave

  datatype RecPc =
    | RecRead | RecCheck | RecProbe | RecBeat | RecMain | RecGc | RecGcObserve | RecGcJudge | RecReload
    | RecPhase | RecObserve | RecJudge | RecSealed | RecRetire | RecPut | RecConfirm
    | RecUnknown | RecUnknownSave | RecDone | RecDoneSave

  datatype WorkPc = WorkLoop | WorkRead | WorkJudge | WorkCheck | WorkCheckJudge | Working

  datatype GcPc = GcGate | GcRead | GcJudge | GcHolding

  /** One running Pod: the version and state it last read (or is saving), its last Pod
      evidence, its slot (for a worker: its admission deadline) and its claimed operation. */
  datatype Proc = Proc(kind: Kind, pc: Pc, ver: nat, copy: State, ev: Evidence, slot: int, opId: Option<OpId>)

  /** A ConfigMap PUT whose caller saw an error; it may still commit. */
  datatype Write = Write(ver: nat, next: State, author: Identity, move: Move)

  datatype PutKind = PausePut | RestorePut

  /** History: every runner PUT ever issued, by whom, and whether it was acknowledged. */
  datatype Put = Put(op: OpId, kind: PutKind, author: Identity, ok: bool)

  datatype ClaimRecord = ClaimRecord(op: OpId, worker: Identity)

  datatype World = World(
    version: nat, state: State, late: set<Write>,
    paused: bool, inflight: multiset<bool>,
    procs: map<Identity, Proc>, retired: set<Identity>, now: int,
    puts: seq<Put>, claims: set<ClaimRecord>, gcClaims: set<Identity>)

  datatype Label =
    | Spawn(me: Identity, kind: Kind)
    | Crash(me: Identity)
    | Retire(me: Identity)
    | Tick(later: int)
    | LateCommit(write: Write)
    | Land(value: bool)
    | Schedule(me: Identity, pods: seq<Pod>, slot: int)
    | Observe(me: Identity, pods: seq<Pod>)
    | Read(me: Identity)
    | Decide(me: Identity)
    | Save(me: Identity)
    | SaveError(me: Identity)
    | ReadBack(me: Identity)
    | Probe(me: Identity, ok: bool)
    | PutRunner(me: Identity, ok: bool)
    | Select(me: Identity, quiet: bool, workers: seq<Identity>)
    | Recheck(me: Identity)

  // ------------------------------------------------------------- process programs

  /** Where a read of the ConfigMap continues. */
  function AfterRead(pc: Pc): Option<Pc> {
    match pc
    case C(CoordRead) => Some(C(CoordCheck))
    case C(CoordUnknown) => Some(C(CoordUnknownSave))
    case C(CoordPauseRead) => Some(C(CoordPauseSave))
    case C(CoordDrainRead) => Some(C(CoordDrainCheck))
    case C(CoordTimeoutRead) => Some(C(CoordTimeoutSave))
    case R(RecRead) => Some(R(RecCheck))
    case R(RecMain) => Some(R(RecGc))
    case R(RecReload) => Some(R(RecPhase))
    case R(RecSealed) => Some(R(RecRetire))
    case R(RecUnknown) => Some(R(RecUnknownSave))
    case R(RecDone) => Some(R(RecDoneSave))
    case K(WorkRead) => Some(K(WorkJudge))
    case K(WorkCheck) => Some(K(WorkCheckJudge))
    case G(GcRead) => Some(G(GcJudge))
    case _ => None
  }

  /** Where a Pod snapshot continues. */
  function AfterObserve(pc: Pc): Option<Pc> {
    match pc
    case C(CoordDrainObserve) => Some(C(CoordGcCheck))
    case R(RecGcObserve) => Some(R(RecGcJudge))
    case R(RecObserve) => Some(R(RecJudge))
    case _ => None
  }

  /** Where a confirmed save continues; every other save ends the process. */
  function AfterSave(p: Proc, move: Move): Proc {
    match move
    case DoBegin => p.(pc := C(CoordPut))
    case DoDrain => p.(pc := C(CoordLoop))
    case DoHeartbeat => p.(pc := R(RecMain))
    case DoRetireGc => p.(pc := R(RecReload))
    case DoSeal => p.(pc := R(RecSealed))
    case DoRestore => p.(pc := R(RecPut))
    case DoClaim => p.(pc := K(WorkCheck), opId := if p.copy.operation.Some? then Some(p.copy.operation.value.id) else None)
    case DoGcClaim => p.(pc := G(GcHolding))
    case _ => p.(pc := Stopped)
  }

  function Saves(p: Proc, move: Move, to: State): Proc {
    p.(pc := Saving(move), copy := to)
  }

  /** The points at which a process computes locally before its next API call. */
  predicate Decides(pc: Pc) {
    match pc
    case C(c) => c.CoordCheck? || c.CoordUnknownSave? || c.CoordPauseSave? || c.CoordLoop? || c.CoordDrainCheck? || c.CoordGcCheck? || c.CoordTimeoutSave?
    case R(r) => r.RecCheck? || r.RecBeat? || r.RecGc? || r.RecGcJudge? || r.RecPhase? || r.RecJudge? || r.RecRetire? || r.RecUnknownSave? || r.RecDoneSave?
    case K(k) => k.WorkLoop? || k.WorkJudge? || k.WorkCheckJudge?
    case G(g) => g.GcGate? || g.GcJudge?
    case _ => false
  }

  predicate Probes(pc: Pc) {
    match pc
    case C(c) => c.CoordBaseline? || c.CoordConfirm? || c.CoordRunner?
    case R(r) => r.RecProbe? || r.RecConfirm?
    case _ => false
  }

  predicate Puts(pc: Pc) {
    pc == C(CoordPut) || pc == R(RecPut)
  }

  function Next(me: Identity, p: Proc, now: int): Proc {
    match p.pc
    case C(c) => CoordinatorNext(me, p, c, now)
    case R(r) => RecoveryNext(me, p, r, now)
    case K(k) => WorkerNext(me, p, k, now)
    case G(g) => CollectorNext(me, p, g, now)
    case _ => p.(pc := Stopped)
  }

  function CoordinatorNext(me: Identity, p: Proc, at: CoordPc, now: int): Proc {
    var s := p.copy;
    match at
    case CoordCheck =>
      if && Closed(s.phase)
         && 0 <= now - s.heartbeat <= 150 && now + 2700 < TOKEN_EXPIRY
         && (s.operation.Some? ==>
               && s.operation.value.slot < p.slot && s.operation.value.holder.Some?
               && s.operation.value.holder.value in p.ev.terminal)
      then p.(pc := C(CoordBaseline)) else p.(pc := Stopped)
    case CoordUnknownSave =>
      if s.operation.Some? then Saves(p, DoUnknownPause, LatchUnknown(s, UnknownPauseWrite)) else p.(pc := Stopped)
    case CoordPauseSave =>
      if s.phase == PAUSE_INTENT && s.operation.Some? && s.operation.value.coordinator == me
      then Saves(p, DoDrain, StartDrain(s)) else p.(pc := Stopped)
    case CoordLoop => if now < p.slot + 1200 then p.(pc := C(CoordDrainRead)) else p.(pc := C(CoordTimeoutRead))
    case CoordDrainCheck =>
      if s.phase == DRAINING && s.operation.Some? && s.operation.value.coordinator == me
      then p.(pc := C(CoordDrainObserve)) else p.(pc := Stopped)
    case CoordGcCheck =>
      if s.gcHolder.None? || s.gcHolder.value.identity in p.ev.terminal then p.(pc := C(CoordRunner)) else p.(pc := C(CoordLoop))
    case CoordTimeoutSave =>
      if s.phase == DRAINING && s.operation.Some? then Saves(p, DoCloseDrain, CloseDrain(s)) else p.(pc := Stopped)
    case _ => p.(pc := Stopped)
  }

  function RecoveryNext(me: Identity, p: Proc, at: RecPc, now: int): Proc {
    var s := p.copy;
    match at
    case RecCheck => if s.phase == ALERT then p.(pc := Stopped) else p.(pc := R(RecProbe))
    case RecBeat => Saves(p, DoHeartbeat, s.(heartbeat := now))
    case RecGc => if s.gcHolder.Some? then p.(pc := R(RecGcObserve)) else p.(pc := R(RecPhase))
    case RecGcJudge =>
      if s.gcHolder.None? then p.(pc := Stopped)
      else if s.gcHolder.value.identity in p.ev.terminal then Saves(p, DoRetireGc, s.(gcHolder := None))
      else if now >= s.gcHolder.value.claimedAt + 2700 then Saves(p, DoGcAlert, RaiseAlert(s, GcHorizonExceeded))
      else p.(pc := Stopped)
    case RecPhase => if Closed(s.phase) || s.operation.None? then p.(pc := Stopped) else p.(pc := R(RecObserve))
    case RecJudge => if s.operation.None? then p.(pc := Stopped) else Judge(p, s, s.operation.value, now)
    case RecRetire => if s.operation.None? then p.(pc := Stopped) else Conclude(me, p, s, s.operation.value)
    case RecUnknownSave =>
      if s.operation.Some? then Saves(p, DoUnknownRestore, LatchUnknown(s, UnknownRestoreWrite)) else p.(pc := Stopped)
    case RecDoneSave =>
      if s.phase == RESTORING && s.operation.Some? && s.operation.value.holder == Some(me)
      then Saves(p, DoFinish, Finish(s)) else p.(pc := Stopped)
    case _ => p.(pc := Stopped)
  }

  /** The phase's own wait is not over. */
  predicate MustWait(s: State, op: Operation, ev: Evidence, now: int) {
    || ((s.phase.PAUSE_INTENT? || s.phase.DRAINING?) && now < op.drainBy && op.coordinator !in ev.terminal)
    || ((s.phase.ADMITTED? || s.phase.CLAIMED?) && now < op.cleanupBy
        && !(op.claimed && op.worker.Some? && op.worker.value in ev.terminal))
  }

  function Judge(p: Proc, s: State, op: Operation, now: int): Proc {
    if now >= op.recoverBy then Saves(p, DoHorizonAlert, RaiseAlert(s, RecoveryHorizonExceeded))
    else if MustWait(s, op, p.ev, now) then p.(pc := Stopped)
    else if s.phase != RESTORING then Saves(p, DoSeal, Seal(s))
    else p.(pc := R(RecRetire))
  }

  /** Every Pod that could still act on the operation is retired. */
  predicate OwnersRetired(op: Operation, ev: Evidence) {
    && op.coordinator in ev.terminal
    && (op.claimed ==> op.worker.Some? && op.worker.value in ev.terminal)
    && (op.holder.Some? ==> op.holder.value in ev.terminal)
  }

  function Conclude(me: Identity, p: Proc, s: State, op: Operation): Proc
    requires s.operation == Some(op)
  {
    if !OwnersRetired(op, p.ev) then p.(pc := Stopped)
    else if op.write != NoWrite then Saves(p, DoUnresolvedAlert, RaiseAlert(s, UnresolvedRemoteWrite))
    else Saves(p, DoRestore, BeginRestore(s, me, RestoredOutcome(op, p.ev)))
  }

  function WorkerNext(me: Identity, p: Proc, at: WorkPc, now: int): Proc {
    var s := p.copy;
    match at
    case WorkLoop => if now < p.slot then p.(pc := K(WorkRead)) else p.(pc := Stopped)
    case WorkJudge =>
      if s.operation.Some? && s.operation.value.worker == Some(me) then
        if now >= s.operation.value.cleanupBy then p.(pc := Stopped)
        else if s.phase == ADMITTED then
          if s.gcHolder.None? then Saves(p, DoClaim, Claim(s)) else p.(pc := Stopped)
        else if s.phase == PAUSE_INTENT || s.phase == DRAINING then p.(pc := K(WorkLoop))
        else p.(pc := Stopped)
      else if s.phase == ALERT || s.phase == CLOSING || s.phase == RESTORING then p.(pc := Stopped)
      else p.(pc := K(WorkLoop))
    case WorkCheckJudge => if FenceHolds(me, p, now) then p.(pc := K(Working)) else p.(pc := Stopped)
    case _ => p.(pc := Stopped)
  }

  function CollectorNext(me: Identity, p: Proc, at: GcPc, now: int): Proc {
    var s := p.copy;
    match at
    case GcGate => p.(pc := G(GcRead))
    case GcJudge =>
      if Closed(s.phase) && s.gcHolder.None?
      then Saves(p, DoGcClaim, s.(gcHolder := Some(GcHolder(me, now)))) else p.(pc := Stopped)
    case _ => p.(pc := Stopped)
  }

  /** `WorkerFence.check`. */
  predicate FenceHolds(me: Identity, p: Proc, now: int) {
    && p.copy.phase == CLAIMED && p.copy.operation.Some?
    && var op := p.copy.operation.value;
       Some(op.id) == p.opId && op.worker == Some(me) && op.claimed && op.write == NoWrite && now < op.cleanupBy
  }

  /** A GET of the runner switch; `ok` is false when the request failed. */
  function AfterProbe(me: Identity, p: Proc, paused: bool, ok: bool, now: int): Proc {
    var s := p.copy;
    match p.pc
    case C(CoordBaseline) => if ok && !paused then Saves(p, DoBegin, Begin(s, p.slot, me)) else p.(pc := Stopped)
    case C(CoordConfirm) => if ok && paused then p.(pc := C(CoordPauseRead)) else p.(pc := C(CoordUnknown))
    case C(CoordRunner) => if !ok then p.(pc := Stopped) else if paused then p.(pc := C(CoordSelect)) else p.(pc := C(CoordLoop))
    case R(RecProbe) =>
      if ok && now + 60 < TOKEN_EXPIRY then p.(pc := R(RecBeat))
      else if s.operation.Some? && s.phase != DONE then Saves(p, DoProbeAlert, RaiseAlert(s, RecoveryUnavailable))
      else p.(pc := Stopped)
    case R(RecConfirm) =>
      if ok && s.operation.Some? && paused == s.operation.value.baseline then p.(pc := R(RecDone)) else p.(pc := R(RecUnknown))
    case _ => p.(pc := Stopped)
  }

  /** One drain iteration after the runner was seen paused: `quiet` is whether no accepted job is
      active, and the snapshot's CI Pods must be idle as well. */
  function AfterSelect(p: Proc, quiet: bool, workers: seq<Identity>): Proc {
    if !(quiet && p.ev.idle) || |workers| == 0 then p.(pc := C(CoordLoop))
    else if |workers| > 1 || p.copy.operation.None? then p.(pc := Stopped)
    else Saves(p, DoAdmit, Admit(p.copy, workers[0]))
  }

  // ----------------------------------------------------------------- world steps

  predicate Running(w: World, me: Identity) {
    me in w.procs && w.procs[me].pc != Stopped
  }

  function With(w: World, me: Identity, p: Proc): World {
    w.(procs := w.procs[me := p])
  }

  function NewClaims(s: State): set<ClaimRecord> {
    if s.operation.Some? && s.operation.value.claimed && s.operation.value.worker.Some?
    then {ClaimRecord(s.operation.value.id, s.operation.value.worker.value)} else {}
  }

  function NewGcClaims(s: State): set<Identity> {
    if s.gcHolder.Some? then {s.gcHolder.value.identity} else {}
  }

  function Commit(w: World, to: State): World {
    w.(version := w.version + 1, state := to,
       claims := w.claims + NewClaims(to), gcClaims := w.gcClaims + NewGcClaims(to))
  }

  function StartOf(kind: Kind): Pc {
    match kind
    case Coordinator => C(CoordObserve)
    case Recovery => R(RecRead)
    case Worker => K(WorkLoop)
    case Collector => G(GcGate)
  }

  function HomeOf(kind: Kind): Namespace {
    if kind == Coordinator || kind == Recovery then CONTROL else WORKER
  }

  /** Pod evidence is sound: what a snapshot proves retired is retired. */
  predicate Sound(w: World, pods: seq<Pod>) {
    EvidenceOf(pods).terminal <= w.retired
  }

  predicate Enabled(w: World, l: Label) {
    match l
    case Spawn(me, kind) =>
      && ValidIdentity(me) && me.namespace == HomeOf(kind) && me !in w.procs && me !in w.retired
    case Crash(me) => me in w.procs
    case Retire(me) => true
    case Tick(later) => w.now <= later
    case LateCommit(x) => x in w.late && x.ver == w.version
    case Land(v) => v in w.inflight
    case Schedule(me, pods, slot) =>
      Running(w, me) && w.procs[me].pc == C(CoordObserve) && Sound(w, pods) && ScheduledSlot(slot)
    case Observe(me, pods) => Running(w, me) && AfterObserve(w.procs[me].pc).Some? && Sound(w, pods)
    case Read(me) => Running(w, me) && AfterRead(w.procs[me].pc).Some?
    case Decide(me) => Running(w, me) && Decides(w.procs[me].pc)
    case Save(me) => Running(w, me) && w.procs[me].pc.Saving?
    case SaveError(me) => Running(w, me) && w.procs[me].pc.Saving?
    case ReadBack(me) => Running(w, me) && w.procs[me].pc.ReadingBack?
    case Probe(me, ok) =>
      Running(w, me) && Probes(w.procs[me].pc)
    case PutRunner(me, ok) =>
      Running(w, me) && Puts(w.procs[me].pc) && w.procs[me].copy.operation.Some?
    case Select(me, quiet, workers) =>
      && Running(w, me) && w.procs[me].pc == C(CoordSelect)
      && forall i :: i in workers ==> ValidIdentity(i) && i.namespace == WORKER
    case Recheck(me) => Running(w, me) && w.procs[me].pc == K(Working)
  }

  function SaveStep(w: World, me: Identity, p: Proc): World
    requires p.pc.Saving?
  {
    if !Valid(p.copy) || p.ver != w.version then With(w, me, p.(pc := Stopped))
    else With(Commit(w, p.copy), me, p.(pc := ReadingBack(p.pc.move)))
  }

  function PutStep(w: World, me: Identity, p: Proc, ok: bool): World
    requires Puts(p.pc) && p.copy.operation.Some?
  {
    var op := p.copy.operation.value;
    var pause := p.pc == C(CoordPut);
    var value := if pause then true else op.baseline;
    var next := if ok then (if pause then C(CoordConfirm) else R(RecConfirm)) else (if pause then C(CoordUnknown) else R(RecUnknown));
    With(w, me, p.(pc := next)).(
      paused := if ok then value else w.paused,
      inflight := if ok then w.inflight else w.inflight + multiset{value},
      puts := w.puts + [Put(op.id, if pause then PausePut else RestorePut, me, ok)])
  }

  function Apply(w: World, l: Label): World
    requires Enabled(w, l)
  {
    match l
    case Spawn(me, kind) =>
      With(w, me, Proc(kind, StartOf(kind), 0, w.state, Evidence({}, {}, false), w.now + 1200, None))
    case Crash(me) => With(w, me, w.procs[me].(pc := Stopped))
    case Retire(me) =>
      (if me in w.procs then With(w, me, w.procs[me].(pc := Stopped)) else w).(retired := w.retired + {me})
    case Tick(later) => w.(now := later)
    case LateCommit(x) => if Valid(x.next) then Commit(w, x.next) else w
    case Land(v) => w.(paused := v, inflight := w.inflight - multiset{v})
    case Schedule(me, pods, slot) =>
      var p := w.procs[me];
      if 0 <= w.now - slot <= 90 then With(w, me, p.(pc := C(CoordRead), ev := EvidenceOf(pods), slot := slot))
      else With(w, me, p.(pc := Stopped))
    case Observe(me, pods) =>
      var p := w.procs[me];
      With(w, me, p.(pc := AfterObserve(p.pc).value, ev := EvidenceOf(pods)))
    case Read(me) =>
      var p := w.procs[me];
      With(w, me, p.(pc := AfterRead(p.pc).value, ver := w.version, copy := w.state))
    case Decide(me) => With(w, me, Next(me, w.procs[me], w.now))
    case Save(me) => SaveStep(w, me, w.procs[me])
    case SaveError(me) =>
      var p := w.procs[me];
      With(w, me, p.(pc := Stopped)).(late := w.late + {Write(p.ver, p.copy, me, p.pc.move)})
    case ReadBack(me) =>
      var p := w.procs[me];
      With(w, me, if w.state == p.copy then AfterSave(p, p.pc.move) else p.(pc := Stopped))
    case Probe(me, ok) => With(w, me, AfterProbe(me, w.procs[me], w.paused, ok, w.now))
    case PutRunner(me, ok) => PutStep(w, me, w.procs[me], ok)
    case Select(me, quiet, workers) => With(w, me, AfterSelect(w.procs[me], quiet, workers))
    case Recheck(me) => With(w, me, w.procs[me].(pc := K(WorkCheck)))
  }

  /** Operator bootstrap: phase IDLE, no operation, no GC holder, nothing in flight. */
  predicate Initial(w: World) {
    && w.state.phase == IDLE && w.state.operation.None? && w.state.gcHolder.None? && w.state.heartbeat >= 0
    && w.late == {} && w.inflight == multiset{} && w.procs == map[] && w.now >= 0
    && w.puts == [] && w.claims == {} && w.gcClaims == {}
  }

  /** A run: a world before the first and after each label. */
  predicate IsRun(ws: seq<World>, ls: seq<Label>) {
    && |ws| == |ls| + 1
    && forall k :: 0 <= k < |ls| ==> Enabled(ws[k], ls[k]) && ws[k + 1] == Apply(ws[k], ls[k])
  }

  /** A run from bootstrap. */
  predicate IsExecution(ws: seq<World>, ls: seq<Label>) {
    IsRun(ws, ls) && Initial(ws[0])
  }
}
