/** The durable state of the CI maintenance protocol (one ConfigMap) and the state
    changes the four kinds of process build before each compare-and-swap. */
module AdmissionState {
  import opened Pods

  datatype Phase = IDLE | PAUSE_INTENT | DRAINING | ADMITTED | CLAIMED | CLOSING | RESTORING | DONE | ALERT

  /** The durable intent for the remote runner switch. */
  datatype Intent = NoWrite | PauseWrite | RestoreWrite | UnknownWrite

  datatype Outcome =
    | PauseIntended | AdmittedWorker | DrainTimedOut | WorkerUnclaimed | CoordinatorFailed
    | CleanupSucceeded | CleanupFailed
    | UnknownPauseWrite | UnknownRestoreWrite | UnresolvedRemoteWrite
    | RecoveryUnavailable | GcHorizonExceeded | RecoveryHorizonExceeded

  /** SHA-256 of slot, coordinator UID and policy, as an injective function of the first
      two (the policy is fixed for the life of the ConfigMap). */
  datatype OpId = OpId(slot: int, uid: string)

  datatype Operation = Operation(
    id: OpId, slot: int, coordinator: Identity, worker: Option<Identity>, claimed: bool,
    holder: Option<Identity>, baseline: bool, restoreRequired: bool, write: Intent,
    drainBy: int, cleanupBy: int, recoverBy: int, outcome: Outcome, restored: bool)

  datatype GcHolder = GcHolder(identity: Identity, claimedAt: int)

  datatype State = State(heartbeat: int, phase: Phase, operation: Option<Operation>, gcHolder: Option<GcHolder>)

  /** No operation is in progress. */
  predicate Closed(phase: Phase) {
    phase == IDLE || phase == DONE
  }

  // ------------------------------------------------------------------ validation

  predicate ScheduledSlot(slot: int) {
    slot % 3600 == 47 * 60
  }

  predicate ValidOperation(op: Operation) {
    && ValidIdentity(op.coordinator) && op.coordinator.namespace == CONTROL
    && (op.worker.Some? ==> ValidIdentity(op.worker.value) && op.worker.value.namespace == WORKER)
    && (op.holder.Some? ==> ValidIdentity(op.holder.value) && op.holder.value.namespace == CONTROL)
    && !op.baseline && op.restoreRequired
    && ScheduledSlot(op.slot)
    && op.drainBy == op.slot + 1200 && op.cleanupBy == op.slot + 1800 && op.recoverBy == op.slot + 2700
    && op.id == OpId(op.slot, op.coordinator.uid)
    && (op.claimed ==> op.worker.Some?)
  }

  /** `validate`, run on every read and before every save. */
  predicate Valid(s: State) {
    && s.heartbeat >= 0
    && (s.gcHolder.Some? ==>
          && s.gcHolder.value.claimedAt >= 0
          && ValidIdentity(s.gcHolder.value.identity) && s.gcHolder.value.identity.namespace == WORKER)
    && match s.operation
       case None => s.phase in {IDLE, ALERT}
       case Some(op) =>
         && ValidOperation(op)
         && (s.phase in {ADMITTED, CLAIMED} ==> op.worker.Some? && op.write == NoWrite)
         && (s.phase == CLAIMED ==> op.claimed)
         && (s.phase == DONE ==> op.restored && op.write == NoWrite)
  }

  /** A Pod of `namespace`, each of its names between 1 and 256 characters. */
  ghost predicate NamedIn(i: Identity, namespace: Namespace) {
    && i.namespace == namespace && 0 < |i.name| <= 256 && 0 < |i.uid| <= 256 && 0 < |i.job| <= 256 && 0 < |i.jobUid| <= 256
  }

  /** The contract of a stored state, in full. */
  ghost predicate WellFormed(s: State) {
    && s.heartbeat >= 0
    && (s.gcHolder.Some? ==> s.gcHolder.value.claimedAt >= 0 && NamedIn(s.gcHolder.value.identity, WORKER))
    && (s.operation.None? ==> s.phase == IDLE || s.phase == ALERT)
    && (s.operation.Some? ==>
          var op := s.operation.value;
          && NamedIn(op.coordinator, CONTROL) && (op.worker.Some? ==> NamedIn(op.worker.value, WORKER))
          && (op.holder.Some? ==> NamedIn(op.holder.value, CONTROL))
          && !op.baseline && op.restoreRequired && op.slot % 3600 == 2820
          && op.drainBy == op.slot + 1200 && op.cleanupBy == op.slot + 1800 && op.recoverBy == op.slot + 2700
          && op.id.slot == op.slot && op.id.uid == op.coordinator.uid && (op.claimed ==> op.worker.Some?)
          && (s.phase == ADMITTED || s.phase == CLAIMED ==> op.worker.Some? && op.write == NoWrite)
          && (s.phase == CLAIMED ==> op.claimed) && (s.phase == DONE ==> op.restored && op.write == NoWrite))
  }

  lemma ValidIff(s: State)
    ensures Valid(s) <==> WellFormed(s)
  {
  }

  // ----------------------------------------------------------------- state changes

  function NewOperation(slot: int, coordinator: Identity): Operation {
    Operation(OpId(slot, coordinator.uid), slot, coordinator, None, false, None, false, true, PauseWrite,
              slot + 1200, slot + 1800, slot + 2700, PauseIntended, false)
  }

  function WithOp(s: State, phase: Phase, op: Operation): State {
    s.(phase := phase, operation := Some(op))
  }

  function Begin(s: State, slot: int, me: Identity): State {
    WithOp(s, PAUSE_INTENT, NewOperation(slot, me))
  }

  function StartDrain(s: State): State
    requires s.operation.Some?
  {
    WithOp(s, DRAINING, s.operation.value.(write := NoWrite))
  }

  function Admit(s: State, worker: Identity): State
    requires s.operation.Some?
  {
    WithOp(s, ADMITTED, s.operation.value.(worker := Some(worker), outcome := AdmittedWorker)).(gcHolder := None)
  }

  function CloseDrain(s: State): State
    requires s.operation.Some?
  {
    WithOp(s, CLOSING, s.operation.value.(outcome := DrainTimedOut))
  }

  function RaiseAlert(s: State, reason: Outcome): State {
    match s.operation
    case None => s.(phase := ALERT)
    case Some(op) => WithOp(s, ALERT, op.(outcome := reason))
  }

  function LatchUnknown(s: State, reason: Outcome): State
    requires s.operation.Some?
  {
    RaiseAlert(s.(operation := Some(s.operation.value.(write := UnknownWrite))), reason)
  }

  function Seal(s: State): State {
    s.(phase := CLOSING)
  }

  function RestoredOutcome(op: Operation, ev: Evidence): Outcome {
    if op.claimed then
      if op.worker.Some? && op.worker.value in ev.succeeded then CleanupSucceeded else CleanupFailed
    else if op.outcome == AdmittedWorker then WorkerUnclaimed
    else if op.outcome == PauseIntended then CoordinatorFailed
    else op.outcome
  }

  function BeginRestore(s: State, me: Identity, outcome: Outcome): State
    requires s.operation.Some?
  {
    WithOp(s, RESTORING, s.operation.value.(holder := Some(me), write := RestoreWrite, outcome := outcome))
  }

  function Finish(s: State): State
    requires s.operation.Some?
  {
    WithOp(s, DONE, s.operation.value.(write := NoWrite, restored := true))
  }

  function Claim(s: State): State
    requires s.operation.Some?
  {
    WithOp(s, CLAIMED, s.operation.value.(claimed := true))
  }

  // -------------------------------------------------------------------- coherence

  /** The facts every stored state has beyond `validate`. */
  predicate CoherentOperation(phase: Phase, op: Operation) {
    && phase != IDLE
    && (phase == PAUSE_INTENT ==> op.write == PauseWrite)
    && (phase in {DRAINING, ADMITTED, CLAIMED} ==> op.write == NoWrite && !op.restored)
    && (phase in {PAUSE_INTENT, DRAINING, ADMITTED} ==> !op.claimed)
    && (phase == RESTORING ==> op.write == RestoreWrite)
    && (op.write == PauseWrite ==> !op.claimed && op.holder.None? && !op.restored && phase in {PAUSE_INTENT, CLOSING, ALERT})
    && (op.write == RestoreWrite ==> op.holder.Some? && phase in {RESTORING, CLOSING, ALERT})
    && (op.write == UnknownWrite ==> phase in {CLOSING, ALERT})
    && (op.restored ==> op.holder.Some? && phase in {DONE, CLOSING, RESTORING, ALERT})
    && (op.holder.Some? ==> op.restored || op.write in {RestoreWrite, UnknownWrite})
  }

  predicate Coherent(s: State) {
    && Valid(s)
    && (s.phase in {ADMITTED, CLAIMED} ==> s.gcHolder.None?)
    && (s.operation.Some? ==> CoherentOperation(s.phase, s.operation.value))
  }

  /** The tags of the seventeen distinct saves in the scripts. */
  datatype Move =
    | DoBegin | DoDrain | DoAdmit | DoCloseDrain | DoUnknownPause
    | DoHeartbeat | DoProbeAlert | DoRetireGc | DoGcAlert | DoHorizonAlert
    | DoSeal | DoUnresolvedAlert | DoRestore | DoUnknownRestore | DoFinish
    | DoClaim | DoGcClaim

  /** The static part of a save: what the process may build from the state it read. */
  ghost predicate Builds(move: Move, me: Identity, s: State, t: State) {
    match move
    case DoBegin =>
      && s.phase in {IDLE, DONE} && t.operation.Some?
      && ScheduledSlot(t.operation.value.slot) && t == Begin(s, t.operation.value.slot, me)
      && (s.operation.Some? ==> s.operation.value.slot < t.operation.value.slot && s.operation.value.holder.Some?)
      && me.namespace == CONTROL
    case DoDrain =>
      s.phase == PAUSE_INTENT && s.operation.Some? && s.operation.value.coordinator == me && t == StartDrain(s)
    case DoAdmit =>
      && s.phase == DRAINING && s.operation.Some? && s.operation.value.coordinator == me
      && t.operation.Some? && t.operation.value.worker.Some?
      && var worker := t.operation.value.worker.value;
         ValidIdentity(worker) && worker.namespace == WORKER && t == Admit(s, worker)
    case DoCloseDrain =>
      s.phase == DRAINING && s.operation.Some? && t == CloseDrain(s)
    case DoUnknownPause =>
      && s.operation.Some? && s.operation.value.coordinator == me && s.operation.value.write == PauseWrite
      && t == LatchUnknown(s, UnknownPauseWrite)
    case DoHeartbeat => s.phase != ALERT && t.heartbeat >= 0 && t == s.(heartbeat := t.heartbeat)
    case DoProbeAlert => s.operation.Some? && s.phase !in {DONE, ALERT} && t == RaiseAlert(s, RecoveryUnavailable)
    case DoRetireGc => s.gcHolder.Some? && t == s.(gcHolder := None)
    case DoGcAlert => s.gcHolder.Some? && t == RaiseAlert(s, GcHorizonExceeded)
    case DoHorizonAlert =>
      s.operation.Some? && s.phase !in {IDLE, DONE} && t == RaiseAlert(s, RecoveryHorizonExceeded)
    case DoSeal => s.operation.Some? && s.phase !in {IDLE, DONE, RESTORING} && t == Seal(s)
    case DoUnresolvedAlert =>
      s.operation.Some? && s.operation.value.write != NoWrite && t == RaiseAlert(s, UnresolvedRemoteWrite)
    case DoRestore =>
      && s.operation.Some? && s.operation.value.write == NoWrite && me.namespace == CONTROL
      && t.operation.Some? && t == BeginRestore(s, me, t.operation.value.outcome)
    case DoUnknownRestore =>
      && s.operation.Some? && s.operation.value.holder == Some(me) && s.operation.value.write == RestoreWrite
      && t == LatchUnknown(s, UnknownRestoreWrite)
    case DoFinish =>
      s.phase == RESTORING && s.operation.Some? && s.operation.value.holder == Some(me) && t == Finish(s)
    case DoClaim =>
      && s.phase == ADMITTED && s.gcHolder.None? && s.operation.Some?
      && s.operation.value.worker == Some(me) && t == Claim(s)
    case DoGcClaim =>
      && s.phase in {IDLE, DONE} && s.gcHolder.None? && t.gcHolder.Some? && me.namespace == WORKER
      && t.gcHolder.value.identity == me && t.gcHolder.value.claimedAt >= 0 && t == s.(gcHolder := t.gcHolder)
  }

  /** The saves that put another operation, or another write or owner, in place. */
  predicate Settles(move: Move) {
    move.DoBegin? || move.DoDrain? || move.DoAdmit? || move.DoRestore? || move.DoFinish? || move.DoClaim?
  }

  lemma SettlingKeepsCoherent(move: Move, me: Identity, s: State, t: State)
    requires Coherent(s) && ValidIdentity(me) && Builds(move, me, s, t) && Settles(move)
    ensures Coherent(t)
  {
  }

  lemma OtherSavesKeepCoherent(move: Move, me: Identity, s: State, t: State)
    requires Coherent(s) && ValidIdentity(me) && Builds(move, me, s, t) && !Settles(move)
    ensures Coherent(t)
  {
    hide ScheduledSlot; hide ValidIdentity;
  }

  /** `validate` is inductive: every save built from a coherent state is coherent, hence
      passes the validation that precedes the PUT. */
  lemma BuildsKeepsCoherent(move: Move, me: Identity, s: State, t: State)
    requires Coherent(s) && ValidIdentity(me) && Builds(move, me, s, t)
    ensures Coherent(t)
  {
    hide Coherent; hide Builds; hide ValidIdentity;
    if Settles(move) { SettlingKeepsCoherent(move, me, s, t); } else { OtherSavesKeepCoherent(move, me, s, t); }
  }

  /** Mere validity is not enough, and exactly how: of the seventeen saves only admission can
      build an invalid state from a valid one, and it does so exactly when the pause it follows
      is unresolved. */
  lemma ValidSaveIff(move: Move, me: Identity, s: State, t: State)
    requires Valid(s) && ValidIdentity(me) && Builds(move, me, s, t)
    ensures Valid(t) <==> (move.DoAdmit? ==> s.operation.value.write == NoWrite)
  {
    hide ScheduledSlot;
  }

  /** Such a state exists: valid, draining, its pause unresolved. */
  lemma ValidIsNotInductive(coordinator: Identity, worker: Identity) returns (s: State)
    requires ValidIdentity(coordinator) && coordinator.namespace == CONTROL
    requires ValidIdentity(worker) && worker.namespace == WORKER
    ensures Valid(s) && s.operation.Some? && Builds(DoAdmit, coordinator, s, Admit(s, worker)) && !Valid(Admit(s, worker))
  {
    s := WithOp(State(0, IDLE, None, None), DRAINING, NewOperation(2820, coordinator));
  }

  /** What no save may do to the operation in place. */
  ghost predicate Continues(s: State, t: State) {
    match s.operation
    case None => true
    case Some(a) =>
      && t.operation.Some?
      && var b := t.operation.value;
         && a.slot <= b.slot
         && (a.slot < b.slot ==> s.phase == DONE)
         && (a.slot == b.slot ==>
               && b.id == a.id && b.coordinator == a.coordinator
               && (a.claimed ==> b.claimed && b.worker == a.worker)
               && (a.restored ==> b.restored)
               && (a.write == UnknownWrite ==> b.write == UnknownWrite)
               && (Sealed(s.phase) ==> Sealed(t.phase) && b.claimed == a.claimed))
  }

  /** The phases from which a claim can no longer succeed. */
  predicate Sealed(phase: Phase) {
    phase in {CLOSING, RESTORING, DONE, ALERT}
  }

  lemma BuildsContinues(move: Move, me: Identity, s: State, t: State)
    requires Coherent(s) && Builds(move, me, s, t)
    ensures Continues(s, t)
    ensures s.operation.Some? && s.operation.value.write == UnknownWrite ==>
              t.operation.Some? && t.operation.value.slot == s.operation.value.slot && t.phase in {ALERT, CLOSING}
  {
  }
}
