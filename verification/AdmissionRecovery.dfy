/** An uncontended recovery pass: every API call succeeds and no other process acts. The
    small steps of the protocol then compute one function of the stored state. */
module AdmissionRecovery {
  import opened Pods
  import opened AdmissionState
  import opened AdmissionProtocol

  // ----------------------------------------------------------------------- reachability

  ghost predicate Reaches(w: World, v: World) {
    exists ws, ls :: IsRun(ws, ls) && ws[0] == w && ws[|ls|] == v
  }

  lemma ReachRefl(w: World)
    ensures Reaches(w, w)
  {
    assert IsRun([w], []);
  }

  lemma ReachTrans(u: World, v: World, w: World)
    requires Reaches(u, v) && Reaches(v, w)
    ensures Reaches(u, w)
  {
    hide Enabled; hide Apply;
    var ws, ls :| IsRun(ws, ls) && ws[0] == u && ws[|ls|] == v;
    var xs, ks :| IsRun(xs, ks) && xs[0] == v && xs[|ks|] == w;
    var ws', ls' := ws + xs[1..], ls + ks;
    forall k | 0 <= k < |ls'| ensures Enabled(ws'[k], ls'[k]) && ws'[k + 1] == Apply(ws'[k], ls'[k]) {
      if k < |ls| {
        assert ws'[k] == ws[k] && ws'[k + 1] == ws[k + 1] && ls'[k] == ls[k];
      } else {
        var j := k - |ls|;
        assert ws'[k] == xs[j] && ws'[k + 1] == xs[j + 1] && ls'[k] == ks[j];
      }
    }
    assert IsRun(ws', ls');
  }

  lemma ReachStep(w: World, v: World, l: Label)
    requires Reaches(w, v) && Enabled(v, l)
    ensures Reaches(w, Apply(v, l))
  {
    hide Enabled; hide Apply;
    var ws, ls :| IsRun(ws, ls) && ws[0] == w && ws[|ls|] == v;
    var ws', ls' := ws + [Apply(v, l)], ls + [l];
    forall k | 0 <= k < |ls'| ensures Enabled(ws'[k], ls'[k]) && ws'[k + 1] == Apply(ws'[k], ls'[k]) {
      if k < |ls| { assert ws'[k] == ws[k] && ws'[k + 1] == ws[k + 1] && ls'[k] == ls[k]; }
    }
    assert IsRun(ws', ls');
  }

  // ------------------------------------------------------------------------- own calls

  /** What a pass sees: one Pod snapshot for the GC holder and one for the operation, and the
      clock at each point it comes to. */
  datatype Sight = Sight(gc: seq<Pod>, open: seq<Pod>, clock: Pc -> int)

  function SeenAt(pc: Pc, sight: Sight): seq<Pod> {
    if pc == R(RecGcObserve) then sight.gc else sight.open
  }

  function At(sight: Sight, r: RecPc): int {
    sight.clock(R(r))
  }

  /** A call of `me` that succeeds, or a local decision of `me`. */
  predicate Own(w: World, l: Label, me: Identity, sight: Sight) {
    match l
    case Observe(i, pods) => i == me && me in w.procs && pods == SeenAt(w.procs[me].pc, sight)
    case Read(i) => i == me
    case Decide(i) => i == me
    case Save(i) => i == me
    case ReadBack(i) => i == me
    case Probe(i, ok) => i == me && ok
    case PutRunner(i, ok) => i == me && ok
    case Recheck(i) => i == me
    case _ => false
  }

  /** `v` when its process takes its next step. */
  function Clocked(v: World, me: Identity, sight: Sight): World
    requires me in v.procs
  {
    v.(now := sight.clock(v.procs[me].pc))
  }

  ghost predicate OwnStep(v: World, l: Label, u: World, me: Identity, sight: Sight) {
    && me in v.procs && Enabled(Clocked(v, me, sight), l) && Own(v, l, me, sight)
    && u == Apply(Clocked(v, me, sight), l)
  }

  /** The steps of `me` alone, none of whose calls fails, each at its own instant. */
  ghost predicate Passage(vs: seq<World>, ks: seq<Label>, me: Identity, sight: Sight) {
    |vs| == |ks| + 1 && forall k :: 0 <= k < |ks| ==> OwnStep(vs[k], ks[k], vs[k + 1], me, sight)
  }

  ghost predicate OwnReaches(w: World, v: World, me: Identity, sight: Sight) {
    exists vs, ks :: Passage(vs, ks, me, sight) && vs[0] == w && vs[|ks|] == v
  }

  /** The clock stands still at `t`. */
  ghost predicate Still(sight: Sight, t: int) {
    forall pc :: sight.clock(pc) == t
  }

  lemma {:induction false} StillPassage(vs: seq<World>, ks: seq<Label>, me: Identity, sight: Sight, k: nat)
    requires Passage(vs, ks, me, sight) && Still(sight, vs[0].now) && k <= |ks|
    ensures vs[k].now == vs[0].now
  {
    hide Enabled; hide Own;
    if k > 0 {
      StillPassage(vs, ks, me, sight, k - 1);
      assert OwnStep(vs[k - 1], ks[k - 1], vs[k], me, sight);
      OwnKeepsTime(Clocked(vs[k - 1], me, sight), ks[k - 1], me, sight);
    }
  }

  lemma OwnKeepsTime(w: World, l: Label, me: Identity, sight: Sight)
    requires Enabled(w, l) && Own(w, l, me, sight)
    ensures Apply(w, l).now == w.now && Apply(w, l).procs.Keys == w.procs.Keys
  {
    hide EvidenceOf; hide Next; hide AfterProbe; hide AfterSave; hide Valid;
  }

  /** With the clock still, a passage is a run of the protocol. */
  lemma OwnIsRun(w: World, v: World, me: Identity, sight: Sight)
    requires OwnReaches(w, v, me, sight) && Still(sight, w.now)
    ensures Reaches(w, v)
  {
    hide Enabled; hide Apply; hide Own;
    var vs, ks :| Passage(vs, ks, me, sight) && vs[0] == w && vs[|ks|] == v;
    forall k | 0 <= k < |ks| ensures Enabled(vs[k], ks[k]) && vs[k + 1] == Apply(vs[k], ks[k]) {
      StillPassage(vs, ks, me, sight, k);
      assert OwnStep(vs[k], ks[k], vs[k + 1], me, sight);
      assert Clocked(vs[k], me, sight) == vs[k];
    }
    assert IsRun(vs, ks);
  }

  lemma OwnRefl(w: World, me: Identity, sight: Sight)
    ensures OwnReaches(w, w, me, sight)
  {
    assert Passage([w], [], me, sight);
  }

  lemma OwnMore(w: World, v: World, l: Label, me: Identity, sight: Sight)
    requires OwnReaches(w, v, me, sight) && me in v.procs && Enabled(Clocked(v, me, sight), l) && Own(v, l, me, sight)
    ensures OwnReaches(w, Apply(Clocked(v, me, sight), l), me, sight)
  {
    hide Enabled; hide Apply; hide Own;
    var vs, ks :| Passage(vs, ks, me, sight) && vs[0] == w && vs[|ks|] == v;
    var u := Apply(Clocked(v, me, sight), l);
    var vs', ks' := vs + [u], ks + [l];
    forall k | 0 <= k < |ks'| ensures OwnStep(vs'[k], ks'[k], vs'[k + 1], me, sight) {
      if k < |ks| { assert vs'[k] == vs[k] && vs'[k + 1] == vs[k + 1] && ks'[k] == ks[k]; }
    }
    assert Passage(vs', ks', me, sight);
  }

  // --------------------------------------------------------------------- the pass as a function

  datatype Verdict =
    | Latched                              // ALERT: operator reconciliation required
    | AwaitGc(holder: Identity)            // the GC holder's Pod is not retired
    | Alerted(reason: Outcome)
    | TokenExpired                         // nothing was open, so no alert
    | NothingOpen
    | AwaitPhase(pod: Option<Identity>, deadline: int)
    | AwaitOwner(owner: Identity)          // sealed; an owner's Pod is not retired
    | Restored

  datatype Pass = Pass(state: State, verdict: Verdict)

  /** The recovery pass of `me` over state `s`, with what it sees and when. */
  function Recover(s: State, sight: Sight, me: Identity): Pass {
    if s.phase == ALERT then Pass(s, Latched)
    else if At(sight, RecProbe) + 60 >= TOKEN_EXPIRY then
      if s.operation.Some? && s.phase != DONE then Pass(RaiseAlert(s, RecoveryUnavailable), Alerted(RecoveryUnavailable))
      else Pass(s, TokenExpired)
    else
      var s1 := s.(heartbeat := At(sight, RecBeat));
      if s.gcHolder.Some? && s.gcHolder.value.identity !in EvidenceOf(sight.gc).terminal then
        if At(sight, RecGcJudge) >= s.gcHolder.value.claimedAt + 2700 then Pass(RaiseAlert(s1, GcHorizonExceeded), Alerted(GcHorizonExceeded))
        else Pass(s1, AwaitGc(s.gcHolder.value.identity))
      else
        var s2 := s1.(gcHolder := None);
        if Closed(s.phase) || s.operation.None? then Pass(s2, NothingOpen)
        else RecoverOpen(s2, s.operation.value, EvidenceOf(sight.open), me, At(sight, RecJudge))
  }

  function RecoverOpen(s: State, op: Operation, ev: Evidence, me: Identity, now: int): Pass
    requires s.operation == Some(op)
  {
    if now >= op.recoverBy then Pass(RaiseAlert(s, RecoveryHorizonExceeded), Alerted(RecoveryHorizonExceeded))
    else if MustWait(s, op, ev, now) then
      Pass(s, if s.phase == PAUSE_INTENT || s.phase == DRAINING then AwaitPhase(Some(op.coordinator), op.drainBy)
              else AwaitPhase(if op.claimed then op.worker else None, op.cleanupBy))
    else
      var sealed := if s.phase == RESTORING then s else Seal(s);
      if !OwnersRetired(op, ev) then Pass(sealed, AwaitOwner(LiveOwner(op, ev)))
      else if op.write != NoWrite then Pass(RaiseAlert(sealed, UnresolvedRemoteWrite), Alerted(UnresolvedRemoteWrite))
      else Pass(Finish(BeginRestore(sealed, me, RestoredOutcome(op, ev))), Restored)
  }

  /** The first owner in the script's order without a retirement proof. */
  function LiveOwner(op: Operation, ev: Evidence): Identity {
    if op.coordinator !in ev.terminal then op.coordinator
    else if op.claimed && op.worker.Some? && op.worker.value !in ev.terminal then op.worker.value
    else if op.holder.Some? then op.holder.value
    else op.coordinator
  }

  /** A pass never ends in an unnamed place: waiting on a Pod without retirement proof or on
      a deadline ahead at the instant it was judged, in ALERT, with nothing open, with an expired
      token, or in DONE; and whatever it ends in, it has stored no more than that takes. */
  lemma RecoverVerdicts(s: State, sight: Sight, me: Identity)
    requires Coherent(s)
    ensures var r, ended, beat := Recover(s, sight, me), EvidenceOf(sight.open).terminal, s.(heartbeat := sight.clock(R(RecBeat)));
            match r.verdict
            case Latched => r.state == s && s.phase == ALERT
            case AwaitGc(h) =>
              && h !in EvidenceOf(sight.gc).terminal && s.gcHolder.Some? && s.gcHolder.value.identity == h
              && sight.clock(R(RecGcJudge)) < s.gcHolder.value.claimedAt + 2700 && r.state == beat
            case Alerted(reason) =>
              && r.state.phase == ALERT && s.phase != ALERT
              && (s.operation.Some? ==> r.state.operation.Some? && r.state.operation.value.outcome == reason
                                        && r.state.operation.value == s.operation.value.(outcome := reason))
              && (match reason
                 case RecoveryUnavailable => sight.clock(R(RecProbe)) + 60 >= 1825372800 && s.operation.Some? && s.phase != DONE
                 case GcHorizonExceeded =>
                   && s.gcHolder.Some? && s.gcHolder.value.identity !in EvidenceOf(sight.gc).terminal
                   && sight.clock(R(RecGcJudge)) >= s.gcHolder.value.claimedAt + 2700
                 case RecoveryHorizonExceeded => s.operation.Some? && sight.clock(R(RecJudge)) >= s.operation.value.recoverBy
                 case UnresolvedRemoteWrite => s.operation.Some? && s.operation.value.write != NoWrite && s.operation.value.coordinator in ended
                 case _ => false)
            case TokenExpired => r.state == s && (s.phase == IDLE || s.phase == DONE) && sight.clock(R(RecProbe)) + 60 >= 1825372800
            case NothingOpen => (s.phase == IDLE || s.phase == DONE) && r.state == beat.(gcHolder := None)
            case AwaitPhase(pod, deadline) =>
              && s.operation.Some? && sight.clock(R(RecJudge)) < deadline && (pod.Some? ==> pod.value !in ended)
              && r.state == beat.(gcHolder := None)
              && (if s.phase == PAUSE_INTENT || s.phase == DRAINING
                 then pod == Some(s.operation.value.coordinator) && deadline == s.operation.value.drainBy
                 else (s.phase == ADMITTED || s.phase == CLAIMED) && pod == (if s.operation.value.claimed then s.operation.value.worker else None)
                      && deadline == s.operation.value.cleanupBy)
            case AwaitOwner(owner) =>
              && s.operation.Some? && owner !in ended && r.state == beat.(gcHolder := None, phase := if s.phase == RESTORING then RESTORING else CLOSING)
              && (owner == s.operation.value.coordinator || s.operation.value.worker == Some(owner) || s.operation.value.holder == Some(owner))
            case Restored => r.state.phase == DONE && r.state.operation.Some? && r.state.operation.value.restored
  {
    hide EvidenceOf;
  }

  /** Exactly when a pass over an open operation restores it, and what it then records. */
  lemma RestoresIff(s: State, sight: Sight, me: Identity)
    requires Coherent(s) && s.operation.Some?
    ensures var op, ended, now := s.operation.value, EvidenceOf(sight.open).terminal, sight.clock(R(RecJudge));
            Recover(s, sight, me).verdict == Restored <==>
            && s.phase != ALERT && s.phase != IDLE && s.phase != DONE && sight.clock(R(RecProbe)) + 60 < 1825372800
            && (s.gcHolder.Some? ==> s.gcHolder.value.identity in EvidenceOf(sight.gc).terminal)
            && now < op.recoverBy
            && (s.phase == PAUSE_INTENT || s.phase == DRAINING ==> now >= op.drainBy || op.coordinator in ended)
            && (s.phase == ADMITTED || s.phase == CLAIMED ==> now >= op.cleanupBy || (op.claimed && op.worker.value in ended))
            && op.coordinator in ended && (op.claimed ==> op.worker.value in ended)
            && (op.holder.Some? ==> op.holder.value in ended) && op.write == NoWrite
    ensures var op, r := s.operation.value, Recover(s, sight, me);
            r.verdict == Restored ==>
              && r.state == State(sight.clock(R(RecBeat)), DONE, r.state.operation, None) && r.state.operation.Some?
              && var outcome := r.state.operation.value.outcome;
                 && r.state.operation.value == op.(holder := Some(me), restored := true, outcome := outcome)
                 && (op.claimed ==> outcome == if WorkerSucceeded(sight.open, op.worker.value) then CleanupSucceeded else CleanupFailed)
                 && (!op.claimed && op.outcome == AdmittedWorker ==> outcome == WorkerUnclaimed)
                 && (!op.claimed && op.outcome == PauseIntended ==> outcome == CoordinatorFailed)
                 && (!op.claimed && op.outcome != AdmittedWorker && op.outcome != PauseIntended ==> outcome == op.outcome)
  {
    hide EvidenceOf;
    if s.operation.value.claimed && s.operation.value.worker.value in EvidenceOf(sight.open).terminal {
      SucceededIsSeen(sight.open, s.operation.value.worker.value);
    }
  }

  /** Some listed Pod of the worker's name and uid has succeeded. */
  ghost predicate WorkerSucceeded(pods: seq<Pod>, worker: Identity) {
    exists k :: 0 <= k < |pods| && pods[k].namespace == worker.namespace && pods[k].name == worker.name && pods[k].uid == worker.uid
                && pods[k].phase == "Succeeded"
  }

  lemma SucceededIsSeen(pods: seq<Pod>, worker: Identity)
    requires worker in EvidenceOf(pods).terminal
    ensures worker in EvidenceOf(pods).succeeded <==> WorkerSucceeded(pods, worker)
  {
    hide Retired; hide IdentitiesOf;
    if WorkerSucceeded(pods, worker) {
      var k :| 0 <= k < |pods| && pods[k].namespace == worker.namespace && pods[k].name == worker.name && pods[k].uid == worker.uid
               && pods[k].phase == "Succeeded";
      assert pods[k] in pods;
    }
  }

  // --------------------------------------------------------- the pass as a run of the protocol

  /** The pass's process: alone, at program point `pc`, having made the world `v` from `w`. */
  ghost predicate Solo(w: World, v: World, me: Identity, sight: Sight, pc: Pc) {
    && OwnReaches(w, v, me, sight) && me in v.procs && v.procs[me].pc == pc
    && (Still(sight, w.now) ==> v.now == w.now) && v.retired == w.retired && Coherent(v.state) && OthersAsIn(w, v, me)
  }

  /** Every other process is as in `w`. */
  ghost predicate OthersAsIn(w: World, v: World, me: Identity) {
    forall i :: i != me ==> (i in v.procs <==> i in w.procs) && (i in w.procs ==> v.procs[i] == w.procs[i])
  }

  lemma SoloStart(w: World, me: Identity, sight: Sight)
    requires Coherent(w.state) && me in w.procs
    ensures Solo(w, w, me, sight, w.procs[me].pc)
  {
    hide Coherent;
    OwnRefl(w, me, sight);
  }

  /** The reader's copy is the stored state. */
  ghost predicate Fresh(v: World, me: Identity) {
    me in v.procs && v.procs[me].copy == v.state && v.procs[me].ver == v.version
  }

  lemma SoloRead(w: World, v: World, me: Identity, sight: Sight, pc: Pc) returns (u: World)
    requires Solo(w, v, me, sight, pc) && AfterRead(pc).Some?
    ensures Solo(w, u, me, sight, AfterRead(pc).value) && Fresh(u, me)
    ensures u == With(v, me, v.procs[me].(pc := AfterRead(pc).value, ver := v.version, copy := v.state)).(now := sight.clock(pc))
  {
    u := Apply(Clocked(v, me, sight), Read(me));
    OwnMore(w, v, Read(me), me, sight);
    hide OwnReaches; hide Still; hide Coherent; hide AfterRead;
  }

  lemma SoloDecide(w: World, v: World, me: Identity, sight: Sight, pc: Pc) returns (u: World)
    requires Solo(w, v, me, sight, pc) && Decides(pc)
    ensures u == With(v, me, Next(me, v.procs[me], sight.clock(pc))).(now := sight.clock(pc)) && Solo(w, u, me, sight, u.procs[me].pc)
  {
    u := Apply(Clocked(v, me, sight), Decide(me));
    OwnMore(w, v, Decide(me), me, sight);
    hide OwnReaches; hide Still; hide Coherent; hide Next;
  }

  lemma SoloObserve(w: World, v: World, me: Identity, sight: Sight, pc: Pc, pods: seq<Pod>) returns (u: World)
    requires Solo(w, v, me, sight, pc) && AfterObserve(pc).Some? && pods == SeenAt(pc, sight) && Sound(w, pods)
    ensures u == With(v, me, v.procs[me].(pc := AfterObserve(pc).value, ev := EvidenceOf(pods))).(now := sight.clock(pc))
    ensures Solo(w, u, me, sight, AfterObserve(pc).value)
  {
    u := Apply(Clocked(v, me, sight), Observe(me, pods));
    OwnMore(w, v, Observe(me, pods), me, sight);
    hide OwnReaches; hide Still; hide Coherent; hide EvidenceOf;
  }

  lemma SoloProbe(w: World, v: World, me: Identity, sight: Sight, pc: Pc) returns (u: World)
    requires Solo(w, v, me, sight, pc) && Probes(pc)
    ensures u == With(v, me, AfterProbe(me, v.procs[me], v.paused, true, sight.clock(pc))).(now := sight.clock(pc)) && Solo(w, u, me, sight, u.procs[me].pc)
  {
    u := Apply(Clocked(v, me, sight), Probe(me, true));
    OwnMore(w, v, Probe(me, true), me, sight);
    hide OwnReaches; hide Still; hide Coherent; hide AfterProbe;
  }

  /** The commit of a coherent save. */
  lemma SoloCommit(w: World, v: World, me: Identity, sight: Sight, m: Move) returns (u: World)
    requires Solo(w, v, me, sight, Saving(m)) && v.procs[me].ver == v.version && Coherent(v.procs[me].copy)
    ensures Solo(w, u, me, sight, ReadingBack(m)) && u.state == v.procs[me].copy && RunnerAsIn(v, u)
    ensures u.procs[me] == v.procs[me].(pc := ReadingBack(m))
  {
    hide Enabled; hide Apply; hide NewClaims; hide NewGcClaims; hide Valid; hide Coherent; hide OwnReaches;
    var c := Clocked(v, me, sight);
    SaveApplies(c, me, m);
    u := Apply(c, Save(me));
    OwnMore(w, v, Save(me), me, sight);
  }

  lemma SaveApplies(v: World, me: Identity, m: Move)
    requires me in v.procs && v.procs[me].pc == Saving(m) && v.procs[me].ver == v.version && Coherent(v.procs[me].copy)
    ensures Enabled(v, Save(me)) && Apply(v, Save(me)) == With(Commit(v, v.procs[me].copy), me, v.procs[me].(pc := ReadingBack(m)))
  {
  }

  /** PUT, commit and readback of a coherent save. */
  lemma SoloSave(w: World, v: World, me: Identity, sight: Sight, m: Move) returns (u: World)
    requires Solo(w, v, me, sight, Saving(m)) && v.procs[me].ver == v.version && Coherent(v.procs[me].copy)
    ensures me in u.procs && Solo(w, u, me, sight, u.procs[me].pc) && u.state == v.procs[me].copy
    ensures u.procs[me] == AfterSave(v.procs[me].(pc := ReadingBack(m)), m)
    ensures u.paused == v.paused && u.inflight == v.inflight && u.puts == v.puts
  {
    var c := SoloCommit(w, v, me, sight, m);
    assert Enabled(Clocked(c, me, sight), ReadBack(me)) && Own(c, ReadBack(me), me, sight);
    u := Apply(Clocked(c, me, sight), ReadBack(me));
    assert u == With(c, me, AfterSave(c.procs[me], m)).(now := sight.clock(ReadingBack(m)));
    hide Enabled; hide Own; hide Apply; hide AfterSave; hide Valid; hide Coherent; hide OwnReaches;
    OwnMore(w, c, ReadBack(me), me, sight);
  }

  /** A runner PUT that is acknowledged. */
  lemma SoloPuts(w: World, v: World, me: Identity, sight: Sight, pc: Pc) returns (u: World)
    requires Solo(w, v, me, sight, pc) && Puts(pc) && v.procs[me].copy.operation.Some?
    ensures u == PutStep(Clocked(v, me, sight), me, v.procs[me], true) && me in u.procs && Solo(w, u, me, sight, u.procs[me].pc)
  {
    hide Enabled; hide Apply; hide Valid; hide Coherent; hide OwnReaches;
    var c := Clocked(v, me, sight);
    PutApplies(c, me);
    u := Apply(c, PutRunner(me, true));
    OwnMore(w, v, PutRunner(me, true), me, sight);
  }

  lemma PutApplies(v: World, me: Identity)
    requires me in v.procs && Puts(v.procs[me].pc) && v.procs[me].copy.operation.Some?
    ensures Enabled(v, PutRunner(me, true)) && Apply(v, PutRunner(me, true)) == PutStep(v, me, v.procs[me], true)
  {
  }

  lemma SoloPut(w: World, v: World, me: Identity, sight: Sight) returns (u: World)
    requires Solo(w, v, me, sight, R(RecPut)) && v.procs[me].copy.operation.Some?
    ensures Solo(w, u, me, sight, R(RecConfirm)) && u.procs[me] == v.procs[me].(pc := R(RecConfirm))
    ensures u.paused == v.procs[me].copy.operation.value.baseline && u.inflight == v.inflight && u.state == v.state
    ensures u.version == v.version
    ensures u.puts == v.puts + [Put(v.procs[me].copy.operation.value.id, RestorePut, me, true)]
  {
    hide Coherent; hide OwnReaches; hide OthersAsIn;
    u := SoloPuts(w, v, me, sight, R(RecPut));
  }

  /** The runner and its history are as in `w`. */
  ghost predicate RunnerAsIn(w: World, v: World) {
    v.paused == w.paused && v.inflight == w.inflight && v.puts == w.puts
  }

  /** Up to and including the heartbeat. */
  lemma SoloBeat(w: World, me: Identity, sight: Sight) returns (v: World)
    requires Coherent(w.state) && w.state.phase != ALERT && 0 <= At(sight, RecBeat) && At(sight, RecProbe) + 60 < TOKEN_EXPIRY
    requires ValidIdentity(me) && me in w.procs && w.procs[me].pc == R(RecRead)
    ensures Solo(w, v, me, sight, R(RecMain)) && v.state == w.state.(heartbeat := At(sight, RecBeat)) && RunnerAsIn(w, v)
  {
    hide CoordinatorNext; hide WorkerNext; hide CollectorNext; hide OthersAsIn;
    hide OwnReaches; hide Still; hide ValidIdentity; hide Sound; hide Coherent;
    v := SoloProbed(w, me, sight);
    v := SoloDecide(w, v, me, sight, R(RecBeat));
    BuildsKeepsCoherent(DoHeartbeat, me, w.state, v.procs[me].copy);
    v := SoloSave(w, v, me, sight, DoHeartbeat);
  }

  /** Up to and including the token check. */
  lemma SoloProbed(w: World, me: Identity, sight: Sight) returns (v: World)
    requires Coherent(w.state) && w.state.phase != ALERT
    requires ValidIdentity(me) && me in w.procs && w.procs[me].pc == R(RecRead)
    ensures RunnerAsIn(w, v) && me in v.procs && v.state == w.state && v.version == w.version && v.procs[me].ver == w.version
    ensures if At(sight, RecProbe) + 60 < TOKEN_EXPIRY then Solo(w, v, me, sight, R(RecBeat)) && Fresh(v, me)
            else if w.state.operation.Some? && w.state.phase != DONE
            then Solo(w, v, me, sight, Saving(DoProbeAlert)) && v.procs[me].copy == RaiseAlert(w.state, RecoveryUnavailable)
            else Solo(w, v, me, sight, Stopped)
  {
    hide CoordinatorNext; hide WorkerNext; hide CollectorNext; hide OthersAsIn;
    hide OwnReaches; hide Still; hide ValidIdentity; hide Sound; hide Coherent;
    SoloStart(w, me, sight);
    v := SoloRead(w, w, me, sight, R(RecRead));
    v := SoloDecide(w, v, me, sight, R(RecCheck));
    v := SoloProbe(w, v, me, sight, R(RecProbe));
  }

  /** The token has expired: an alert if an operation is open. */
  lemma SoloExpired(w: World, me: Identity, sight: Sight) returns (v: World)
    requires Coherent(w.state) && w.state.phase != ALERT && At(sight, RecProbe) + 60 >= TOKEN_EXPIRY
    requires ValidIdentity(me) && me in w.procs && w.procs[me].pc == R(RecRead)
    ensures Solo(w, v, me, sight, Stopped) && RunnerAsIn(w, v)
    ensures v.state == if w.state.operation.Some? && w.state.phase != DONE then RaiseAlert(w.state, RecoveryUnavailable) else w.state
  {
    hide OthersAsIn; hide OwnReaches; hide Still; hide ValidIdentity; hide Coherent; hide Still;
    v := SoloProbed(w, me, sight);
    if w.state.operation.Some? && w.state.phase != DONE {
      BuildsKeepsCoherent(DoProbeAlert, me, w.state, v.procs[me].copy);
      v := SoloSave(w, v, me, sight, DoProbeAlert);
    }
  }

  lemma SoloGcHeld(w: World, u: World, me: Identity, sight: Sight) returns (v: World)
    requires Solo(w, u, me, sight, R(RecGcJudge)) && Fresh(u, me) && u.state.gcHolder.Some? && ValidIdentity(me)
    ensures RunnerAsIn(u, v) && me in v.procs
    ensures var s := u.state;
            if s.gcHolder.value.identity !in u.procs[me].ev.terminal then
              Solo(w, v, me, sight, Stopped)
              && v.state == if At(sight, RecGcJudge) >= s.gcHolder.value.claimedAt + 2700 then RaiseAlert(s, GcHorizonExceeded) else s
            else Solo(w, v, me, sight, R(RecPhase)) && Fresh(v, me) && v.state == s.(gcHolder := None)
  {
    hide CoordinatorNext; hide WorkerNext; hide CollectorNext; hide OthersAsIn;
    hide OwnReaches; hide Still; hide ValidIdentity; hide Coherent;
    var s := u.state;
    v := SoloDecide(w, u, me, sight, R(RecGcJudge));
    if s.gcHolder.value.identity in u.procs[me].ev.terminal {
      BuildsKeepsCoherent(DoRetireGc, me, s, v.procs[me].copy);
      v := SoloSave(w, v, me, sight, DoRetireGc);
      v := SoloRead(w, v, me, sight, R(RecReload));
    } else if At(sight, RecGcJudge) >= s.gcHolder.value.claimedAt + 2700 {
      BuildsKeepsCoherent(DoGcAlert, me, s, v.procs[me].copy);
      v := SoloSave(w, v, me, sight, DoGcAlert);
    }
  }

  /** The GC slot: retired and cleared, or the pass ends. */
  lemma SoloGc(w: World, u: World, me: Identity, sight: Sight) returns (v: World)
    requires Solo(w, u, me, sight, R(RecMain)) && Sound(w, sight.gc) && ValidIdentity(me)
    ensures RunnerAsIn(u, v) && me in v.procs
    ensures var ev := EvidenceOf(sight.gc);
            var s := u.state;
            if s.gcHolder.Some? && s.gcHolder.value.identity !in ev.terminal then
              Solo(w, v, me, sight, Stopped)
              && v.state == if At(sight, RecGcJudge) >= s.gcHolder.value.claimedAt + 2700 then RaiseAlert(s, GcHorizonExceeded) else s
            else Solo(w, v, me, sight, R(RecPhase)) && Fresh(v, me) && v.state == s.(gcHolder := None)
  {
    hide CoordinatorNext; hide WorkerNext; hide CollectorNext; hide OthersAsIn;
    hide OwnReaches; hide Still; hide ValidIdentity; hide Sound; hide Coherent; hide EvidenceOf;
    var s := u.state;
    v := SoloRead(w, u, me, sight, R(RecMain));
    v := SoloDecide(w, v, me, sight, R(RecGc));
    if s.gcHolder.Some? {
      v := SoloObserve(w, v, me, sight, R(RecGcObserve), sight.gc);
      v := SoloGcHeld(w, v, me, sight);
    }
  }

  lemma SoloBeginRestore(w: World, u: World, me: Identity, sight: Sight) returns (v: World)
    requires Solo(w, u, me, sight, R(RecRetire)) && Fresh(u, me) && u.state.operation.Some?
    requires ValidIdentity(me) && me.namespace == CONTROL
    requires OwnersRetired(u.state.operation.value, u.procs[me].ev) && u.state.operation.value.write == NoWrite
    ensures Solo(w, v, me, sight, R(RecPut)) && RunnerAsIn(u, v) && v.procs[me].copy == v.state
    ensures v.state == BeginRestore(u.state, me, RestoredOutcome(u.state.operation.value, u.procs[me].ev))
  {
    hide CoordinatorNext; hide WorkerNext; hide CollectorNext; hide OthersAsIn;
    hide OwnReaches; hide Still; hide ValidIdentity; hide Coherent; hide OwnersRetired; hide RestoredOutcome;
    v := SoloDecide(w, u, me, sight, R(RecRetire));
    BuildsKeepsCoherent(DoRestore, me, u.state, v.procs[me].copy);
    v := SoloSave(w, v, me, sight, DoRestore);
  }

  lemma SoloFinish(w: World, u: World, me: Identity, sight: Sight) returns (v: World)
    requires Solo(w, u, me, sight, R(RecPut)) && ValidIdentity(me) && u.procs[me].copy == u.state
    requires u.state.phase == RESTORING && u.state.operation.Some? && u.state.operation.value.holder == Some(me)
    ensures Solo(w, v, me, sight, Stopped) && v.state == Finish(u.state)
    ensures v.paused == u.state.operation.value.baseline && v.inflight == u.inflight
    ensures v.puts == u.puts + [Put(u.state.operation.value.id, RestorePut, me, true)]
  {
    hide OwnReaches; hide Still; hide ValidIdentity; hide Coherent; hide OthersAsIn; hide Next;
    v := SoloPut(w, u, me, sight);
    v := SoloProbe(w, v, me, sight, R(RecConfirm));
    v := SoloRead(w, v, me, sight, R(RecDone));
    v := SoloMarkDone(w, v, me, sight);
  }

  lemma SoloMarkDone(w: World, u: World, me: Identity, sight: Sight) returns (v: World)
    requires Solo(w, u, me, sight, R(RecDoneSave)) && Fresh(u, me) && ValidIdentity(me)
    requires u.state.phase == RESTORING && u.state.operation.Some? && u.state.operation.value.holder == Some(me)
    ensures Solo(w, v, me, sight, Stopped) && v.state == Finish(u.state) && RunnerAsIn(u, v)
  {
    hide CoordinatorNext; hide WorkerNext; hide CollectorNext; hide OthersAsIn;
    hide OwnReaches; hide Still; hide ValidIdentity; hide Coherent;
    v := SoloDecide(w, u, me, sight, R(RecDoneSave));
    BuildsKeepsCoherent(DoFinish, me, u.state, v.procs[me].copy);
    v := SoloSave(w, v, me, sight, DoFinish);
  }

  /** Up to the judgement of the open operation. */
  lemma SoloLooks(w: World, u: World, me: Identity, sight: Sight) returns (v: World)
    requires Solo(w, u, me, sight, R(RecPhase)) && Fresh(u, me) && u.state.operation.Some? && !Closed(u.state.phase)
    requires Sound(w, sight.open)
    ensures Solo(w, v, me, sight, R(RecJudge)) && Fresh(v, me) && RunnerAsIn(u, v) && v.state == u.state
    ensures v.procs[me].ev == EvidenceOf(sight.open)
  {
    hide CoordinatorNext; hide WorkerNext; hide CollectorNext; hide OthersAsIn;
    hide OwnReaches; hide Still; hide ValidIdentity; hide Sound; hide Coherent; hide EvidenceOf; hide Judge;
    v := SoloDecide(w, u, me, sight, R(RecPhase));
    v := SoloObserve(w, v, me, sight, R(RecObserve), sight.open);
  }

  /** Judging the open operation, sealing it, and up to the retirement decision. */
  lemma SoloJudge(w: World, u: World, me: Identity, sight: Sight) returns (v: World)
    requires Solo(w, u, me, sight, R(RecPhase)) && Fresh(u, me) && u.state.operation.Some? && !Closed(u.state.phase)
    requires Sound(w, sight.open) && ValidIdentity(me)
    ensures RunnerAsIn(u, v) && me in v.procs && v.procs[me].ev == EvidenceOf(sight.open)
    ensures var op, s := u.state.operation.value, u.state;
            if At(sight, RecJudge) >= op.recoverBy then Solo(w, v, me, sight, Stopped) && v.state == RaiseAlert(s, RecoveryHorizonExceeded)
            else if MustWait(s, op, EvidenceOf(sight.open), At(sight, RecJudge)) then Solo(w, v, me, sight, Stopped) && v.state == s
            else Solo(w, v, me, sight, R(RecRetire)) && Fresh(v, me) && v.state == if s.phase == RESTORING then s else Seal(s)
  {
    hide CoordinatorNext; hide WorkerNext; hide CollectorNext; hide OthersAsIn;
    hide OwnReaches; hide Still; hide ValidIdentity; hide Sound; hide Coherent; hide EvidenceOf; hide MustWait;
    var s := u.state;
    v := SoloLooks(w, u, me, sight);
    v := SoloDecide(w, v, me, sight, R(RecJudge));
    var move := if At(sight, RecJudge) >= s.operation.value.recoverBy then DoHorizonAlert else DoSeal;
    if v.procs[me].pc == Saving(move) {
      BuildsKeepsCoherent(move, me, s, v.procs[me].copy);
      v := SoloSave(w, v, me, sight, move);
      if move == DoSeal { v := SoloRead(w, v, me, sight, R(RecSealed)); }
    }
  }

  lemma SoloConclude(w: World, u: World, me: Identity, sight: Sight) returns (v: World)
    requires Solo(w, u, me, sight, R(RecRetire)) && Fresh(u, me) && u.state.operation.Some?
    requires ValidIdentity(me) && me.namespace == CONTROL
    requires !(OwnersRetired(u.state.operation.value, u.procs[me].ev) && u.state.operation.value.write == NoWrite)
    ensures Solo(w, v, me, sight, Stopped) && RunnerAsIn(u, v)
    ensures v.state == if OwnersRetired(u.state.operation.value, u.procs[me].ev)
                       then RaiseAlert(u.state, UnresolvedRemoteWrite) else u.state
  {
    hide CoordinatorNext; hide WorkerNext; hide CollectorNext; hide OthersAsIn;
    hide OwnReaches; hide Still; hide ValidIdentity; hide Sound; hide Coherent; hide OwnersRetired;
    v := SoloDecide(w, u, me, sight, R(RecRetire));
    var p := v.procs[me];
    if p.pc.Saving? {
      BuildsKeepsCoherent(p.pc.move, me, u.state, p.copy);
      v := SoloSave(w, v, me, sight, p.pc.move);
    }
  }

  /** From the phase on: nothing open, or the open operation. */
  lemma SoloOpen(w: World, u: World, me: Identity, sight: Sight) returns (v: World)
    requires Solo(w, u, me, sight, R(RecPhase)) && Fresh(u, me) && Sound(w, sight.open) && ValidIdentity(me) && me.namespace == CONTROL
    ensures Solo(w, v, me, sight, Stopped)
    ensures if Closed(u.state.phase) || u.state.operation.None? then v.state == u.state && RunnerAsIn(u, v)
            else
              var r := RecoverOpen(u.state, u.state.operation.value, EvidenceOf(sight.open), me, At(sight, RecJudge));
              v.state == r.state && RestoredOnly(u, v, me, r.verdict)
  {
    hide CoordinatorNext; hide WorkerNext; hide CollectorNext; hide OthersAsIn;
    hide OwnReaches; hide Still; hide ValidIdentity; hide Sound; hide EvidenceOf; hide OwnersRetired; hide MustWait; hide RestoredOutcome;
    if Closed(u.state.phase) || u.state.operation.None? {
      v := SoloDecide(w, u, me, sight, R(RecPhase));
    } else {
      v := SoloJudge(w, u, me, sight);
      if v.procs[me].pc == R(RecRetire) {
        if OwnersRetired(v.state.operation.value, EvidenceOf(sight.open)) && v.state.operation.value.write == NoWrite {
          v := SoloBeginRestore(w, v, me, sight);
          v := SoloFinish(w, v, me, sight);
        } else {
          v := SoloConclude(w, v, me, sight);
        }
      }
    }
  }

  /** The runner was written exactly once, back to its baseline, if the pass restored, and else
      left alone. */
  ghost predicate RestoredOnly(u: World, v: World, me: Identity, verdict: Verdict) {
    if verdict == Restored
    then !v.paused && v.inflight == u.inflight && u.state.operation.Some?
         && v.puts == u.puts + [Put(u.state.operation.value.id, RestorePut, me, true)]
    else RunnerAsIn(u, v)
  }

  /** The pass of `me`, alone and without API failure, from its first read to its end. */
  lemma SoloPass(w: World, me: Identity, sight: Sight) returns (v: World)
    requires PassStarts(w, me, sight) && 0 <= At(sight, RecBeat)
    ensures Solo(w, v, me, sight, Stopped) && EndsAsRecover(w, v, me, sight)
  {
    hide CoordinatorNext; hide WorkerNext; hide CollectorNext; hide OthersAsIn;
    hide OwnReaches; hide Still; hide ValidIdentity; hide Sound; hide EvidenceOf; hide RecoverOpen;
    if w.state.phase == ALERT {
      SoloStart(w, me, sight);
      v := SoloRead(w, w, me, sight, R(RecRead));
      v := SoloDecide(w, v, me, sight, R(RecCheck));
    } else if At(sight, RecProbe) + 60 >= TOKEN_EXPIRY {
      v := SoloExpired(w, me, sight);
    } else {
      v := SoloBeat(w, me, sight);
      v := SoloGc(w, v, me, sight);
      if v.procs[me].pc == R(RecPhase) { v := SoloOpen(w, v, me, sight); }
    }
  }

  // --------------------------------------------------------------- every pass, not just one

  ghost predicate PassStarts(w: World, me: Identity, sight: Sight) {
    && Coherent(w.state) && 0 <= w.now && Sound(w, sight.gc) && Sound(w, sight.open)
    && ValidIdentity(me) && me.namespace == CONTROL && me in w.procs && w.procs[me].pc == R(RecRead)
  }

  /** `v` holds what `Recover` stores, and the runner was touched only to restore it. */
  ghost predicate EndsAsRecover(w: World, v: World, me: Identity, sight: Sight) {
    var r := Recover(w.state, sight, me);
    v.state == r.state && RestoredOnly(w, v, me, r.verdict)
  }

  /** Alone and without failure there is never a choice, and none at all once stopped. */
  lemma OwnIsDetermined(w: World, me: Identity, sight: Sight, a: Label, b: Label)
    requires Enabled(w, a) && Own(w, a, me, sight) && Enabled(w, b) && Own(w, b, me, sight)
    ensures a == b && me in w.procs && w.procs[me].pc != Stopped
  {
    hide EvidenceOf;
  }

  /** The time of day does not decide whether a step can be taken. */
  lemma OwnWhenever(w: World, me: Identity, sight: Sight, l: Label, t: int)
    requires Enabled(w, l) && Own(w, l, me, sight)
    ensures Enabled(w.(now := t), l) && Own(w.(now := t), l, me, sight)
  {
    hide EvidenceOf;
  }

  lemma {:induction false} PassagesAgree(vs: seq<World>, ks: seq<Label>, xs: seq<World>, js: seq<Label>, me: Identity, sight: Sight, k: nat)
    requires Passage(vs, ks, me, sight) && Passage(xs, js, me, sight) && vs[0] == xs[0] && k <= |ks| && k <= |js|
    ensures vs[k] == xs[k]
  {
    hide Enabled; hide Apply; hide Own;
    if k > 0 {
      PassagesAgree(vs, ks, xs, js, me, sight, k - 1);
      assert OwnStep(vs[k - 1], ks[k - 1], vs[k], me, sight) && OwnStep(xs[k - 1], js[k - 1], xs[k], me, sight);
      OwnAtItsInstant(vs[k - 1], ks[k - 1], me, sight);
      OwnAtItsInstant(xs[k - 1], js[k - 1], me, sight);
      OwnIsDetermined(Clocked(vs[k - 1], me, sight), me, sight, ks[k - 1], js[k - 1]);
    }
  }

  lemma OwnAtItsInstant(v: World, l: Label, me: Identity, sight: Sight)
    requires me in v.procs && Own(v, l, me, sight)
    ensures Own(Clocked(v, me, sight), l, me, sight)
  {
  }

  /** A run in which only `me` acts, no call of it fails, and time passes: each step of `me` falls
      on the instant `sight` gives for its point. */
  ghost predicate AloneRun(ws: seq<World>, ls: seq<Label>, me: Identity, sight: Sight) {
    IsRun(ws, ls) && forall k :: 0 <= k < |ls| ==> ls[k].Tick? || OnTime(ws[k], ls[k], me, sight)
  }

  ghost predicate OnTime(w: World, l: Label, me: Identity, sight: Sight) {
    Own(w, l, me, sight) && me in w.procs && w.now == sight.clock(w.procs[me].pc)
  }

  /** The steps of a run that are not the clock's. */
  function Steps(ls: seq<Label>): nat {
    if ls == [] then 0 else Steps(ls[..|ls| - 1]) + if ls[|ls| - 1].Tick? then 0 else 1
  }

  lemma AlonePrefix(ws: seq<World>, ls: seq<Label>, me: Identity, sight: Sight, n: nat)
    requires AloneRun(ws, ls, me, sight) && n <= |ls|
    ensures AloneRun(ws[..n + 1], ls[..n], me, sight)
  {
    hide Enabled; hide Apply; hide OnTime;
    var xs, ks := ws[..n + 1], ls[..n];
    forall k | 0 <= k < n
      ensures Enabled(xs[k], ks[k]) && xs[k + 1] == Apply(xs[k], ks[k]) && (ks[k].Tick? || OnTime(xs[k], ks[k], me, sight))
    {
      assert Enabled(ws[k], ls[k]);
    }
  }

  /** Leaving the clock's steps out of a run leaves a passage to the same world, but for the time. */
  lemma {:induction false} WithoutTicks(ws: seq<World>, ls: seq<Label>, me: Identity, sight: Sight) returns (vs: seq<World>, ks: seq<Label>)
    requires AloneRun(ws, ls, me, sight)
    ensures Passage(vs, ks, me, sight) && vs[0] == ws[0] && |ks| == Steps(ls)
    ensures ws[|ls|] == vs[|ks|].(now := ws[|ls|].now)
    decreases |ls|
  {
    hide Enabled; hide Apply; hide Own;
    if ls == [] {
      return [ws[0]], [];
    }
    var n := |ls| - 1;
    AlonePrefix(ws, ls, me, sight, n);
    vs, ks := WithoutTicks(ws[..n + 1], ls[..n], me, sight);
    assert Enabled(ws[n], ls[n]) && ws[n + 1] == Apply(ws[n], ls[n]);
    if ls[n].Tick? {
      TickIsTime(ws[n], ls[n]);
    } else {
      var v, u := vs[|ks|], ws[n + 1];
      assert OnTime(ws[n], ls[n], me, sight);
      assert Clocked(v, me, sight) == ws[n];
      OwnAnyTime(ws[n], v, ls[n], me, sight);
      assert OwnStep(v, ls[n], u, me, sight);
      PassageMore(vs, ks, me, sight, ls[n], u);
      vs, ks := vs + [u], ks + [ls[n]];
    }
  }

  lemma TickIsTime(w: World, l: Label)
    requires Enabled(w, l) && l.Tick?
    ensures Apply(w, l) == w.(now := Apply(w, l).now)
  {
  }

  lemma OwnAnyTime(w: World, v: World, l: Label, me: Identity, sight: Sight)
    requires w == v.(now := w.now) && Own(w, l, me, sight)
    ensures Own(v, l, me, sight)
  {
  }

  lemma PassageMore(vs: seq<World>, ks: seq<Label>, me: Identity, sight: Sight, l: Label, u: World)
    requires Passage(vs, ks, me, sight) && OwnStep(vs[|ks|], l, u, me, sight)
    ensures Passage(vs + [u], ks + [l], me, sight)
  {
    hide OwnStep;
    var vs', ks' := vs + [u], ks + [l];
    forall k | 0 <= k < |ks'| ensures OwnStep(vs'[k], ks'[k], vs'[k + 1], me, sight) {
      if k < |ks| { assert vs'[k] == vs[k] && vs'[k + 1] == vs[k + 1] && ks'[k] == ks[k]; }
    }
  }

  /** Where a run of `me` from `w` stands when the whole pass takes `n` steps. */
  ghost predicate PassAt(w: World, ws: seq<World>, ls: seq<Label>, me: Identity, sight: Sight, n: nat)
    requires IsRun(ws, ls)
  {
    var v := ws[|ls|];
    && Steps(ls) <= n && me in v.procs
    && (Steps(ls) < n ==> v.procs[me].pc != Stopped && exists l :: Enabled(v, l) && Own(v, l, me, sight))
    && (Steps(ls) == n ==> v.procs[me].pc == Stopped && EndsAsRecover(w, v, me, sight))
  }

  lemma PassAlong(w: World, ws: seq<World>, ls: seq<Label>, xs: seq<World>, js: seq<Label>, me: Identity, sight: Sight)
    requires AloneRun(ws, ls, me, sight) && Passage(xs, js, me, sight) && ws[0] == xs[0] == w
    requires var v := xs[|js|]; me in v.procs && v.procs[me].pc == Stopped && EndsAsRecover(w, v, me, sight)
    ensures PassAt(w, ws, ls, me, sight, |js|)
  {
    hide Enabled; hide Apply; hide Own; hide EndsAsRecover;
    var vs, ks := WithoutTicks(ws, ls, me, sight);
    var m := if |ks| <= |js| then |ks| else |js|;
    PassagesAgree(vs, ks, xs, js, me, sight, m);
    if m < |ks| {
      assert OwnStep(vs[m], ks[m], vs[m + 1], me, sight);
      OwnAtItsInstant(vs[m], ks[m], me, sight);
      OwnIsDetermined(Clocked(vs[m], me, sight), me, sight, ks[m], ks[m]);
    } else {
      var v := ws[|ls|];
      if m < |js| {
        assert OwnStep(xs[m], js[m], xs[m + 1], me, sight);
        OwnAtItsInstant(xs[m], js[m], me, sight);
        OwnIsDetermined(Clocked(xs[m], me, sight), me, sight, js[m], js[m]);
        OwnWhenever(Clocked(xs[m], me, sight), me, sight, js[m], v.now);
        assert Clocked(xs[m], me, sight).(now := v.now) == v;
        assert Enabled(v, js[m]) && Own(v, js[m], me, sight);
      } else {
        SameEnd(w, xs[m], v, me, sight);
      }
    }
  }

  lemma SameEnd(w: World, x: World, v: World, me: Identity, sight: Sight)
    requires v == x.(now := v.now) && EndsAsRecover(w, x, me, sight)
    ensures EndsAsRecover(w, v, me, sight)
  {
    hide Recover;
  }

  // ---------------------------------------------------------------- every run has its clock

  /** The points of a recovery pass in the order they are come to. */
  function Rank(pc: Pc): nat {
    match pc
    case R(RecRead) => 1
    case R(RecCheck) => 2
    case R(RecProbe) => 3
    case R(RecBeat) => 4
    case R(RecMain) => 7
    case R(RecGc) => 8
    case R(RecGcObserve) => 9
    case R(RecGcJudge) => 10
    case R(RecReload) => 13
    case R(RecPhase) => 14
    case R(RecObserve) => 15
    case R(RecJudge) => 16
    case R(RecSealed) => 19
    case R(RecRetire) => 20
    case R(RecPut) => 23
    case R(RecConfirm) => 24
    case R(RecUnknown) => 25
    case R(RecUnknownSave) => 26
    case R(RecDone) => 25
    case R(RecDoneSave) => 26
    case Saving(m) => MoveRank(m)
    case ReadingBack(m) => MoveRank(m) + 1
    case Stopped => 30
    case _ => 0
  }

  function MoveRank(m: Move): nat {
    match m
    case DoProbeAlert => 5
    case DoHeartbeat => 5
    case DoRetireGc => 11
    case DoGcAlert => 11
    case DoHorizonAlert => 17
    case DoSeal => 17
    case DoRestore => 21
    case DoUnresolvedAlert => 21
    case DoUnknownRestore => 27
    case DoFinish => 27
    case _ => 0
  }

  predicate OnPass(pc: Pc) {
    pc == Stopped || pc.R? || (pc.Saving? && MoveRank(pc.move) > 0) || (pc.ReadingBack? && MoveRank(pc.move) > 0)
  }

  ghost predicate Ahead(p: Proc, q: Proc) {
    OnPass(q.pc) && Rank(p.pc) < Rank(q.pc)
  }

  lemma DecisionGoesOn(me: Identity, p: Proc, now: int)
    requires OnPass(p.pc) && Decides(p.pc)
    ensures Ahead(p, Next(me, p, now))
  {
    hide MustWait; hide OwnersRetired; hide RestoredOutcome; hide CoordinatorNext; hide WorkerNext; hide CollectorNext;
  }

  lemma CallGoesOn(me: Identity, p: Proc, paused: bool, now: int)
    requires OnPass(p.pc) && p.pc != Stopped
    ensures AfterRead(p.pc).Some? ==> Ahead(p, p.(pc := AfterRead(p.pc).value))
    ensures AfterObserve(p.pc).Some? ==> Ahead(p, p.(pc := AfterObserve(p.pc).value))
    ensures Probes(p.pc) ==> Ahead(p, AfterProbe(me, p, paused, true, now))
    ensures p.pc.ReadingBack? ==> Ahead(p, AfterSave(p, p.pc.move))
    ensures p.pc.Saving? ==> Ahead(p, p.(pc := ReadingBack(p.pc.move)))
    ensures Ahead(p, p.(pc := Stopped))
    ensures Puts(p.pc) ==> Ahead(p, p.(pc := R(RecConfirm)))
  {
  }

  /** A recovery pass never comes to a point twice. */
  lemma RankGrows(w: World, l: Label, me: Identity, sight: Sight)
    requires Enabled(w, l) && Own(w, l, me, sight) && me in w.procs && OnPass(w.procs[me].pc)
    ensures var u := Apply(w, l); me in u.procs && OnPass(u.procs[me].pc) && Rank(w.procs[me].pc) < Rank(u.procs[me].pc)
  {
    var p := w.procs[me];
    assert p.pc != Stopped && p.pc != K(Working);
    CallGoesOn(me, p, w.paused, w.now);
    if Decides(p.pc) { DecisionGoesOn(me, p, w.now); }
    hide EvidenceOf; hide Valid; hide ValidIdentity; hide Next; hide AfterProbe; hide AfterSave; hide AfterRead; hide AfterObserve;
    hide Rank; hide OnPass;
    assert Ahead(p, Apply(w, l).procs[me]);
  }

  /** A run of `me` alone, none of whose calls fails, while time passes as it likes. */
  ghost predicate FreeRun(ws: seq<World>, ls: seq<Label>, me: Identity, sight: Sight) {
    IsRun(ws, ls) && forall k :: 0 <= k < |ls| ==> ls[k].Tick? || Own(ws[k], ls[k], me, sight)
  }

  lemma {:induction false} RankUp(ws: seq<World>, ls: seq<Label>, me: Identity, sight: Sight, i: nat, j: nat)
    requires FreeRun(ws, ls, me, sight) && i <= j <= |ls| && me in ws[i].procs && OnPass(ws[i].procs[me].pc)
    ensures me in ws[j].procs && OnPass(ws[j].procs[me].pc) && Rank(ws[i].procs[me].pc) <= Rank(ws[j].procs[me].pc) && ws[i].now <= ws[j].now
    ensures i < j && !ls[i].Tick? ==> Rank(ws[i].procs[me].pc) < Rank(ws[j].procs[me].pc)
    decreases j
  {
    hide Enabled; hide Apply; hide Own; hide Rank; hide OnPass;
    if i < j {
      RankUp(ws, ls, me, sight, i, j - 1);
      assert Enabled(ws[j - 1], ls[j - 1]) && ws[j] == Apply(ws[j - 1], ls[j - 1]);
      if ls[j - 1].Tick? {
        TickIsTime(ws[j - 1], ls[j - 1]);
        TickGoesOn(ws[j - 1], ls[j - 1]);
      } else {
        RankGrows(ws[j - 1], ls[j - 1], me, sight);
        OwnKeepsTime(ws[j - 1], ls[j - 1], me, sight);
      }
    }
  }

  lemma TickGoesOn(w: World, l: Label)
    requires Enabled(w, l) && l.Tick?
    ensures w.now <= Apply(w, l).now
  {
  }

  /** Every such run has a clock: each point's instant is when the run stood there. */
  lemma {:induction false} EveryRunHasItsClock(ws: seq<World>, ls: seq<Label>, me: Identity, sight: Sight) returns (clock: Pc -> int)
    requires FreeRun(ws, ls, me, sight) && me in ws[0].procs && OnPass(ws[0].procs[me].pc)
    ensures AloneRun(ws, ls, me, sight.(clock := clock)) && forall pc :: ws[0].now <= clock(pc)
    decreases |ls|
  {
    hide Enabled; hide Apply; hide Own; hide Rank; hide OnPass;
    clock := pc => ws[0].now;
    if ls != [] {
      var n := |ls| - 1;
      FreePrefix(ws, ls, me, sight, n);
      var before := EveryRunHasItsClock(ws[..n + 1], ls[..n], me, sight);
      RankUp(ws, ls, me, sight, 0, n);
      var here := ws[n].procs[me].pc;
      clock := pc => if pc == here then ws[n].now else before(pc);
      forall k | 0 <= k < |ls| ensures ls[k].Tick? || OnTime(ws[k], ls[k], me, sight.(clock := clock)) {
        if k < n && !ls[k].Tick? {
          assert ws[..n + 1][k] == ws[k] && ls[..n][k] == ls[k];
          RankUp(ws, ls, me, sight, 0, k);
          RankUp(ws, ls, me, sight, k, n);
          OwnIgnoresClock(ws[k], ls[k], me, sight, clock);
        }
        if k == n && !ls[k].Tick? { OwnIgnoresClock(ws[k], ls[k], me, sight, clock); }
      }
    }
  }

  lemma FreePrefix(ws: seq<World>, ls: seq<Label>, me: Identity, sight: Sight, n: nat)
    requires FreeRun(ws, ls, me, sight) && n <= |ls|
    ensures FreeRun(ws[..n + 1], ls[..n], me, sight)
  {
    hide Enabled; hide Apply; hide Own;
    var xs, ks := ws[..n + 1], ls[..n];
    forall k | 0 <= k < n
      ensures Enabled(xs[k], ks[k]) && xs[k + 1] == Apply(xs[k], ks[k]) && (ks[k].Tick? || Own(xs[k], ks[k], me, sight))
    {
      assert Enabled(ws[k], ls[k]);
    }
  }

  lemma OwnIgnoresClock(w: World, l: Label, me: Identity, sight: Sight, clock: Pc -> int)
    requires Own(w, l, me, sight)
    ensures Own(w, l, me, sight.(clock := clock))
  {
  }

  /** Every uncontended recovery pass without API failure, however time passes meanwhile: with
      the instants at which it came to each point, it ends after a fixed number of steps; before
      that it has not stopped and can go on, and when it stops it has stored exactly `Recover` of
      what it found, and has touched the runner only to restore it. */
  lemma EveryPassIsRecover(ws: seq<World>, ls: seq<Label>, me: Identity, sight: Sight) returns (clock: Pc -> int, n: nat)
    requires FreeRun(ws, ls, me, sight) && PassStarts(ws[0], me, sight)
    ensures AloneRun(ws, ls, me, sight.(clock := clock)) && PassAt(ws[0], ws, ls, me, sight.(clock := clock), n)
    ensures forall xs, ks :: AloneRun(xs, ks, me, sight.(clock := clock)) && xs[0] == ws[0] ==> PassAt(ws[0], xs, ks, me, sight.(clock := clock), n)
  {
    hide Enabled; hide Apply; hide Own; hide EndsAsRecover; hide PassAt; hide Rank; hide OnTime; hide Coherent; hide Sound;
    assert OnPass(R(RecRead));
    clock := EveryRunHasItsClock(ws, ls, me, sight);
    var seen := sight.(clock := clock);
    var v := SoloPass(ws[0], me, seen);
    var vs, js :| Passage(vs, js, me, seen) && vs[0] == ws[0] && vs[|js|] == v;
    n := |js|;
    forall xs, ks | AloneRun(xs, ks, me, seen) && xs[0] == ws[0] ensures PassAt(ws[0], xs, ks, me, seen, n) {
      PassAlong(ws[0], xs, ks, vs, js, me, seen);
    }
  }

  // ------------------------------------------------------------------- waiting, not restoring

  /** Before `until` the open operation is still its coordinator's or its worker's, the token is
      good and the GC slot not overdue. */
  ghost predicate NotDue(s: State, sight: Sight, until: int) {
    && s.operation.Some? && until + 60 < 1825372800
    && var op, ended := s.operation.value, EvidenceOf(sight.open).terminal;
       && (|| ((s.phase == PAUSE_INTENT || s.phase == DRAINING) && until < op.drainBy && op.coordinator !in ended)
           || ((s.phase == ADMITTED || s.phase == CLAIMED) && until < op.cleanupBy
               && !(op.claimed && op.worker.Some? && op.worker.value in ended)))
       && (s.gcHolder.Some? ==> s.gcHolder.value.identity in EvidenceOf(sight.gc).terminal || until < s.gcHolder.value.claimedAt + 2700)
  }

  ghost predicate SameBusiness(s: State, t: State) {
    t.operation == s.operation && t.phase == s.phase && (t.gcHolder.Some? ==> t.gcHolder == s.gcHolder)
  }

  /** `v` has the operation and phase of `w`, and so has what `me` would save. */
  ghost predicate StandsBy(w: World, v: World, me: Identity, sight: Sight) {
    && SameBusiness(w.state, v.state) && RunnerAsIn(w, v) && me in v.procs
    && var p := v.procs[me];
       && OnPass(p.pc) && (Rank(p.pc) <= 16 || p.pc == Stopped)
       && (p.pc != R(RecRead) ==> SameBusiness(w.state, p.copy))
       && (p.pc.Saving? ==> p.pc.move == DoHeartbeat || p.pc.move == DoRetireGc)
       && (p.pc.ReadingBack? ==> p.pc.move == DoHeartbeat || p.pc.move == DoRetireGc)
       && (p.pc == R(RecGcJudge) ==> p.ev == EvidenceOf(sight.gc))
       && (p.pc == R(RecJudge) ==> p.ev == EvidenceOf(sight.open))
  }

  lemma DecisionStandsBy(w: World, v: World, me: Identity, sight: Sight)
    requires Coherent(w.state) && StandsBy(w, v, me, sight) && Decides(v.procs[me].pc) && NotDue(w.state, sight, v.now)
    ensures StandsBy(w, With(v, me, Next(me, v.procs[me], v.now)), me, sight)
  {
    assert me in v.procs;
    var pc := v.procs[me].pc;
    hide EvidenceOf; hide Next; hide Coherent; hide StandsBy; hide NotDue;
    if pc == R(RecJudge) { JudgementStandsBy(w, v, me, sight); }
    else if pc == R(RecGcJudge) { GcJudgementStandsBy(w, v, me, sight); }
    else { PlainStandsBy(w, v, me, sight); }
  }

  lemma PlainStandsBy(w: World, v: World, me: Identity, sight: Sight)
    requires StandsBy(w, v, me, sight) && Decides(v.procs[me].pc) && v.procs[me].pc != R(RecJudge) && v.procs[me].pc != R(RecGcJudge)
    ensures StandsBy(w, With(v, me, Next(me, v.procs[me], v.now)), me, sight)
  {
    hide EvidenceOf; hide CoordinatorNext; hide WorkerNext; hide CollectorNext; hide Conclude; hide Judge; hide RaiseAlert; hide LatchUnknown; hide Finish;
  }

  lemma GcJudgementStandsBy(w: World, v: World, me: Identity, sight: Sight)
    requires StandsBy(w, v, me, sight) && v.procs[me].pc == R(RecGcJudge) && NotDue(w.state, sight, v.now)
    ensures StandsBy(w, With(v, me, Next(me, v.procs[me], v.now)), me, sight)
  {
    hide EvidenceOf; hide CoordinatorNext; hide WorkerNext; hide CollectorNext; hide Conclude; hide Judge; hide RaiseAlert; hide LatchUnknown; hide Finish;
  }

  lemma JudgementStandsBy(w: World, v: World, me: Identity, sight: Sight)
    requires Coherent(w.state) && StandsBy(w, v, me, sight) && v.procs[me].pc == R(RecJudge) && NotDue(w.state, sight, v.now)
    ensures StandsBy(w, With(v, me, Next(me, v.procs[me], v.now)), me, sight)
  {
    assert w.state.operation.value.drainBy < w.state.operation.value.cleanupBy < w.state.operation.value.recoverBy;
    hide EvidenceOf; hide CoordinatorNext; hide WorkerNext; hide CollectorNext; hide Coherent;
    var p := v.procs[me];
    var op := p.copy.operation.value;
    assert v.now < op.recoverBy && MustWait(p.copy, op, p.ev, v.now);
    hide MustWait; hide NotDue; hide RaiseAlert; hide Seal;
    assert Next(me, p, v.now) == p.(pc := Stopped);
  }

  lemma CallStandsBy(w: World, v: World, l: Label, me: Identity, sight: Sight)
    requires StandsBy(w, v, me, sight) && Enabled(v, l) && Own(v, l, me, sight) && NotDue(w.state, sight, v.now)
    requires l.Read? || l.Observe? || l.Probe?
    ensures StandsBy(w, Apply(v, l), me, sight)
  {
    hide EvidenceOf;
  }

  lemma SaveStandsBy(w: World, v: World, l: Label, me: Identity, sight: Sight)
    requires StandsBy(w, v, me, sight) && Enabled(v, l) && Own(v, l, me, sight)
    requires l.Save? || l.ReadBack?
    ensures StandsBy(w, Apply(v, l), me, sight)
  {
    hide EvidenceOf; hide Valid; hide NewClaims; hide NewGcClaims;
  }

  lemma StepStandsBy(w: World, v: World, l: Label, me: Identity, sight: Sight)
    requires Coherent(w.state) && StandsBy(w, v, me, sight) && Enabled(v, l) && Own(v, l, me, sight) && NotDue(w.state, sight, v.now)
    ensures StandsBy(w, Apply(v, l), me, sight)
  {
    assert !l.PutRunner? && !l.Recheck?;
    hide EvidenceOf; hide Next; hide Coherent; hide NotDue; hide StandsBy;
    if l.Decide? { DecisionStandsBy(w, v, me, sight); }
    else if l.Save? || l.ReadBack? { SaveStandsBy(w, v, l, me, sight); }
    else { CallStandsBy(w, v, l, me, sight); }
  }

  lemma TickStandsBy(w: World, v: World, l: Label, me: Identity, sight: Sight)
    requires StandsBy(w, v, me, sight) && Enabled(v, l) && l.Tick?
    ensures StandsBy(w, Apply(v, l), me, sight)
  {
    hide EvidenceOf; hide Rank;
  }

  lemma {:induction false} StandsByThen(ws: seq<World>, ls: seq<Label>, me: Identity, sight: Sight, k: nat)
    requires FreeRun(ws, ls, me, sight) && PassStarts(ws[0], me, sight) && k <= |ls| && NotDue(ws[0].state, sight, ws[k].now)
    ensures StandsBy(ws[0], ws[k], me, sight)
    decreases k
  {
    hide StandsBy; hide Enabled; hide Apply; hide Own; hide NotDue; hide Coherent; hide EvidenceOf; hide Rank;
    if k == 0 {
      StartStandsBy(ws[0], me, sight);
    } else {
      assert OnPass(R(RecRead));
      RankUp(ws, ls, me, sight, 0, k - 1);
      RankUp(ws, ls, me, sight, k - 1, k);
      SoonerNotDue(ws[0].state, sight, ws[k - 1].now, ws[k].now);
      StandsByThen(ws, ls, me, sight, k - 1);
      assert Enabled(ws[k - 1], ls[k - 1]) && ws[k] == Apply(ws[k - 1], ls[k - 1]);
      if ls[k - 1].Tick? { TickStandsBy(ws[0], ws[k - 1], ls[k - 1], me, sight); } else { StepStandsBy(ws[0], ws[k - 1], ls[k - 1], me, sight); }
    }
  }

  lemma StartStandsBy(w: World, me: Identity, sight: Sight)
    requires PassStarts(w, me, sight)
    ensures StandsBy(w, w, me, sight)
  {
    hide EvidenceOf; hide Coherent;
  }

  lemma SoonerNotDue(s: State, sight: Sight, t: int, until: int)
    requires NotDue(s, sight, until) && t <= until
    ensures NotDue(s, sight, t)
  {
    hide EvidenceOf;
  }

  /** A pass left alone waits: before drain_by while the coordinator of an intended pause or a
      drain is not seen ended, and before cleanup_by unless the claiming worker is, the phase and
      the operation stay as they are and the runner is not touched, at every point of the pass. */
  lemma {:induction false} WaitsItsTime(ws: seq<World>, ls: seq<Label>, me: Identity, sight: Sight, k: nat)
    requires FreeRun(ws, ls, me, sight) && PassStarts(ws[0], me, sight) && k <= |ls| && NotDue(ws[0].state, sight, ws[k].now)
    ensures ws[k].state.phase == ws[0].state.phase && ws[k].state.operation == ws[0].state.operation
    ensures ws[k].paused == ws[0].paused && ws[k].inflight == ws[0].inflight && ws[k].puts == ws[0].puts
  {
    hide Enabled; hide Apply; hide Own; hide NotDue; hide Coherent; hide Rank; hide EvidenceOf;
    StandsByThen(ws, ls, me, sight, k);
  }
}
