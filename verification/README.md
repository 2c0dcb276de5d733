# Verified models of the cluster's stateful maintenance code

Dafny models of the six stateful protocols in this repository, with proofs about all their runs.
`dafny verify dfyconfig.toml` checks everything.

**CI maintenance admission** (`AdmissionState`, `AdmissionProtocol`, and the `Admission*` proof modules).
An hourly coordinator, a recovery pass every minute, a cleanup worker and an image-store GC share one
ConfigMap that is only updated by compare-and-swap, and a runner switch whose writes can be lost or land
late. The model is a step system: one API call is one step, each process has a program counter and its own
copy of version and state, a process can crash between any two steps, a failed save can still commit later
and a failed runner PUT can still land later. `AdmissionInvariant` and `AdmissionSteps` hold the inductive
invariant, `AdmissionTheorems` what it guarantees, `AdmissionOrigins` and `AdmissionHistory` what must have happened
before, `AdmissionRecovery` the meaning of one undisturbed pass, `AdmissionCycle` one whole hour.
`Pods` and `AcceptedJobs` model the evidence the processes act on.

**Cache retention** (`PathOrder`, `RetentionTree`, `Retention`, `RetentionRun`, `RetentionExample`). The metadata snapshot that
proves a directory idle, the no-follow recursive deletion, and the age-then-pressure run over both.

**Mount-service takeover** (`MountTable`, `Takeover`, `TakeoverExample`). One manager hands its live mounts to the next, request by request.

**Mountinfo decoders** (`MountInfo`), **backup publisher** (`NasExport`), **bucket credential grant**
(`CredentialGrant`).

What the environment does is a parameter or an arbitrary choice (`Environment`): which requests fail, before or after they
take effect; when a process stops; what Pod lists, gates and open-file scans show; which workers exit.
Assumed of it: Pod uids are not reused, retirement is permanent, the clock does not go back, nobody else
writes the runner, and SHA-256 is injective.

Where the code does not do what one would hope, the model follows the code:

- At most one restore PUT per operation does not hold in general. `recover` tests ALERT only on its first
  read, so an overlapping pass can move ALERT to CLOSING and restore a restored operation again.
  `OverlapCanRestoreTwice` is such an execution. `RunnerWriteIsDue` gives the exact condition of a repeat, and
  `AtMostOneRestore` proves the bound for passes that do not overlap, which is what the CronJob's Forbid policy
  is for. For the same reason ALERT is not absorbing; the latch that holds is the unknown write
  (`UnknownIsLatched`).
- Validation alone is not inductive: from a valid DRAINING state with a pending write the admitted state would
  be rejected; that is the only case (`ValidSaveIff`, `ValidIsNotInductive`). Reachable states are coherent, a
  stronger property that is kept.
- A retention run can refuse its own candidate: deleting one tree changes the ctime of links that are hard-linked
  into another, whose proof then no longer matches. `Retain` gets exactly as far as no due tree shares a link with
  one before it; `SelfRefusal` is a run that does not get through.
- A publisher stopped while it prunes leaves a completion without some of its files; every later run then
  refuses at its first scan (`PruningSoundIff`, `StopMidway`), with all newer exports intact.
- A takeover whose finalize takes effect and whose import does not leaves that volume in neither manager's table,
  and only such a one does (`TakeOver`, `VolumeLost`).
- An adopting worker that is started and does not become ready is stopped by the new manager itself, and its exit
  unmounts the volume's target (`TakeOver`, `TargetLost`).
- An export whose answer is lost is never cancelled; its worker stays prepared (`LeftPreparedIff`).
- A failed takeover reopens the old manager while the new process still waits for the answer. A client's mount of a
  volume already moved then puts it in both tables, and nothing else does (`DisjointIff`, `VolumeTwice`).
- A failed identity write that lands after a later attempt minted another credential splits Secret and identity until
  the next completed attempt (`LateWriteSplits`); `AgreementLastsIff` gives the exact condition.

## Model

| member | source | states |
|---|---|---|
| AdmissionTheorems.CleanupWindow | infrastructure/shared-services/gitlab-runner/ci/maintenance-admission.py:282-521 | In every execution, from the commit of a worker's claim until that worker's Pod is fully terminated, the runner is paused, no runner write is in flight and the GC slot is empty, whatever deadlines, seals and alerts come in between |
| AdmissionTheorems.WorkerEffectsAreFenced | infrastructure/shared-services/gitlab-runner/ci/maintenance-admission.py:497-521 | A worker that has passed its fence check owns the claimed operation in place, with the runner paused and quiet and no GC holder |
| AdmissionTheorems.ClaimsAreCommits | infrastructure/shared-services/gitlab-runner/ci/maintenance-admission.py:504-508 | The claim history the two results above speak about grows exactly when a save of a claimed operation commits, by that operation and its worker |
| AdmissionTheorems.GcAndWorkerExclude | infrastructure/shared-services/gitlab-runner/ci/maintenance-admission.py:275-301 | No Pod that ever took the GC slot and no worker that ever claimed an operation are both unretired |
| AdmissionTheorems.RunnerWritesAreOrdered | infrastructure/shared-services/gitlab-runner/ci/maintenance-admission.py:380-395 | Over the whole history of runner PUTs: one per Pod, at most one pause per operation, every restore preceded by an acknowledged pause of the same operation |
| AdmissionTheorems.RunnerWriteIsDue | infrastructure/shared-services/gitlab-runner/ci/maintenance-admission.py:469-489 | At the moment a PUT is issued nothing else is in flight; a restore comes only after the confirmed pause, with the coordinator and any claimed worker terminated, and it repeats an earlier restore exactly when the stored operation is already marked restored |
| AdmissionTheorems.DoneMeansRestored | infrastructure/shared-services/gitlab-runner/ci/maintenance-admission.py:485-489 | In DONE the runner is back at the recorded baseline, nothing is in flight, and a restore was issued |
| AdmissionSequential.AtMostOneRestore | infrastructure/shared-services/gitlab-runner/ci/maintenance-admission.py:443-489 | If recovery passes never overlap, each operation has at most one restore PUT, over every interleaving with the other processes, crashes and late commits |
| AdmissionOverlap.OverlapCanRestoreTwice | infrastructure/shared-services/gitlab-runner/ci/maintenance-admission.py:435-445 | Without that condition it fails: an execution in which overlapping passes issue two restore PUTs for one operation, because the re-reads after the heartbeat and after retiring the GC holder do not test ALERT again |
| AdmissionHistory.AdmissionIsDrained | infrastructure/shared-services/gitlab-runner/ci/maintenance-admission.py:396-413 | In every execution, whenever a worker is named in the stored operation: some earlier step was the coordinator's selection of exactly that worker with no accepted job active, the runner paused, nothing in flight and the operation draining; in the turn of the loop before it, begun within twenty minutes of the slot, the CI Pods of the snapshot were idle by the drain test, any GC holder in it ended, and then the runner was seen paused. It holds through pending saves and late commits |
| AdmissionHistory.EveryChangeIsDue | infrastructure/shared-services/gitlab-runner/ci/maintenance-admission.py:169-177 | Every change of the stored state, even one committing after its caller saw an error, was prepared at some earlier step by one process from the very state it replaces, under the conditions of exactly one of the seventeen saves, spelled out with their deadlines, evidence and clock |
| AdmissionOrigins.PreparedIff | infrastructure/shared-services/gitlab-runner/ci/maintenance-admission.py:361-521 | A step prepares a given save if and only if those conditions hold at it: time of the step against drain_by, cleanup_by, recover_by, claimed_at and the token, the runner as probed, the owners ended in the snapshot |
| AdmissionHistory.OperationBegins | infrastructure/shared-services/gitlab-runner/ci/maintenance-admission.py:361-381 | Every operation ever stored was begun by its coordinator within ninety seconds of its slot, from a closed state with a heartbeat at most 150 seconds old, more than 2700 seconds of token left and the last restoring Pod ended, on a runner then seen unpaused |
| AdmissionHistory.TimeoutIsDue | infrastructure/shared-services/gitlab-runner/ci/maintenance-admission.py:396-419 | A drain is given up only from twenty minutes after the slot on |
| AdmissionHistory.ClaimsAreDue | infrastructure/shared-services/gitlab-runner/ci/maintenance-admission.py:497-508 | Every claim ever recorded was prepared by the admitted worker itself before cleanup_by, from an admitted state with no GC holder |
| AdmissionHistory.WorkIsChecked | infrastructure/shared-services/gitlab-runner/ci/maintenance-admission.py:516-521 | A worker at work last read its own claim, with no write pending, and after that found cleanup_by ahead |
| AdmissionHistory.NoneIsStuck | infrastructure/shared-services/gitlab-runner/ci/maintenance-admission.py:361-521 | In no execution is a process stuck: unless it has stopped or holds the GC slot it can take a step of its own |
| AdmissionCycle.CleanHour | infrastructure/shared-services/gitlab-runner/ci/maintenance-admission.py:361-521 | One execution from bootstrap goes the whole way: one pause, drained, admitted, claimed, at work behind the fence, retired, restored once, recorded as cleanup succeeded |
| AdmissionTheorems.UnknownIsLatched | infrastructure/shared-services/gitlab-runner/ci/maintenance-admission.py:353-358 | Once the remote write is unknown it stays so, the operation is never replaced, the phase stays within ALERT and CLOSING and no further runner PUT is issued |
| AdmissionTheorems.OperationsOnlyAdvance | infrastructure/shared-services/gitlab-runner/ci/maintenance-admission.py:371-381 | Successive operations have strictly increasing slots; within one, the claim with its worker, the restored mark and an unknown write are never undone |
| AdmissionTheorems.SealRevokesForGood | infrastructure/shared-services/gitlab-runner/ci/maintenance-admission.py:455-466 | Once an unclaimed operation is sealed, no worker holding that operation ever passes its fence check again |
| AdmissionTheorems.SealedStaysUnclaimable | infrastructure/shared-services/gitlab-runner/ci/maintenance-admission.py:497-513 | An operation sealed unclaimed can never be claimed later, and no claim of it was or will be recorded |
| AdmissionTheorems.OneCasWinner | infrastructure/shared-services/gitlab-runner/ci/maintenance-admission.py:169-177 | Of two saves prepared from one version the first sent commits, and the other changes nothing and ends its process |
| AdmissionTheorems.StoredStatesAreValid | infrastructure/shared-services/gitlab-runner/ci/maintenance-admission.py:74-119 | Validation is an invariant: everything stored, everything any process is about to save, and everything that may still commit after an error keeps the contract of a stored state, spelled out: namespaces, name lengths, the slot at minute 47, the three deadlines, the operation id, the claim and write conditions of each phase |
| AdmissionState.BuildsKeepsCoherent | infrastructure/shared-services/gitlab-runner/ci/maintenance-admission.py:361-489 | Each of the protocol's seventeen state changes leads from a coherent state to a coherent, hence valid, one |
| AdmissionState.ValidSaveIff | infrastructure/shared-services/gitlab-runner/ci/maintenance-admission.py:345-521 | From a state that is merely valid, sixteen of the seventeen state changes always lead to a valid one, and admission does if and only if no remote write is pending |
| AdmissionState.ValidIsNotInductive | infrastructure/shared-services/gitlab-runner/ci/maintenance-admission.py:115-116 | A valid draining state with a pending pause exists, and admission from it fails validation |
| AdmissionState.BuildsContinues | infrastructure/shared-services/gitlab-runner/ci/maintenance-admission.py:361-521 | Each state change keeps or advances the operation in the sense of OperationsOnlyAdvance |
| AdmissionSteps.StepInv | infrastructure/shared-services/gitlab-runner/ci/maintenance-admission.py:151-177 | The inductive invariant: one step of any process, a crash, a Pod retirement, a late commit or a late runner PUT keeps it |
| AdmissionSteps.ExecutionInv | infrastructure/shared-services/gitlab-runner/ci/maintenance-admission.py:151-177 | The invariant of runner, owners, claims and pending saves holds after every prefix of every execution |
| AdmissionRecovery.EveryPassIsRecover | infrastructure/shared-services/gitlab-runner/ci/maintenance-admission.py:422-489 | Every run in which a recovery pass acts alone, none of its calls fails, its two Pod snapshots may differ, and time passes as it likes: with the instants at which it came to each point it takes a fixed number of steps; before that it has not stopped and can go on, and when it stops it has stored exactly what the function Recover says for the instants of the token check, the heartbeat, the GC horizon and the judgement of the operation, with exactly one restore PUT if it restores and none otherwise |
| AdmissionRecovery.EveryRunHasItsClock | infrastructure/shared-services/gitlab-runner/ci/maintenance-admission.py:422-489 | Every such run has one instant for each point: a recovery pass never comes to a point twice |
| AdmissionRecovery.OwnIsDetermined | infrastructure/shared-services/gitlab-runner/ci/maintenance-admission.py:422-489 | Alone and without failure a process never has a choice of step, and none once it has stopped |
| AdmissionRecovery.RecoverVerdicts | infrastructure/shared-services/gitlab-runner/ci/maintenance-admission.py:422-468 | What such a pass ends in, and what it has then stored, in terms of its input: ALERT with the outcome of the token check, the GC horizon, recover_by or a pending write, each under its own condition; a wait for the GC holder, for the coordinator before drain_by, for the worker before cleanup_by, or, sealed, for an owner without retirement proof; nothing open; an expired token; or DONE |
| AdmissionRecovery.RestoresIff | infrastructure/shared-services/gitlab-runner/ci/maintenance-admission.py:427-489 | It ends in DONE if and only if the token is good for more than a minute at its check, the GC slot is free or its holder ended, recover_by is ahead, drain_by has passed or the coordinator ended if the operation was pausing or draining, cleanup_by has passed or the claiming worker ended if it was admitted or claimed, every owner has ended and no write is pending; and it then records cleanup-succeeded exactly if the claiming worker's Pod succeeded |
| AdmissionRecovery.WaitsItsTime | infrastructure/shared-services/gitlab-runner/ci/maintenance-admission.py:448-454 | At every point of such a pass the phase, the operation and the runner are as it found them before drain_by while the coordinator of a pausing or draining operation has not ended, and before cleanup_by unless the claiming worker has |
| Pods.EvidenceIsExact | infrastructure/shared-services/gitlab-runner/ci/maintenance-admission.py:205-265 | An identity counts as retired if and only if one listed Pod, and only one, has its namespace, name and uid, that Pod has exactly one controller, the identity's Job, has succeeded or failed, has a container, and every container of every kind is reported and terminated; and as succeeded if and only if that Pod has |
| Pods.CiDrained | infrastructure/shared-services/gitlab-runner/ci/maintenance-admission.py:331-342 | True exactly when no other CI job Pod is terminating, in an unknown phase, or active on a node that shares the caches |
| Pods.PodGate | infrastructure/shared-services/gitlab-runner/ci/cache-retention.py:28-67 | Accepts exactly the complete, duplicate-free lists with one well-formed maintenance Pod of its own and otherwise idle CI Pods; asks to wait exactly when its own Pod is Pending |
| Pods.GateIsDrainPlusIntegrity | infrastructure/shared-services/gitlab-runner/ci/cache-retention.py:51-67 | On one Pod list the gate is exactly the drain test plus list integrity plus the maintenance-label condition: acceptance implies drained, and the two decisions coincide when only the worker's own Pod carries the label |
| AcceptedJobs.StatusDrained | infrastructure/shared-services/gitlab-runner/ci/maintenance-admission.py:307-327 | For any paginating server: true only after the complete chain of empty pages of that status, false only on a well-formed job of that status, and within 100 requests |
| AcceptedJobs.Drained | infrastructure/shared-services/gitlab-runner/ci/maintenance-admission.py:304-328 | True if and only if all nine active statuses are idle in that sense, false if and only if one is busy and all before it, in the order of the source, idle; within nine hundred requests |
| AcceptedJobs.OnlyVerdict | infrastructure/shared-services/gitlab-runner/ci/maintenance-admission.py:308-327 | A page chain that cannot be extended decides its status: idle and busy have no other witness |
| RetentionTree.Scan.Visit | infrastructure/shared-services/gitlab-runner/ci/cache-retention.py:136-181 | The visit accepts exactly when every entry below is neither open nor a mount point, lies on the device and is a directory, a regular file or, below the root of a workspace, a link; and then has recorded exactly the subtree in order, with the right maxima |
| RetentionTree.TakeSnapshot | infrastructure/shared-services/gitlab-runner/ci/cache-retention.py:144-186 | Accepts exactly the trees without an open, mounted, foreign or special entry, links only below the root of a workspace; the proof records every path with its fingerprint and the age is the newest leaf time, links by the later of their two times, or the newest directory time without leaves |
| RetentionTree.ProofsCompareTrees | infrastructure/shared-services/gitlab-runner/ci/cache-retention.py:155-181 | Two proofs are equal if and only if the trees have the same paths with the same identity, kind, mode, owner, size and modification time, and but for regular files the same change time; in particular the order in which directories are listed does not matter |
| RetentionTree.Disk.Remove | infrastructure/shared-services/gitlab-runner/ci/cache-retention.py:281-307 | The deletion succeeds exactly when no entry is open, mounted, foreign or special and the root is the expected inode; then exactly the subtree is gone; in every case nothing outside it disappears or changes but the holding directory and the change times of other names of deleted inodes, and no link is followed |
| RetentionTree.RemoveAccepted | infrastructure/shared-services/gitlab-runner/ci/cache-retention.py:276-311 | On the evidence of an accepted snapshot of the unchanged tree the deletion never refuses and removes exactly that subtree |
| RetentionTree.ProofSurvivesIff | infrastructure/shared-services/gitlab-runner/ci/cache-retention.py:161-166 | After the tree of one candidate is removed, another candidate still has its proof if and only if it shares no link with what was removed; shared regular files do no harm |
| RetentionRun.UnchangedIff | infrastructure/shared-services/gitlab-runner/ci/cache-retention.py:484-496 | With open gates and constant evidence, a candidate passes its recheck in the middle of a run if and only if it shares no link with any tree removed before it |
| RetentionTree.AcceptanceSurvives | infrastructure/shared-services/gitlab-runner/ci/cache-retention.py:136-141 | Whether a tree is accepted does not change by deletions elsewhere |
| Retention.Gather | infrastructure/shared-services/gitlab-runner/ci/cache-retention.py:460-479 | The candidates are all and only the directories below the roots that are not among the kept tool and image-store names and have nothing open, mounted, foreign or special in them, workspaces first, then oldest first, then by name; an entry that fails its check is passed over |
| Retention.SelectionIsUnique | infrastructure/shared-services/gitlab-runner/ci/cache-retention.py:460-479 | Tree and evidence determine the candidates and their order |
| RetentionRun.Run.Delete | infrastructure/shared-services/gitlab-runner/ci/cache-retention.py:480-498 | One deletion goes ahead exactly when both gates are open and the candidate is still idle under the proof it was selected by; it removes the whole tree, nothing in which is open or mounted by the evidence taken between the gates, or touches nothing; a dry run only announces it |
| RetentionRun.Run.AgePhase | infrastructure/shared-services/gitlab-runner/ci/cache-retention.py:500-505 | Announces and removes exactly the expired candidates, in rank order; with open gates, constant evidence and roots apart it gets exactly as far as no expired tree shares a link with one before it |
| RetentionRun.Run.CapacityPhase | infrastructure/shared-services/gitlab-runner/ci/cache-retention.py:507-510 | Below 67 percent removes nothing; otherwise the shortest prefix of the remaining candidates that brings use to 65 or below, or all of them; undisturbed it stops early exactly at a due tree that shares a link with one removed before it |
| RetentionRun.Retain | infrastructure/shared-services/gitlab-runner/ci/cache-retention.py:445-522 | A completed run removed exactly the expired candidates and that shortest prefix, with use at most 65 and the cold reserve met under pressure; however it ends it removed whole trees, a first part of those due, and nothing else, and each was rechecked between two open gates when nothing left in it was open or mounted; a dry run removes nothing and under pressure announces every candidate; undisturbed it removes exactly the longest first part in which no tree shares a link with one before it |
| RetentionRun.LongestFreeIsAllIff | infrastructure/shared-services/gitlab-runner/ci/cache-retention.py:480-510 | So an undisturbed run goes through if and only if no due tree shares a link with one before it |
| RetentionExample.SelfRefusal | infrastructure/shared-services/gitlab-runner/ci/cache-retention.py:489-495 | A concrete tree on which an undisturbed run refuses its own candidate: two expired workspaces with one symbolic link hard-linked into both |
| RetentionRun.LeastIsUnique | infrastructure/shared-services/gitlab-runner/ci/cache-retention.py:507-510 | The number of candidates removed under pressure is determined by use alone |
| Takeover.Manager.TakeoverFrom | drivers/seaweedfs-csi-driver/pkg/mountmanager/takeover.go:149-199 | Whatever is lost, refused or cut short, and whichever workers exit meanwhile: at its end, or at the point where it sends its release, the first k of the inventory are in the new table, the later ones in the old, all recorded fields unchanged, and no volume is in both; the k-th is in neither exactly when its finalize took effect and its import did not; exactly the volumes whose worker exited have lost their target, and the k-th if its adopting worker was started and did not become ready; of the old entries at most the k-th has changed, by a restart mark. It succeeds exactly when k is the whole inventory. After a release that reaches the old manager the tables stay disjoint, while this process still waits, if and only if no client mount of a volume in the new table is accepted by the old manager |
| Takeover.Manager.HandAll | drivers/seaweedfs-csi-driver/pkg/mountmanager/takeover.go:176-198 | The same up to the release, during which the old manager is closed |
| Takeover.LeftPreparedIff | drivers/seaweedfs-csi-driver/pkg/mountmanager/takeover.go:201-239 | A worker that stays with the old manager is left prepared for a restart that does not come if and only if it is the k-th volume's, it prepared, and no cancel request of a new manager that got its answer took effect |
| TakeoverExample.TargetLost | drivers/seaweedfs-csi-driver/pkg/mountmanager/manager.go:431-457 | A concrete takeover whose adopting worker is started and does not become ready: its stop unmounts the target, and the volume is in neither table |
| MountTable.DisjointIff | drivers/seaweedfs-csi-driver/pkg/mountmanager/manager.go:62-109 | For every sequence of client requests and worker exits from disjoint tables: disjoint at every moment if and only if no client mount of a volume in the new table is ever accepted by the old manager |
| MountTable.ClosedIsDisjoint | drivers/seaweedfs-csi-driver/pkg/mountmanager/manager.go:63-65 | In particular at every moment while the old manager is closed |
| TakeoverExample.VolumeTwice | drivers/seaweedfs-csi-driver/pkg/mountmanager/takeover.go:162-174 | A concrete takeover that fails at its second volume, releases the old manager and, before the new process has ended, leaves the first volume in both tables |
| TakeoverExample.VolumeLost | drivers/seaweedfs-csi-driver/pkg/mountmanager/takeover.go:233-238 | A concrete takeover whose finalize takes effect but whose answer is lost, after which the volume is in neither table |
| Takeover.Manager.TakeOver | drivers/seaweedfs-csi-driver/pkg/mountmanager/takeover.go:201-297 | In terms of the requests, worker answers and exits: the volume moves exactly when finalize and import take effect, and is in neither table exactly when finalize does and the import does not; exactly the volumes whose worker exits lose their target, and the volume itself if its adopting worker is started and does not become ready; the entry recorded by the new manager is the one exported, with the adoption flags only on the command line |
| Takeover.Generations | drivers/seaweedfs-csi-driver/pkg/mountmanager/takeover.go:249-297 | Over any number of successive takeovers every surviving volume keeps every recorded field, and each worker runs with its recorded arguments and the adoption flags once; when nothing fails every generation succeeds and loses nothing |
| MountTable.DoneMeansAll | drivers/seaweedfs-csi-driver/pkg/mountmanager/takeover.go:187-198 | After success the new table is the inventory less the volumes whose worker died, and the old table is empty |
| MountTable.SplitApart | drivers/seaweedfs-csi-driver/pkg/mountmanager/takeover.go:90-115 | The handover relation puts no volume in both tables, and one on the move in neither |
| Takeover.Manager.Inventory | drivers/seaweedfs-csi-driver/pkg/mountmanager/takeover.go:22-38 | Closes the table to other clients and lists exactly the mounts, in order of volume id |
| Takeover.Manager.Finalize | drivers/seaweedfs-csi-driver/pkg/mountmanager/takeover.go:90-115 | Succeeds exactly for a mounted volume whose worker stops, and drops the entry without unmounting its target; otherwise leaves the table as it was, to be unmounted as usual by a later exit |
| Takeover.Manager.Mount | drivers/seaweedfs-csi-driver/pkg/mountmanager/manager.go:61-109 | Refused without effect during a takeover; refused for another target; otherwise returns the live entry, or replaces a dead or missing one if a worker becomes ready; one that is started and does not is stopped again and unmounts the target |
| Takeover.Manager.Unmount | drivers/seaweedfs-csi-driver/pkg/mountmanager/manager.go:112-151 | Refused without effect during a takeover; otherwise removes the entry exactly when its worker stopped, and only then unmounts the target |
| Takeover.Manager.Cancel | drivers/seaweedfs-csi-driver/pkg/mountmanager/takeover.go:117-139 | Succeeds exactly for a mounted volume whose worker resumes, clears its restart mark, and leaves every entry to be unmounted as usual |
| Takeover.Manager.ListMounts | drivers/seaweedfs-csi-driver/pkg/mountmanager/manager.go:227-242 | Lists exactly the table, sorted by volume id |
| MountInfo.Unescape | drivers/seaweedfs-csi-driver/pkg/mountmanager/reconcile.go:165-194 | The loop computes the one-pass decoding of the four escapes |
| MountInfo.DecodersAgree | infrastructure/shared-services/gitlab-runner/ci/cache-retention.py:232-233 | Four sequential replacements with the backslash last equal the one-pass decoding on every string, well escaped or not |
| MountInfo.EscapeRoundTrip | drivers/seaweedfs-csi-driver/pkg/mountmanager/reconcile.go:162-194 | Both decoders recover every path from the kernel's escaping of it, which contains no separator and passes the worker's check |
| MountInfo.UnescapeRoundTrip | infrastructure/shared-services/gitlab-runner/ci/cache-retention.py:222-233 | Decoding loses nothing on the strings the worker accepts: each is the kernel's escaping of its decoding |
| MountInfo.ReplaceAfterPass | infrastructure/shared-services/gitlab-runner/ci/cache-retention.py:232-233 | One further replacement decodes exactly one further escape: replaced characters neither start nor complete another |
| NasExport.Completed | apps/gitlab-helm/files/nas-export.py:162-203 | Accepts exactly when every directory with an export name, or every archive name, holds exactly its private files, non-empty where required, with a checksum that reads back; and then lists exactly those, exports by their ten digits and name, archives by observed time and name; unknown and partial paths are passed over |
| NasExport.ExportNameIff | apps/gitlab-helm/files/nas-export.py:24-24 | The positional name check takes exactly the names of the publisher's pattern: ten digits, a date and a three-part version |
| NasExport.Store.Prune | apps/gitlab-helm/files/nas-export.py:206-210 | Removes a first part of the surplus, oldest first, and of at most one more directory some files |
| NasExport.PruningSpares | apps/gitlab-helm/files/nas-export.py:206-210 | However far pruning gets, unknown paths and the newest completions are as they were |
| NasExport.PruningLeavesNewest | apps/gitlab-helm/files/nas-export.py:206-210 | Finished pruning leaves exactly the newest completions, as many as are to be kept or all there are: no export removed has later ten digits, and no archive removed a later observed time, than one left |
| NasExport.PruningSoundIff | apps/gitlab-helm/files/nas-export.py:162-176 | After a stop the next run's scan passes if and only if no directory was left with some of its files removed |
| NasExport.StopMidway | apps/gitlab-helm/files/nas-export.py:206-210 | From every sound shelf with more completions than are kept there is such a stop: after the first file of the oldest, with everything to be kept intact, the next scan refuses |
| NasExport.Build | apps/gitlab-helm/files/nas-export.py:238-258 | Until the rename nothing but the private stage differs; from the rename on the complete new export is in place |
| NasExport.Publish | apps/gitlab-helm/files/nas-export.py:238-268 | Stopped or failing anywhere: before the rename every earlier export and archive is intact, after it the seven newest of old and new and the fourteen newest archives; success leaves exactly min(7, old + 1) exports and min(14, n) archives, and is reached when nothing fails exactly if both scans pass and the names are free; unknown and partial paths are never touched; whatever is removed is older, by ten digits or observed time, than everything left, and the export just published is left if its time exceeds that of every earlier one |
| CredentialGrant.Driver.Grant | drivers/seaweedfs-cosi-driver/pkg/driver/provisioner.go:248-307 | Either nothing is written or the identity holds exactly one credential: the one asked for, else the first usable one it had, else the new one; its actions keep their order and gain, without repetition, reading and listing of the bucket under readonly, and reading, writing, listing and tagging under readwrite or no policy, and no others, also in a write that lingers; any other policy writes nothing; a call in which nothing fails is refused only for an empty name or an unknown policy |
| CredentialGrant.FirstUsable | drivers/seaweedfs-cosi-driver/pkg/driver/provisioner.go:437-444 | The first credential with both keys, or none if there is none |
| CredentialGrant.WithExisting | drivers/cosi-provisioner-sidecar/pkg/bucketaccess/bucketaccess_controller.go:345-369 | The Secret's S3 keys override those of the class, and every other parameter stays |
| CredentialGrant.Access.MarkGranted | drivers/cosi-provisioner-sidecar/pkg/bucketaccess/bucketaccess_controller.go:298-343 | The grant is recorded only after both finalizers, which are never dropped |
| CredentialGrant.Access.Add | drivers/cosi-provisioner-sidecar/pkg/bucketaccess/bucketaccess_controller.go:157-296 | One attempt, stopped anywhere: a grant that takes effect settles identity and Secret on one credential, the one already settled on if there is one; a completed attempt leaves Secret and identity holding the same credential, and an attempt in which no call fails completes exactly if the request is grantable; the rights gained are those of the policy on the bucket and no others; a first Secret holds that credential with the driver's endpoint and region or their defaults |
| CredentialGrant.Access.Attempts | drivers/cosi-provisioner-sidecar/pkg/bucketaccess/bucketaccess_controller.go:157-296 | Over any number of attempts: every grant that takes effect carries one and the same credential, the actions only grow, without repetition, to include those of the policy on the bucket and no others, one attempt in which no call fails completes the grant, and once an attempt completes the two stores agree |
| CredentialGrant.Access.Turns | drivers/cosi-provisioner-sidecar/pkg/bucketaccess/bucketaccess_controller.go:157-296 | Over any mix of attempts and late landings of failed identity writes: if the class or the Secret supplies the keys, or no write fails before the first grant takes effect, the identity keeps the first credential granted and agrees with the Secret once an attempt completes; from a settled state with nothing harmful under way the same holds from the start |
| CredentialGrant.AgreementLastsIff | drivers/seaweedfs-cosi-driver/pkg/driver/provisioner.go:261-293 | Agreement of Secret and identity lasts through every continuation of attempts and landings if and only if no identity write still under way carries another credential |
| CredentialGrant.SettledForGood | drivers/seaweedfs-cosi-driver/pkg/driver/provisioner.go:272-282 | From a settled state with only such harmless writes under way, every continuation keeps the credential and stays so: every further write, also one that lingers, carries it |
| CredentialGrant.SuppliedKeeps | drivers/seaweedfs-cosi-driver/pkg/driver/provisioner.go:446-453 | While the class or the Secret supplies the keys, every write under way carries them and every grant settles on them |
| CredentialGrant.FirstGrantSettles | drivers/seaweedfs-cosi-driver/pkg/driver/provisioner.go:272-282 | The first grant that takes effect with no other write under way, or with supplied keys, settles the stores with nothing harmful under way |
| CredentialGrant.LateWriteSplits | drivers/seaweedfs-cosi-driver/pkg/driver/provisioner.go:261-293 | A concrete run: the first write lingers, a second attempt mints another credential and completes, the first write lands and the stores disagree, and one more attempt brings them together |

## Left out

- Transport and representation: HTTP, TLS, JSON, environment variables, signals, subprocesses, `/proc` scanning; requests are steps, their payloads values.
- Constant and type fields of the stored state (schema, uid, policy, runner id) and JSON type checks: a store step reads and writes typed states.
- Job, CronJob, bundle and service-account checks of Pods (`scheduled`, `bundle`, the GC Job generation test): whether they pass, and the slot they yield, are step inputs.
- The verdict on the accepted jobs and the list of waiting workers enter the step system as inputs of the drain iteration; how that verdict is reached is proved separately in `AcceptedJobs`.
- The methods of the four processes are steps over program counters, not method bodies, because any two of their API calls can be interleaved.
- Clocks: time is one integer, and each step of a process sees one value of it; rounding of float times is not modelled.
- `combined_pods`, `wait_for_gate` and `api_gate`: thin retries and identity checks around `pod_gate`; a gate's answer is an input of the retention run.
- The native UV cleaner: any unlinks inside its own root followed by any verdict (`RetentionRun.CleanNative`), without its binary qualification, its parent check and its proof of idleness.
- RetentionRun.Retain: use and free space are arbitrary functions of the names left, so use falls only by the run's own deletions; changes by other processes are covered by `RetentionTree.Disk.Remove` and `RetentionRun.Run.Delete`, which assume nothing of the kind before the call, but not changes during one snapshot or one deletion.
- RetentionTree.Scan.Visit: directories are paths in one tree value, so the descriptor-relative opens and the replaced-directory tests that guard against renames during the walk are not modelled.
- Goroutine-level locking in the mount manager: each request is atomic; per-volume mutual exclusion is not a property claimed here.
- Takeover.Manager.Export: the branch where duplicating or sending the descriptor fails is a request that gets no answer; a prepare request that takes effect although it reports a failure is not modelled.
- Takeover.Manager.TakeoverFrom: a second new manager taking over from, or releasing, the same old one at the same time; and how long the old manager serves moved volumes after the new process has ended.
- `ensureTargetClean`, `ensureTakeoverTargetPath` and socket removal: part of whether a worker is started; the unmounts they make of stale mounts at a target are not in the unmount logs, which are of exiting workers only.
- The rest of a mountinfo line: field splitting, device numbers, the file-system type test.
- Archive production and inspection, native tool output, locking of the export directory: the publisher's model starts with an inspected archive.
- NasExport.Build: staged contents are written in the source's order but each write is one change; a partly copied archive is an arbitrary content that fails the comparison.
- CredentialGrant.Access.Add: attempts for one BucketAccess follow each other, nobody else writes its Secret, no other write of a failed call than the identity's lands late, and the driver is one process; the look-ups of class, claim and bucket before the Secret are not modelled, and neither is revocation.
- CredentialGrant.Driver.Grant: new credentials are inputs with non-empty keys.
- Azure credentials, bucket creation, the legacy shared identity file, events and metrics.
- The recycler (evicts consumer Pods of a node whose mounts have become unusable), the manifest validators and the export rendering (compare and print configuration files), the CSI controller and node plumbing (translates CSI calls into requests to the mount service): they keep no state of their own that the protocols above depend on.
