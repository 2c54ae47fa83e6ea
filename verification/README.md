# Verified model of the three-server HA control plane

This project models the part of APC that runs a three-server K3s cluster with embedded etcd on one
host: restore and recovery from a snapshot package, the supervisor and the member commands, the
etcd checks in front of them, envelope starts with address collisions, creation, deletion, durable
intent, and the small structures around them (proxy pool, bounded log, backoff, configuration).
Verify it with `dafny verify dfyconfig.toml`.

## How the model works

`Worlds` describes what is outside the program: three server envelopes and data volumes, the
recovery helpers, the network and the durable files. A volume carries the identity of the cluster
whose etcd database it holds (its lineage). No program reads that identity; the proofs do. `lost`
and `nextCluster` are history variables of the same kind.

`Hosts` is the program's only way to that world. `Issue` lets the world move on its own, then
applies a command or not, and reports success only if it was applied; `Write` leaves the old or the
new file; the process can die at either, and from then on nothing it does has an effect. So what a
method promises of its final state it promises of every crash point. Each issued command is logged
with the world it met and with what the current call had confirmed; `reports`
keeps the etcd answers a gate judged, `readings` the status readings that were completed, in order,
and `efforts` the starts and rollbacks a call set out on to make up for earlier work. While a run has
`pledged` that the volumes stay one cluster's, no operation that could change that can be verified. `Sound` says what is demanded of one such entry, and the safety results say that every entry of a whole
run is sound.

Two constants of a host widen what can be said, and no safety result about recovery depends on them.
On a `stable` host no virtual machine stops by itself, although commands still fail and lie: majority
results are about such hosts. On a `reliable` host commands that can be carried out are, started
servers become ready while the program waits, etcd views agree and no process dies: completion, convergence and
"exactly when" results about whole operations are about such hosts.

The recovery results rest on three predicates. `Worlds.OneLineage`: no two running servers belong to
different clusters. `Worlds.Coherent`: all three volumes hold one cluster. `Recoveries.Underway`: every
state an unfinished recovery of a lost host can be left in.

| modules | part of the program |
|---|---|
| Worlds, Hosts, Journals, Intents | runtime, durable journal, durable intent |
| Envelopes, Statuses, Stops, Helpers, Resets | single steps: starts, preflight and status, stops, helpers and staging, reset and peer clearing |
| Restores, Rollbacks, RestoreCalls, Recoveries | restore phases, rollback, one whole restore, RecoverHA and RestoreHA |
| Revivals | what a cluster looks like while it is brought back without faults |
| Etcd, Members, Snapshots, Creations, Backoff, Supervision | etcd checks, member commands, snapshot, create and start, supervisor memory, one tick |
| Runs | whole runs: recovery of a lost host, restores and recoveries, maintenance, starts, ticks |
| Deletions, Staging, Proxies, Logs, Sizes, Configs | deletion, artifact copy, proxy pool, log, sizes, configuration |
| Options, Numbers, Texts | shared small types and functions |

## What turned out to have exceptions

- A restore that fails only in its last save has its record rewritten as failed with the completion
  time still set. The loader then trusts it no more, so nothing runs, but no retry is admitted
  either (`Journals.FailedRewriteOfCompletedIsUntrusted`). `Runs.ResumeFaultFree` has this as its one exception.
- When that last save reached the disk and only its report was lost, the rollback runs behind a
  journal that already says completed. It then meets one cluster throughout; this is the only case in
  which a member command is sound without a closed journal (the `finishing` flag of a call), and when
  no server fails by itself such a rollback touches none (`Rollbacks.Rollback`).
- RestoreHA keeps no provenance. A call that dies between its reset and the last rejoined peer, or
  fails after a reset whose report was lost, leaves volumes of two clusters behind a journal that opens
  RestoreHA again. A retry is sound from them, too, unless it fails before its own reset: its rollback
  then starts the originals, two clusters run, and the journal calls that a success. What a caller can
  check is the journal's phase. Calls made only behind a vouching journal never split, and neither does
  RecoverHA once creations are on record (`Runs.RestoreRun`); every other phase that opens the gate can end in a split
  (`Runs.DoubtfulPhases`, `Runs.RetrySplits`).
- A tick does not always make an otherwise fault-free cluster ready when several members are down: one
  that still runs may use the legacy envelope, whose migration is refused until all are ready, and the
  members started before it are not ready yet when it is reached. One tick succeeds exactly when no
  running legacy envelope is there (`Supervision.Tick`, `Creations.ReconcileAll`).
- A full deletion can leave the pointer to the current cluster behind, exactly when it dies between the
  removal of the configuration and that of the pointer. The staging directory and the helpers of an
  interrupted restore it never removes (`Deletions.DeleteAgain`).

## Model

| member | source | states |
|---|---|---|
| Runs.RecoverLostHost | internal/cluster/ha_recovery.go:459-620 | Start from an empty host and make any sequence of RecoverHA and RestoreHA calls with any packages and of supervisor ticks, with lost reports and a crash anywhere, until the journal first lets the supervisor in: every issued command was sound, at most one cluster ever runs, and the host is either still under recovery from one package or finished. |
| Runs.LostRunIsLicensed | internal/cluster/ha_recovery.go:981-1033 | In such a run member 1 is started only by a call whose own reset was confirmed, members 2 and 3 only after that call also emptied their database; volumes are created only when already on record; the reset runs only with every server down and the staging copy complete; member commands are issued only behind a closed journal or after the call has begun to record its completion. |
| Runs.OneCall | internal/cluster/ha_recovery.go:711-727 | While a lost host is being recovered only RecoverHA can act, and only for the package on record: another package or token, RestoreHA and the supervisor are refused, and each call leaves the host resumable or finished. |
| Runs.ResumeFaultFree | internal/cluster/ha_recovery.go:661-695 | Wherever a recovery was interrupted, one fault-free retry with the same package ends with three ready members of the cluster its own reset founded; it is refused exactly when the last save failed after completion and the record was overwritten as failed. |
| Runs.LoseAndRecover | internal/cluster/ha_recovery.go:459-695 | From a lost host, after any such run on a host that may fail in every way, one fault-free call with the package on record finishes the recovery, unless the run left the one record that is trusted no more. |
| Runs.RestoreRun | internal/cluster/ha_recovery.go:459-920 | Start from at most one running cluster behind a journal that is right about complete volumes, with all volumes there or some of them gone, and make any sequence of RestoreHA and RecoverHA calls with any packages, member commands, snapshots and ticks, with lost reports and crashes anywhere. RestoreHA and the commands are called only while the journal vouches for complete volumes (it lets the supervisor in, all members have rejoined, or the reset is not announced and no creation is on record) or RestoreHA is refused; RecoverHA also while creations are on record or a volume is missing. Then no command ever meets running servers of two clusters, and a vouching journal stays right. |
| Runs.DoubtfulPhases | internal/cluster/ha_recovery.go:697-727 | A journal that RestoreHA accepts fails to vouch for the volumes exactly when it is in a phase from the announced reset to the last rejoined peer, or failed without recovery. |
| Runs.BreakOff | internal/cluster/ha_recovery.go:864-1033 | For each of these phases there is a RestoreHA call from a cluster in order that passes its gates, inspection and staging and dies in the phase, leaving an open gate and volumes of two clusters; no report need be lost. |
| Runs.RetryBeforeReset | internal/cluster/ha_recovery.go:1992-2016 | A retry that passes the gates again and is rolled back before its own reset leaves one cluster running exactly when the volumes were one cluster's, and records success either way. |
| Runs.RetrySplits | internal/cluster/ha_recovery.go:697-709 | For each doubtful phase a crash in it and one admitted retry end with servers of two clusters running behind a journal that lets the supervisor in, so the condition of the run above cannot be weakened. |
| Runs.AnyMaintenance | internal/cluster/ha_members.go:46-92 | From a running majority, any sequence of StopHAMember, StartHAMember, RestartHAMember, SnapshotHA and ticks, with lost reports and crashes, keeps a majority running as long as no server fails by itself; a server is stopped only while both others run. |
| Runs.StartMany | internal/cluster/ha_addresses.go:218-266 | After any series of starts none of which is refused (each succeeds, or is taken back after its third collision) no running server sits on another member's stable address, and no start issues more than three runs. |
| Runs.TicksRespectMember | internal/cluster/lifecycle.go:320-337 | Over any number of ticks a member that is to stay down is never started and the intent is not changed. |
| Runs.TicksRespectStop | internal/cluster/lifecycle.go:310-315 | Over any number of ticks, from whatever point StopHA was cut short at, a cluster that is to stop is only ever stopped. |
| Runs.RepairRun | internal/cluster/lifecycle.go:290-379 | Over any number of ticks, on a host that may fail in every way: the ticks share out everything that was issued; a tick that is to keep all three running issues nothing unless it completed a reading, and its record holds the first reading it completed; if that reading shows one running member to repair, every command of the tick is about that member and the tick is noted as a repair of it begun then; every repair began with the gate open, and repairs do not overlap while the clock does not run backwards. |
| Journals.TrustedSafety | internal/cluster/ha_recovery.go:697-700 | In a journal the loader trusts, runtime safety is the success flag alone, and only terminal phases have it. |
| Journals.RecoverOnlyJournalClosesOtherGates | internal/cluster/ha_recovery.go:697-727 | A journal that demands RecoverHA, or that is not trusted, closes both the supervisor and RestoreHA; what opens RestoreHA but not the supervisor is exactly a trusted unsuccessful journal without created members. |
| Journals.FailedRewriteOfCompletedIsUntrusted | internal/cluster/ha_recovery.go:2757-2796 | Rewriting a completed record as failed keeps its completion time, so the loader trusts it no more and every gate stays closed. |
| Journals.MergeProvenance | internal/cluster/ha_recovery.go:729-753 | The merged provenance is the sorted partition whose created part is what was recorded before plus the volumes missing now. |
| Journals.MergeIsMonotone | internal/cluster/ha_recovery.go:729-753 | Merging a valid provenance yields a valid one and forgets no created member. |
| Journals.ValidateProvenance | internal/cluster/ha_recovery.go:2798-2817 | Accepts exactly the sorted partitions of {1, 2, 3}. |
| Journals.PartitionIsDeterminedByCreated | internal/cluster/ha_recovery.go:2798-2817 | A provenance is acceptable exactly when it is the one partition named by its created members. |
| Intents.MemberIntentIsLocal | internal/cluster/ha_desired_state.go:195-211 | Changing one member's intent changes nobody else's; the result is valid exactly when the member is cleared or no other member is marked. |
| Intents.ValidateDesired | internal/cluster/ha_desired_state.go:140-161 | Accepts exactly intents with at most one stopped member, in range. |
| Intents.LoadDesired | internal/cluster/ha_desired_state.go:54-79 | A missing file reads as Running with nobody stopped; an invalid one is an error. |
| Intents.SaveDesired | internal/cluster/ha_desired_state.go:163-184 | Only a valid intent reaches the disk, old-or-new, whatever the write reports. |
| Intents.SetMemberIntent | internal/cluster/ha_desired_state.go:195-211 | Load, change one member, validate, write; a second stopped member is refused. |
| Intents.MarkClusterStopped | internal/cluster/ha_desired_state.go:216-223 | The cluster is to stop and stopped members stay marked. |
| Intents.MarkClusterRunning | internal/cluster/ha_desired_state.go:225-233 | The cluster is to run and nobody is marked any more. |
| Hosts.Host.Issue | internal/cluster/ha.go:1435-1446 | A runtime command may be applied or not whatever it reports; only a reported success means it was applied; the process may die at it. |
| Hosts.Host.Write | internal/cluster/ha.go:1529-1565 | An atomic file write leaves the old or the new file, whatever it reports. |
| Hosts.Host.Run | internal/cluster/ha_addresses.go:227-245 | One detached server run: it touches only its envelope, and keeps every lineage fact when the call is licensed to start it. |
| Hosts.Host.Reset | internal/cluster/ha_recovery.go:1421-1449 | Only a confirmed reset says that the seed holds the restored cluster; an unconfirmed one may have left it half written. |
| Hosts.Host.Clear | internal/cluster/ha_recovery.go:1634-1641 | Only a confirmed removal says that a peer's database is empty; no other volume is touched. |
| Envelopes.FindCollision | internal/cluster/ha_addresses.go:35-51 | Finds a collision exactly when another member has this runtime address as its stable address. |
| Envelopes.ValidateReservations | internal/cluster/ha_addresses.go:78-105 | Accepts exactly when no inspected running server sits on another member's stable address. |
| Envelopes.ValidatePeerReservations | internal/cluster/ha_addresses.go:107-131 | Success means no running peer of the target overlaps a reserved address now. |
| Envelopes.WaitAddress | internal/cluster/ha_addresses.go:133-176 | Free is reported only for a running server whose address is nobody else's. |
| Envelopes.StopExact | internal/cluster/ha_addresses.go:190-204 | Success means the envelope is down; nothing but stops of this envelope is issued. |
| Envelopes.DeleteExact | internal/cluster/ha_addresses.go:178-216 | Removes exactly the target's envelope; a delete is issued only while the envelope is not running. |
| Envelopes.TryRun | internal/cluster/ha_addresses.go:227-257 | One run and its address check; a collision ends with this envelope gone. |
| Envelopes.RunEnvelope | internal/cluster/ha_addresses.go:218-266 | At most three runs, only the target's envelope is touched, three collisions leave it absent, and after a start that is not refused no running server sits on another member's stable address. |
| Envelopes.Recreate | internal/cluster/ha.go:947-951 | Replaces a stopped or missing envelope by a freshly started one; success leaves all addresses free. |
| Envelopes.StartForRecovery | internal/cluster/ha_recovery.go:1602-1620 | A running member counts as started; a stopped one is deleted and started afresh; nothing else is touched and a running server is never lost. |
| Envelopes.DeleteStopped | internal/cluster/ha_recovery.go:1585-1600 | A delete is issued only while the envelope is not running; fault-free a running one is refused with nothing issued. |
| Statuses.TakePreflight | internal/cluster/ha.go:703-745 | Success means every existing resource is the cluster's own and the findings are what the runtime held; a partial set of volumes is refused unless allowed. |
| Statuses.ReadStatus | internal/cluster/ha.go:1033-1086 | Only a running member can be ready, a ready node has a database, and the reading is kept as the evidence for what is decided on it. |
| Statuses.AllMembersReady | internal/cluster/ha_members.go:287-297 | True exactly when all three node, API and runtime states are ready. |
| Statuses.OtherMembersReady | internal/cluster/ha_members.go:299-311 | True exactly when both other members are ready. |
| Statuses.WaitMemberReady | internal/cluster/ha.go:993-1009 | Success means the member was running over a database when it answered. |
| Statuses.WaitClusterReady | internal/cluster/ha.go:1011-1031 | Success means one reading showed three running members with node and API ready, over three databases; on a host where no server fails by itself all still run. |
| Stops.StopRecorded | internal/cluster/ha_recovery.go:985-994 | Stops the servers that were seen running, each at most once and the last member first; success means all are down, nothing else was done, and what was already down is left alone. |
| Helpers.RetireHelper | internal/cluster/ha_recovery.go:1186-1225 | Success means inspection no longer finds the helper, whatever stop and delete reported. |
| Helpers.LaunchHelper | internal/cluster/ha_recovery.go:1137-1184 | A start is issued only while no helper exists under its name. |
| Helpers.CleanupStaleHelpers | internal/cluster/ha_recovery.go:1664-1699 | Success means the reset helper and both clearing helpers are gone; no member is touched. |
| Helpers.EnsureNoHelpers | internal/cluster/ha_recovery.go:1644-1662 | Success means that no recovery helper exists, the snapshot copier included. |
| Helpers.PrepareStage | internal/cluster/ha_recovery.go:1713-1731 | The staging copy is rebuilt only after every helper was ruled out; success means it is complete. |
| Helpers.CleanupStage | internal/cluster/ha_recovery.go:1733-1745 | The staging copy is removed only once the reset helper is known to be gone. |
| Resets.ResetSeed | internal/cluster/ha_recovery.go:1421-1449 | Success means the runtime confirmed the reset, the seed holds a cluster and the reset helper is gone; whatever fails, every server stays down. |
| Resets.TryReset | internal/cluster/ha_recovery.go:1429-1443 | One attempt and the helper's removal; a collision has touched no data. |
| Resets.ClearPeer | internal/cluster/ha_recovery.go:1622-1642 | Empties one peer's database through a new helper over a removed envelope; the seed is refused. |
| Restores.UpdatePhase | internal/cluster/ha_recovery.go:2819-2824 | The next phase is durable, and the journal is closed to the supervisor before and after. |
| Restores.RefreshKubeconfig | internal/cluster/ha_recovery.go:1058-1067 | Writes the kubeconfig a running seed hands out and nothing else. |
| Restores.ResetPhase | internal/cluster/ha_recovery.go:996-1008 | Remembers that the reset was attempted before it is, and that it is complete only when confirmed. |
| Restores.StartSeedPhase | internal/cluster/ha_recovery.go:1009-1017 | The seed is started only over the restored database. |
| Restores.RejoinPhase | internal/cluster/ha_recovery.go:1019-1033 | Each peer is emptied before it is started, in order; success means both were, and all three volumes hold one cluster. |
| Restores.VerifyPhase | internal/cluster/ha_recovery.go:1035-1044 | Success means three members ready in one reading, over one cluster, and a kubeconfig. |
| Restores.RecordCompletion | internal/cluster/ha_recovery.go:1045-1055 | Only a coherent cluster is ever recorded as completed, on the reading of three ready members it was seen in. |
| Rollbacks.RetireHelpers | internal/cluster/ha_recovery.go:1953-1965 | All three restore helpers are removed, fault-free exactly they; success means they are gone. |
| Rollbacks.RollbackOriginals | internal/cluster/ha_recovery.go:1992-2016 | Before any reset the three originals are started together and only then waited for; a call begun on one cluster stays on it, volumes keep the databases they hold, and fault-free all are ready if they were running or stopped, an empty peer volume joining the seed. |
| Rollbacks.RollbackCreated | internal/cluster/ha_recovery.go:1971-1991 | Over volumes this recovery created nothing is started; fault-free intent and servers are stopped. |
| Rollbacks.StopAllExact | internal/cluster/ha_recovery.go:2062-2101 | Success means inspection showed all three servers down. |
| Rollbacks.RollForward | internal/cluster/ha_recovery.go:2019-2055 | After a confirmed reset the restore is carried on: a peer is emptied unless this call already did; success means three members of one cluster, and fault-free it succeeds from every point such a call can have reached with the finished members ready. |
| Rollbacks.Rollback | internal/cluster/ha_recovery.go:1953-2056 | An uncertain reset starts nothing and reports no recovery; otherwise success means three ready members in one reading, of one cluster unless the call strayed, which it does only when it began on mixed volumes, never issued its reset and is alive to roll back; over created volumes before a reset everything is stopped; after a completed record no server is touched when none fails by itself. |
| RestoreCalls.OpenRestore | internal/cluster/ha_recovery.go:926-951 | The nonterminal journal is on disk before the intent changes, at every crash point. |
| RestoreCalls.FailRestore | internal/cluster/ha_recovery.go:958-979 | The deferred rollback is entered and its result recorded; a record that lets the supervisor in is backed by a reading of three ready members and, unless the call strayed, by one cluster; fault-free the record is exactly the failure with recovery succeeded before a reset and after a confirmed one, and not succeeded after an uncertain one. |
| RestoreCalls.RestoreValidated | internal/cluster/ha_recovery.go:925-1056 | From any three volumes, or behind a closed journal over created ones: every command is sound at every point unless the volumes were of different clusters and the call is rolled back before its own reset; the journal left is the old one or this call's, on disk before the intent changes, and lets the supervisor in only over one cluster seen ready; a call that fails after its first command enters the rollback exactly once, and a fault-free call completes with three ready members of the cluster its reset founded. |
| Recoveries.LoadRetry | internal/cluster/ha_recovery.go:661-695 | A retry goes on only from a trusted unfinished journal of the same package, with stopped intent when the configuration is gone; a safe journal needs the configuration. |
| Recoveries.CheckToken | internal/cluster/ha_recovery.go:755-767 | Accepts a missing token or the package's own. |
| Recoveries.CheckEmptyHost | internal/cluster/ha_recovery.go:769-793 | Accepts exactly a host without token, kubeconfig, network, volumes and servers whose intent, if any, is Stopped. |
| Recoveries.Judge | internal/cluster/ha_recovery.go:504-562 | On a fault-free host accepted exactly when package and host are admissible; a refusal issues no command and may only widen the recorded creations, as it does for a retry that meets envelopes without all their volumes. |
| Recoveries.Publish | internal/cluster/ha_recovery.go:571-605 | Stopped intent, then journal, then token, then configuration: each is on disk only after the ones before it. |
| Recoveries.EnsureInfrastructure | internal/cluster/ha_recovery.go:844-859 | Creates only what is missing, each volume only while the journal on disk records it as created; no server is touched. |
| Recoveries.Lay | internal/cluster/ha_recovery.go:571-618 | After the plan is published and built, network and all three volumes exist and the restore may begin. |
| Recoveries.RecoverHA | internal/cluster/ha_recovery.go:459-620 | Whatever fails, the journal is the old one or this call's with at least the earlier creations, it lets the supervisor in only over one cluster seen ready, and every command was sound, unless no creation is on record, the volumes were of different clusters and the call is rolled back before its own reset, which cannot happen when the journal rightly vouched for the volumes, creations were on record or a volume was missing; a fault-free call succeeds exactly when package and host are admissible, another package's recovery is left as it is, and a retry refused because part of its own work is gone first records the missing volumes as created. |
| Recoveries.ProvenanceGrows | internal/cluster/ha_recovery.go:729-753 | Across calls no member leaves the recorded creations until the journal lets the supervisor in. |
| Recoveries.UnderwayIsRecoverable | internal/cluster/ha_recovery.go:711-727 | Once a lost host has a configuration again, its unfinished journal closes the supervisor and RestoreHA. |
| Recoveries.UnderwayIsAdmissible | internal/cluster/ha_recovery.go:528-562 | From every state an unfinished recovery can be left in, the retry's own guards pass exactly when the journal is missing or trusted. |
| Recoveries.ConcludedIsFinished | internal/cluster/ha_recovery.go:1045-1055 | A completed recovery opens the supervisor over three volumes of one cluster. |
| Recoveries.RestoreHA | internal/cluster/ha_recovery.go:864-920 | Refused without touching anything behind a journal that demands RecoverHA, and without a command when a volume is missing. From volumes of one cluster every command is sound and a vouching journal stays right; from others, too, every command is sound unless the call is rolled back before its own reset. Fault-free it succeeds exactly when gate, network and volumes are there, whatever the volumes hold. |
| Etcd.CanonicalIsIdempotent | internal/cluster/ha_etcd.go:310-320 | The canonical form of a server ID denotes the same number and is its own canonical form. |
| Etcd.CanonicalIdentifies | internal/cluster/ha_etcd.go:310-320 | Two spellings are identified exactly when they denote the same number. |
| Etcd.ParseLocalState | internal/cluster/ha_etcd.go:179-270 | Accepts exactly the reports of a healthy voter with an elected leader and two distinct peers. |
| Etcd.ValidateTopology | internal/cluster/ha_etcd.go:43-82 | Accepts exactly three distinct voters that name each other and one leader. |
| Etcd.ValidateRepairQuorum | internal/cluster/ha_etcd.go:89-135 | Accepts exactly two voters that name each other and the same third server, with at most one leader. |
| Etcd.ChecksCoincide | internal/cluster/ha_etcd.go:43-135 | The full check accepts exactly when the degraded one accepts for all three targets and somebody leads. |
| Etcd.RepairSeesThreeServers | internal/cluster/ha_etcd.go:157-167 | An accepted repair means both voters see the same three distinct servers. |
| Members.PreflightTopology | internal/cluster/ha_members.go:167-188 | Success means network, all volumes and every envelope but perhaps the target's exist. |
| Members.WaitMemberStopped | internal/cluster/ha_members.go:255-276 | Success means one reading showed the member down with both others ready. |
| Members.JudgeStop | internal/cluster/ha_members.go:190-215 | A stop proceeds only on a reading of all three ready and after the full etcd check has accepted what the members reported; a member already down needs a reading of the other two ready. |
| Members.StopMember | internal/cluster/ha_members.go:190-223 | Touches only the target, keeps the majority, and issues its stop only after the full etcd check; a stop that may have been applied asks for a restart. |
| Members.JudgeStart | internal/cluster/ha_members.go:225-244 | A start proceeds only on a reading of both other members ready, and with all addresses free. |
| Members.StartMember | internal/cluster/ha_members.go:225-253 | Touches only the target, keeps the majority, succeeds only on a reading of three ready members, and fault-free brings the member back, over its database or over an empty volume beside a running seed, or finds it back. |
| Members.ReconcileMember | internal/cluster/ha.go:920-952 | A current running envelope is kept, a legacy one is migrated through a quorum-safe stop and start, any other is replaced; a running legacy envelope is refused while not all members are ready. |
| Members.StopHAMember | internal/cluster/ha_members.go:14-25 | The durable intent names exactly this member, and the full etcd check has passed, before any command; only this member is touched and the majority is kept. |
| Members.StartHAMember | internal/cluster/ha_members.go:29-36 | Success leaves the member unmarked; only it is touched, the majority is kept, and fault-free all three are ready. |
| Members.RestartHAMember | internal/cluster/ha_members.go:46-92 | A stop/start cycle that leaves no stop intent; whatever fails, once a command was issued the last thing the call sets out on is a start of this member; the majority is kept and fault-free all three are ready. |
| Snapshots.SnapshotHA | internal/cluster/ha_recovery.go:191-452 | The seed is stopped only after the full etcd check, only the seed is touched, once a command was issued the last thing the call sets out on is to bring the seed back, no file of the cluster changes, and fault-free all three are ready again. |
| Creations.CreateInfrastructure | internal/cluster/ha.go:815-831 | Touches no server, helper or file and keeps the majority; with network and volumes there nothing is issued, and fault-free from no volumes the network and three empty ones exist. |
| Creations.CreateVolumes | internal/cluster/ha.go:821-831 | Creates only what is missing; a failure enters the rollback of this call's own creations exactly once. |
| Creations.RollbackInfrastructure | internal/cluster/ha.go:904-918 | Undoes only this call's own creations, touches no server and keeps the majority; fault-free exactly these volumes and the network are gone again and nothing else about the members has changed. |
| Creations.ReconcileAll | internal/cluster/ha.go:834-848 | From members that are ready, starting or down, over databases or over the empty volumes an interrupted creation left, a fault-free reconcile succeeds exactly when no running legacy envelope blocks it, which it does unless all three are ready: members that are down are started without waiting, so a migration meets members that are not ready yet. |
| Creations.CreateLocked | internal/cluster/ha.go:782-872 | A running majority and all data volumes of an existing cluster are kept, journal and staging are not touched, and configuration and running intent are saved before the first command; fault-free a host without servers and volumes ends with three ready members of the one cluster the seed founds, and one with every member ready, starting or down, its volume still empty or not, ends with all ready exactly when no running legacy envelope blocks it. |
| Supervision.StopLocked | internal/cluster/ha.go:1320-1345 | Durable stop intent first, then only stops, and none when all servers are down; success means all servers are down. |
| Supervision.StopUnhealthy | internal/cluster/lifecycle.go:399-419 | The intended member is stopped only after the degraded etcd check has just proven a majority without it; it is never started and fault-free it is down. |
| Supervision.ReviveOther | internal/cluster/lifecycle.go:421-451 | While one member is to stay down, only another member is worked on; fault-free, if it is down, it is ready again. |
| Supervision.EnforceIntent | internal/cluster/lifecycle.go:320-337 | Never starts the member that is to stay down, and stops it only after the full etcd check when all are ready, after the degraded one when both others are, and not at all otherwise; does nothing when it is down and the others are ready; fault-free the member is down afterwards with the others ready, and another member that was down is ready again. |
| Supervision.RepairMember | internal/cluster/lifecycle.go:453-494 | Works on the member only after the degraded etcd check has just proven a majority without it; once a command was issued the last thing the call sets out on is a start of this member; the majority is kept and fault-free all three are ready. |
| Supervision.RepairGated | internal/cluster/lifecycle.go:370-378 | Inside the startup grace of the member or the delay since its last failed repair nothing is issued; otherwise one repair begun now is noted with its end and outcome, and what it issued came after the degraded etcd check. |
| Supervision.StartLocked | internal/cluster/ha.go:1291-1309 | Running intent is saved before anything else is looked at, so a fault-free call saves it even when the create path then refuses; no command precedes it. |
| Supervision.Tick | internal/cluster/lifecycle.go:290-379 | Behind a closed journal a tick touches nothing; stop intent leads to stops only, to none when all are down on any host, and to all down when fault-free. Under running intent the tick acts on the first reading it completes and issues nothing without one: all ready, nothing is issued; one running member not ready, nothing is issued within its grace or delay, and otherwise only about that member and only after the etcd check has proven a majority without it; what is noted is exactly what that reading calls for. A member that is to stay down is not started, is stopped only behind its etcd check, and fault-free it is down with the others ready and another member that was down is revived. The majority and all data volumes are kept; one fault-free tick makes all ready from at most one unready member, and from several unready ones, over databases or empty volumes, exactly when no running legacy envelope blocks the way. |
| Backoff.DelayAfter | internal/cluster/lifecycle.go:244-261 | The delay after k failures in a row is min(30s * 2^(k-1), 300s). |
| Backoff.SupervisorState.RepairAllowed | internal/cluster/lifecycle.go:240-242 | Open exactly when the last repair succeeded or its delay is over. |
| Backoff.SupervisorState.RecordRepair | internal/cluster/lifecycle.go:244-261 | The memory stands for the whole history of repairs: failures in a row and when the next may be tried. |
| Backoff.SupervisorState.RecordStartup | internal/cluster/lifecycle.go:263-271 | The grace of a start never shortens an earlier one. |
| Backoff.SupervisorState.StartupInProgress | internal/cluster/lifecycle.go:273-275 | True exactly while some start since the member last settled is within its grace. |
| Backoff.RepairsAreSpaced | internal/cluster/lifecycle.go:240-261 | Anywhere in a history of repairs begun only with the gate open, a repair after a failed one begins no earlier than that failure's delay after its end, as long as none succeeded and the member was not found ready in between. |
| Backoff.StartsAreLeftAlone | internal/cluster/lifecycle.go:263-275 | In such a history no repair begins within the grace of a noted start of that member, unless the member settled in between. |
| Backoff.ProxyRetries | internal/cluster/lifecycle.go:143-187 | The wait after k failing rounds is min(initial * 2^k, maximum), despite integer halving. |
| Backoff.ProxyDelaysGrow | internal/cluster/lifecycle.go:143-187 | The waits are positive, never shrink and never exceed the cap. |
| Deletions.DeleteFiles | internal/cluster/ha.go:1417-1426 | The configuration goes last of the state files; while it is there the current pointer is untouched. |
| Deletions.DeleteHA | internal/cluster/ha.go:1356-1427 | Nothing is touched unless everything that exists is owned; a full deletion leaves, at every point, the configuration or no server, volume, network, kubeconfig, token, journal and intent; keeping data keeps network and volumes; staging directory and helpers are left as they are. |
| Deletions.DeleteAgain | internal/cluster/ha.go:1356-1427 | A full deletion cut short anywhere and run again without faults leaves no server, volume, network and recorded state; the current pointer stays exactly when the first run died after removing the configuration and before the pointer, the staging directory and helpers stay always. |
| Deletions.DeleteTwice | internal/cluster/ha.go:1356-1427 | The same for a full deletion on a host that may fail in every way and die anywhere, followed by one without faults: what is left is the current pointer at most, exactly when the first died between configuration and pointer, and what a restore had staged. |
| Staging.CopyArtifact | internal/cluster/ha_recovery.go:1870-1931 | Success means exactly the validated size and digest whatever the source does between reads; never more than that size is staged; an unchanging source is copied exactly when its content is the validated one, for any chunking. |
| Proxies.ProxyPool.Candidates | internal/cluster/ha_proxy.go:443-461 | A rotation of exactly the healthy and trusted backends, starting one further each time. |
| Proxies.RotationIsPermutation | internal/cluster/ha_proxy.go:456-460 | A rotation offers each eligible backend once. |
| Proxies.EligibleIsExact | internal/cluster/ha_proxy.go:446-451 | Eligible are exactly the healthy and trusted backends, without duplicates. |
| Proxies.ProxyPool.HealthyCount | internal/cluster/ha_proxy.go:431-441 | Counts the eligible backends. |
| Proxies.ProxyPool.HandleClient | internal/cluster/ha_proxy.go:342-359 | A client is served by an eligible backend or every eligible one was found unreachable and marked; identities do not change. |
| Proxies.ServeMany | internal/cluster/ha_proxy.go:443-461 | Over any number of clients with a fixed eligible set, first places differ by at most one. |
| Proxies.UntrustedStaysOut | internal/cluster/ha_proxy.go:413-467 | Under any health updates and failed dials an untrusted backend serves nobody until identities are replaced. |
| Logs.BoundedSupervisorLog.Write | internal/cluster/supervisor_log.go:184-222 | Never leaves more than the maximum; success leaves exactly the bounded result; a failed write leaves the old or an emptied file with a part of the data. |
| Logs.WriteMany | internal/cluster/supervisor_log.go:184-222 | The bound holds after any writes, and undisturbed ones leave what the rule says. |
| Logs.ContentsAreRecentWrites | internal/cluster/supervisor_log.go:198-208 | The file always holds the most recent whole writes, after what was found, after nothing, or after one oversized write's tail. |
| Sizes.ParseByteSize | internal/cluster/ha.go:311-342 | Accepts exactly the positive products below 2^64 and returns them exactly. |
| Sizes.FactorsDivide | internal/cluster/ha.go:338-341 | Comparing with the quotient decides exactly whether the product reaches 2^64. |
| Configs.LastAddressIsBroadcast | internal/cluster/ha.go:303-309 | The last address is the network plus 2^(32-bits) - 1 and bounds every address of the prefix; masking is idempotent. |
| Configs.ProxyPort | internal/cluster/ha_proxy.go:39-65 | The port below the smallest member port, refused when privileged or when ports repeat or are out of range; it is no member's. |
| Configs.CheckMembers | internal/cluster/ha.go:261-296 | Accepts exactly the member lists whose filled-in form passes every check and has no duplicates. |
| Configs.Normalize | internal/cluster/ha.go:172-301 | Accepts exactly the configurations whose normal form passes every check, and returns that form. |
| Configs.NormalIsIdempotent | internal/cluster/ha.go:172-301 | A normal form that passes is its own normal form. |
| Configs.NormalIdsAreOrdered | internal/cluster/ha.go:259-272 | The IDs are 1, 2, 3 in this order. |
| Configs.NormalAddressesAreUsable | internal/cluster/ha.go:280-284 | Stable addresses are distinct and strictly between network + 1 and the last address. |

## Left out

- CLI parsing and output, launchd, packet filter, overlay, doctor, diagnostics, image transport, single-server and agent clusters: not part of this model.
- Transitional runtime states (creating, stopping): a server or helper is missing, stopped or running.
- Exact comparison of inspect records: replaced by one owned-or-foreign flag per resource name.
- Timeouts, deadlines and contexts: a command or write may fail at any time; time is a number only in delays and startup grace.
- Timestamps, message and next-action texts of the journal, and its clock sanity checks; of the completion time only whether it is set is kept.
- File modes, symbolic links, inode and ACL checks, JSON decoding, TLS and real sockets: files are values. SHA-256 is a function the copy is given.
- Package validation: one flag says that a package passes every check against the trusted digest; the trusted digest itself is part of that flag.
- Files that are present but unreadable, other than an invalid intent or an untrusted journal: configuration, token and kubeconfig are there or not.
- Operation locks: operations do not interleave in the model because the lock does not let them.
- Reading of K3s and etcd: that a guest exits before K3s starts on an address collision, that a reset founds one new cluster, that an emptied peer joins the running seed's cluster are assumptions in `Worlds`.
- CreateHA, StartHA and the member commands do not read the recovery journal; they are kept out of the journal results and in the majority results.
- Envelopes.WaitAddress: does not model parsing of the collision line in a stopped envelope's log; whether it is there is arbitrary.
- Runs.RestoreRun: does not model a tick that passes its gate while a volume is missing; from a host that lost only some volumes the supervisor comes back with the record of the creations. That such a run ends in recovery is stated call by call, by RecoverHA.
- Snapshots.SnapshotHA: does not model the package it writes, only what it does to the cluster.
- Creations.CreateLocked: does not model the comparison of a requested configuration with the saved one, which the supervisor's path passes by construction.
- Etcd.ParseLocalState: does not model splitting of the probe's text into lines and labels; peers are sorted as numbers where the source sorts their canonical texts, which decides the same equalities.
- Texts.Trim: does not model Unicode space and case; the parsers accept ASCII only, and a text that Unicode trimming alone would make acceptable is refused.
- Configs.Normalize: does not model the image, listen address and file paths, nor the parsing of addresses and MACs, whose results are fields of the record.
- Deletions.DeleteFiles: does not model the removal of the emptied directory.
- Logs.BoundedSupervisorLog.Write: does not model other writers to the same file, nor opening it.
- Backoff.SupervisorState.RecordStartup: does not model the zero time of a missing entry, which lies before every clock reading.
- Proxies.ProxyPool.HandleClient: does not model the relayed bytes and the connection set.
