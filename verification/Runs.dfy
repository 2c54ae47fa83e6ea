/**
Whole runs: what holds after any sequence of operations, retries, ticks and crashes.
 */
module Runs {
  import opened Options
  import opened Journals
  import opened Worlds
  import opened Hosts
  import opened Intents
  import opened Envelopes
  import opened Statuses
  import opened Revivals
  import opened Helpers
  import opened Restores
  import opened RestoreCalls
  import opened Recoveries
  import opened Members
  import opened Stops
  import opened Resets
  import opened Rollbacks
  import opened Snapshots
  import Supervision
  import Backoff

  // ---- recovering a host that lost everything ----------------------------------------------------------

  /** Nothing of the cluster is left: no file, network, volume, server or helper. */
  predicate LostHost(w: World) {
    w.lost && w.files == NO_FILES && Empty(w) && NoHelpers(w)
  }

  lemma LostHostIsUnderway(w: World, pkg: Package)
    requires LostHost(w)
    ensures Underway(w, pkg) && Discipline(w, [])
  {
  }

  /**
  Any run of RecoverHA and RestoreHA calls with any packages and of supervisor ticks, each possibly
  cut short by a crash, until the journal first lets the supervisor in. Every command of the run
  was sound, and wherever it stops the host is under recovery from one package, or recovered.
   */
  method RecoverLostHost(h: Host, sup: Backoff.SupervisorState) returns (pkg: Package)
    requires h.Valid() && !h.pledged && sup.Valid() && LostHost(h.w) && h.log == []
    modifies h`readings, h`reports, h`efforts, h`w, h`up, h`log, h`call, sup
    ensures h.Valid() && AllSound(h.log, true) && OneLineage(h.w) && Mountable(h.w)
    ensures Underway(h.w, pkg) || Finished(h.w)
  {
    pkg := Package("", "", 0, false);
    LostHostIsUnderway(h.w, pkg);
    var calls: int := *;
    while calls > 0 && !(h.w.files.journal.Some? && AllowsSupervision(h.w.files.journal))
      invariant h.Valid() && sup.Valid() && h.Disciplined() && h.w.lost
      invariant Underway(h.w, pkg) || Finished(h.w)
      decreases calls
    {
      h.Restart();
      pkg := OneCall(h, pkg, sup);
      calls := calls - 1;
    }
  }

  /** One call of the run: only RecoverHA can do anything, and only for the package that is being recovered. */
  method OneCall(h: Host, pkg: Package, sup: Backoff.SupervisorState) returns (current: Package)
    requires h.Valid() && !h.pledged && sup.Valid() && h.Disciplined() && Underway(h.w, pkg)
    modifies h`readings, h`reports, h`efforts, h`w, h`up, h`log, h`call, sup
    ensures h.Valid() && sup.Valid() && h.Disciplined() && h.w.lost == old(h.w).lost
    ensures Underway(h.w, current) || Finished(h.w)
    ensures old(h.w).files.journal.Some? && Underway(h.w, current) && h.w.files.journal.Some?
            ==> current.identity == pkg.identity && current.path == pkg.path
  {
    hide Discipline, Finished, Recoverable;
    current := pkg;
    UnderwayIsRecoverable(h.w, pkg);
    var choice: int, other: Package, now: int, grace: int := *, *, *, *;
    if choice == 0 {
      var ok;
      ghost var created;
      var foreign := Foreign(h.w.files, other);
      if !foreign {
        Adopted(h.w, pkg, other);
        current := other;
      }
      ok, created := RecoverHA(h, other);
    } else if choice == 1 {
      var refused := RestoreHA(h, other);
    } else {
      ghost var seen;
      var refused;
      refused, seen := Supervision.Tick(h, sup, now, grace);
    }
  }

  /**
  What soundness says about every command of such a run: the seed is started only after its own
  call's reset was confirmed, a peer only after that call also emptied its database, volumes are
  created only once they are on record, and no command ever meets two clusters running at once.
   */
  lemma LostRunIsLicensed(log: seq<Entry>, k: int)
    requires AllSound(log, true) && 0 <= k < |log|
    ensures OneLineage(log[k].before) && Mountable(log[k].before)
    ensures log[k].cmd.RunServer? ==> log[k].call.confirmed && (log[k].cmd.id == SEED || log[k].cmd.id in log[k].call.cleared)
    ensures log[k].cmd.RunReset? ==> AllDown(log[k].before) && log[k].before.files.staging.CompleteStage?
    ensures log[k].cmd.CreateVolume? ==> RecordedAsCreated(log[k].before.files.journal, log[k].cmd.id)
    ensures !log[k].cmd.DeleteVolume?
    ensures TouchesMember(log[k].cmd) ==> Blocking(log[k].before.files.journal) || log[k].call.finishing
  {
    assert Sound(log[k], true);
  }

  /**
  From every state such a run can stop in, one fault-free retry completes, with one exception:
  a journal that was completed, could not be saved, and was then overwritten as failed.
   */
  method ResumeFaultFree(h: Host, pkg: Package) returns (ok: bool)
    requires h.Valid() && !h.pledged && h.reliable && h.Disciplined() && Underway(h.w, pkg) && pkg.valid && Recordable(pkg)
    modifies h`readings, h`efforts, h`w, h`up, h`log, h`call
    ensures ok <==> old(h.w).files.journal.None? || Trusted(old(h.w).files.journal.value)
    ensures ok ==> Finished(h.w) && AllHealthy(h.w) && h.w.members[SEED].data == Lineage(old(h.w).nextCluster)
  {
    UnderwayIsRecoverable(h.w, pkg);
    UnderwayIsAdmissible(h.w, pkg);
    ghost var created;
    ok, created := RecoverHA(h, pkg);
    if ok {
      ConcludedIsFinished(h.w, pkg, created);
    }
  }

  /**
  A lost host, any run on it that may fail in every way, and then one fault-free call: the cluster
  is back with the run or with the call, unless the run left the record of another package or the
  one record that nobody trusts any more.
   */
  method LoseAndRecover(w: World, stable: bool, stableIP: seq<nat>, foreign: set<Resource>, pkg: Package)
    returns (h: Host, ghost left: World)
    requires |stableIP| == 4 && forall i, j | 1 <= i < j <= 3 :: stableIP[i] != stableIP[j]
    requires LostHost(w) && pkg.valid && Recordable(pkg)
    ensures Foreign(left.files, pkg) || (left.files.journal.Some? && !Trusted(left.files.journal.value)) || Finished(h.w)
    ensures OneLineage(left)
  {
    var first := new Host(w, false, stable, stableIP, foreign);
    var sup := new Backoff.SupervisorState();
    var current := RecoverLostHost(first, sup);
    left := first.w;
    h := first;
    if !(first.w.files.journal.Some? && AllowsSupervision(first.w.files.journal)) && !Foreign(first.w.files, pkg) {
      NotFinished(first.w);
      Adopted(first.w, current, pkg);
      h := new Host(first.w, true, true, stableIP, {});
      UnderwayIsDisciplined(h.w);
      var ok := ResumeFaultFree(h, pkg);
    }
  }

  lemma NotFinished(w: World)
    ensures Finished(w) ==> w.files.journal.Some? && AllowsSupervision(w.files.journal)
  {
  }

  lemma UnderwayIsDisciplined(w: World)
    requires OneLineage(w) && Mountable(w)
    ensures Discipline(w, [])
  {
  }

  // ---- restoring again and again ----------------------------------------------------------------------------

  /** At most one cluster runs, and what the journal vouches for is true. */
  ghost predicate Trustworthy(w: World) {
    OneLineage(w) && Mountable(w) && !w.lost && Credible(w)
  }

  /** No command of this history met two running servers of different clusters. */
  ghost predicate NeverSplit(history: seq<Entry>) {
    forall k | 0 <= k < |history| :: OneLineage(history[k].before)
  }

  lemma SoundNeverSplits(log: seq<Entry>, lost: bool)
    requires AllSound(log, lost)
    ensures NeverSplit(log)
  {
    forall k | 0 <= k < |log| ensures OneLineage(log[k].before) {
      assert Sound(log[k], lost);
    }
  }

  lemma CoherentIsOneLineage(w: World)
    requires Coherent(w)
    ensures OneLineage(w)
  {
  }

  lemma WholeNeverSplits(w: World, log: seq<Entry>)
    requires KeptWhole(w, log, 0)
    ensures NeverSplit(log) && OneLineage(w)
  {
    CoherentIsOneLineage(w);
    forall k | 0 <= k < |log| ensures OneLineage(log[k].before) {
      CoherentIsOneLineage(log[k].before);
    }
  }

  /** The journals RestoreHA accepts although they do not vouch for the volumes. */
  lemma DoubtfulPhases(j: Journal)
    requires AllowsRestore(Some(j))
    ensures !Vouching(Some(j)) <==> Doubtful(j.phase) && !j.succeeded
  {
    TrustedSafety(j);
  }

  /** From the announcement of the reset until both peers have rejoined, and after a failure. */
  predicate Doubtful(phase: Phase) {
    phase.ResettingSeed? || phase.StartingSeed? || phase.RejoiningPeers? || phase.Failed?
  }

  /**
  Any run of RestoreHA and RecoverHA calls with any packages, member commands, snapshots and
  supervisor ticks, each possibly cut short by a crash, on a host with all its volumes or with some
  of them gone. RestoreHA and the commands are called only while the journal vouches for complete
  volumes, or RestoreHA is refused; RecoverHA also while creations are on record or a volume is
  missing; a tick that finds a volume missing finds its gate closed. Then no command ever meets two
  running servers of different clusters.
   */
  method RestoreRun(h: Host, sup: Backoff.SupervisorState) returns (ghost history: seq<Entry>)
    requires h.Valid() && !h.pledged && sup.Valid() && Trustworthy(h.w) && h.log == []
    modifies h`readings, h`reports, h`efforts, h`w, h`up, h`log, h`call, h`pledged, h`since, sup
    ensures h.Valid() && Trustworthy(h.w) && NeverSplit(history)
  {
    history := [];
    var turns: int := *;
    while turns > 0
      invariant h.Valid() && !h.pledged && sup.Valid() && Trustworthy(h.w) && h.log == []
      invariant NeverSplit(history)
      decreases turns
    {
      h.Restart();
      ghost var past;
      past := RestoreTurn(h, sup);
      assert NeverSplit(history + past);
      history := history + past;
      turns := turns - 1;
    }
  }

  method RestoreTurn(h: Host, sup: Backoff.SupervisorState) returns (ghost past: seq<Entry>)
    requires h.Valid() && !h.pledged && sup.Valid() && Trustworthy(h.w) && h.log == []
    modifies h`readings, h`reports, h`efforts, h`w, h`up, h`log, h`call, h`pledged, h`since, sup
    ensures h.Valid() && !h.pledged && sup.Valid() && Trustworthy(h.w) && h.log == []
    ensures NeverSplit(past)
  {
    hide Vouching, Unmixed, Credible, OneLineage, AllowsRestore, Supervision.Gate, Mountable;
    var choice: int, pkg: Package, now: int, grace: int := *, *, *, *;
    if choice == 0 && (Vouching(h.w.files.journal) || !AllowsRestore(h.w.files.journal) || !VolumesComplete(h.w)) {
      TrustedCall(h, pkg);
    } else if choice == 1 && Vouching(h.w.files.journal) && VolumesComplete(h.w) {
      TrustedMaintenance(h);
    } else if choice == 2 && Unmixed(h.w) {
      TrustedRecovery(h, pkg);
    } else if VolumesComplete(h.w) || !Supervision.Gate(h.w.files) {
      TrustedTick(h, sup, now, grace);
    }
    past := h.Forget();
  }

  method TrustedCall(h: Host, pkg: Package)
    requires h.Valid() && !h.pledged && Trustworthy(h.w) && h.log == []
    requires Vouching(h.w.files.journal) || !AllowsRestore(h.w.files.journal) || !VolumesComplete(h.w)
    modifies h`readings, h`efforts, h`w, h`up, h`log, h`call
    ensures h.Valid() && Trustworthy(h.w) && NeverSplit(h.log)
  {
    if !VolumesComplete(h.w) || !AllowsRestore(h.w.files.journal) {
      RefusedCall(h, pkg);
      return;
    }
    var ok := RestoreHA(h, pkg);
    SoundNeverSplits(h.log, h.w.lost);
    hide Coherent, OneLineage, Mountable, JournalLeft, Vouched, AllSound;
  }

  method RefusedCall(h: Host, pkg: Package)
    requires h.Valid() && !h.pledged && Trustworthy(h.w) && h.log == []
    requires !AllowsRestore(h.w.files.journal) || !VolumesComplete(h.w)
    modifies h`readings, h`efforts, h`w, h`up, h`log, h`call
    ensures h.Valid() && Trustworthy(h.w) && h.log == []
  {
    var ok := RestoreHA(h, pkg);
    hide JournalLeft, Vouched, AllSound, Vouching, Coherent, OneLineage;
    if !VolumesComplete(old(h.w)) {
      StillTrustworthy(old(h.w), h.w, h.stable);
    }
  }

  lemma StillTrustworthy(w: World, after: World, stable: bool)
    requires Watched(w, after, stable) && Trustworthy(w)
    ensures Trustworthy(after)
  {
    StillRecoverable(w, after, stable);
  }

  method TrustedRecovery(h: Host, pkg: Package)
    requires h.Valid() && !h.pledged && Trustworthy(h.w) && h.log == [] && Unmixed(h.w)
    modifies h`readings, h`efforts, h`w, h`up, h`log, h`call
    ensures h.Valid() && Trustworthy(h.w) && NeverSplit(h.log)
  {
    assert h.Disciplined();
    hide Coherent, OneLineage, Mountable, Vouched, AllSound, Unmixed, Credible, RecoveryJournal;
    ghost var created;
    var ok;
    ok, created := RecoverHA(h, pkg);
    SoundNeverSplits(h.log, h.w.lost);
  }

  method TrustedTick(h: Host, sup: Backoff.SupervisorState, now: int, grace: int)
    requires h.Valid() && !h.pledged && sup.Valid() && Trustworthy(h.w) && h.log == []
    requires VolumesComplete(h.w) || !Supervision.Gate(h.w.files)
    modifies h`readings, h`reports, h`efforts, h`w, h`up, h`log, h`call, h`pledged, h`since, sup
    ensures h.Valid() && !h.pledged && sup.Valid() && Trustworthy(h.w) && NeverSplit(h.log)
  {
    hide Coherent, OneLineage, Mountable, KeptWhole;
    ghost var open := Supervision.Gate(h.w.files);
    if open {
      h.Pledge();
    }

    ghost var seen;
    var ok;
    ok, seen := Supervision.Tick(h, sup, now, grace);
    if open {
      WholeNeverSplits(h.w, h.log);
      WholeIsTrustworthy(h.w, h.log);
    }
    h.Release();
  }

  method TrustedMaintenance(h: Host)
    requires h.Valid() && !h.pledged && Trustworthy(h.w) && Vouching(h.w.files.journal) && VolumesComplete(h.w) && h.log == []
    modifies h`readings, h`reports, h`efforts, h`w, h`up, h`log, h`call, h`pledged, h`since
    ensures h.Valid() && !h.pledged && Trustworthy(h.w) && NeverSplit(h.log)
  {
    hide Coherent, OneLineage, Mountable, KeptWhole, Quorate, Careful;
    h.Pledge();
    var choice: int, id: int := *, *;
    var i: Id := if 1 <= id <= 3 then id else SEED;
    if choice == 0 {
      var ok := StopHAMember(h, i);
    } else if choice == 1 {
      var ok := StartHAMember(h, i);
    } else if choice == 2 {
      var ok := RestartHAMember(h, i);
    } else {
      var ok := SnapshotHA(h);
    }
    WholeNeverSplits(h.w, h.log);
    WholeIsTrustworthy(h.w, h.log);
    h.Release();
  }

  lemma WholeIsTrustworthy(w: World, log: seq<Entry>)
    requires KeptWhole(w, log, 0)
    ensures Trustworthy(w)
  {
    CoherentIsOneLineage(w);
  }

  // ---- and when the journal does not vouch ------------------------------------------------------------------

  /** A host on which a fault-free RestoreHA call gets past its checks. */
  predicate Reachable(w: World, pkg: Package) {
    && w.network && VolumesComplete(w) && w.helpers[SNAPSHOT].Missing?
    && RestoreGate(w.files, pkg) && ReadableIntent(w.files)
  }

  /** A healthy or stopped cluster on one lineage, about to be restored: gates open, nothing in the way. */
  ghost predicate Restorable(w: World, pkg: Package) {
    && Reachable(w, pkg) && Coherent(w) && Mountable(w) && !w.lost
    && w.members[SEED].data.cluster < w.nextCluster && Recordable(pkg)
  }

  /** What a call that ended in a doubtful phase may leave. */
  ghost predicate Fallible(w: World, stableIP: seq<nat>)
    requires |stableIP| == 4
  {
    && w.network && w.files.config && w.helpers[SNAPSHOT].Missing? && !w.helpers[RESET].Running?
    && OneLineage(w) && !w.lost && ReadableIntent(w.files) && AddressesFree(w, stableIP)
    && (forall i | 1 <= i <= 3 :: w.members[i].data.Lineage?)
  }

  /** RestoreHA on a fault-free host up to the moment it opens its journal: the gates, the inspection, and the staging. */
  method ReachRestore(h: Host, pkg: Package) returns (pf: Preflight)
    requires h.Valid() && !h.pledged && h.reliable && h.Disciplined() && Reachable(h.w, pkg)
    modifies h`w, h`up, h`log, h`call
    ensures h.Valid() && h.Disciplined() && Prepared(h.w) && SeenExactly(pf, h.w) && Seen(pf, h.w, h.stable)
    ensures h.w == WithStaging(old(h.w), CompleteStage).(helpers := [Missing, Missing, Missing, Missing])
  {
    hide Seen;
    h.call := IDLE;
    var seen;
    seen, pf := TakePreflight(h, true);
    ghost var w1 := h.w;
    var staged := PrepareStage(h);
    SeenStaged(pf, w1, h.w, h.stable);
  }

  /** A fresh restore call of a fault-free host, up to the moment every server is down. */
  method BeginRestore(h: Host, base: Journal, pkg: Package) returns (p: Progress)
    requires h.Valid() && !h.pledged && h.reliable && h.Disciplined() && !h.w.lost && Reachable(h.w, pkg)
    requires Fresh(base) && NewMembers(base) == {}
    modifies h`w, h`up, h`log, h`call
    ensures h.Valid() && OnTrack(h, p) && p == FreshProgress(base).(mutationStarted := true) && AllDown(h.w)
    ensures InFlight(h.w.files.journal, base) && h.call.cleared == {} && !h.call.finishing
    ensures h.w.files == old(h.w).files.(journal := h.w.files.journal, desired := h.w.files.desired, staging := CompleteStage)
    ensures Prepared(h.w) && ReadableIntent(h.w.files) && h.w.nextCluster == old(h.w).nextCluster && !h.w.lost
    ensures forall i | 1 <= i <= 3 :: h.w.members[i].data == old(h.w).members[i].data
  {
    hide Track, Coherent, KeptWhole, Seen, SeenExactly, RestoreGate;
    var pf := ReachRestore(h, pkg);
    ghost var w1 := h.w;
    var began := OpenRestore(h, base);
    OpenedIsOnTrack(w1, h.log, h.w, h.call, base);
    p := FreshProgress(base);
    var announced := UpdatePhase(h, base, StoppingMembers, p);
    MutationStartedIsOnTrack(h.w, h.log, h.call, p);
    p := p.(mutationStarted := true);
    SeenWhateverFiles(pf, w1, h.w, h.stable);
    var stopped := StopForRestore(h, base, pf, p);
  }

  /**
  A fault-free RestoreHA call, step by step, that dies in the given phase: right after the reset,
  once the next phase is recorded, with the seed started, or after its rollback because the report
  of the reset was lost. The journal it leaves opens RestoreHA's gate again, but not the
  supervisor's, and the volumes no longer are one cluster's.
   */
  method BreakOff(h: Host, pkg: Package, phase: Phase)
    requires h.Valid() && !h.pledged && h.reliable && h.Disciplined() && Restorable(h.w, pkg) && Doubtful(phase)
    modifies h`efforts, h`readings, h`w, h`up, h`log, h`call
    ensures h.Valid() && h.w.files.journal.Some? && h.w.files.journal.value.phase == phase
    ensures AllowsRestore(h.w.files.journal) && Blocking(h.w.files.journal)
    ensures Fallible(h.w, h.stableIP) && Mountable(h.w) && !Coherent(h.w)
    ensures h.w.files.token == old(h.w).files.token
  {
    var base := RestoreBase(pkg);
    var p := BeginRestore(h, base, pkg);
    ghost var c, was := h.w.nextCluster, h.w.members[SEED].data.cluster;
    DoubtfulJournals(base, pkg);
    hide Coherent, OneLineage, Track, KeptWhole, Restorable, Blocking, AllowsRestore, Recordable, AddressesFree;
    var reset;
    reset, p := ResetPhase(h, base, p);
    ghost var w1 := h.w;
    DownIsSmooth(w1, h.stableIP, c);
    hide SmoothAt, Fallible;
    if phase.Failed? {
      FailRestore(h, base, false, p.(resetComplete := false), c);
      DownIsSmooth(h.w, h.stableIP, c);
    } else if !phase.ResettingSeed? {
      GoOn(h, base, p, phase, c);
    }
    TwoClusters(h.w, h.stableIP, c, was);
  }

  lemma DownIsSmooth(w: World, stableIP: seq<nat>, c: nat)
    requires |stableIP| == 4
    ensures Prepared(w) && AllDown(w) ==> SmoothAt(w, stableIP, 0, c)
  {
  }

  lemma TwoClusters(w: World, stableIP: seq<nat>, c: nat, was: nat)
    requires |stableIP| == 4 && c != was && Prepared(w) && ReadableIntent(w.files) && !w.lost
    requires SmoothAt(w, stableIP, 0, c) || SmoothAt(w, stableIP, 1, c)
    requires w.members[1].data == Lineage(c) && w.members[2].data == w.members[3].data == Lineage(was)
    ensures Fallible(w, stableIP) && Mountable(w) && !Coherent(w)
  {
  }

  /** The reset done, the seed is started, and the rejoining of the peers perhaps announced. */
  method GoOn(h: Host, base: Journal, p: Progress, phase: Phase, ghost c: nat)
    requires h.Valid() && !h.pledged && h.reliable && OnTrack(h, p) && p.resetComplete && p.cleared == {}
    requires FreshJournal(base) && InFlight(h.w.files.journal, base) && SmoothAt(h.w, h.stableIP, 0, c)
    requires h.w.members[SEED].data == Lineage(c)
    modifies h`w, h`up, h`log, h`call
    ensures h.Valid() && OnTrack(h, p) && SmoothAt(h.w, h.stableIP, 1, c)
    ensures LineagesKept(old(h.w), h.w, 0) && h.w.lost == old(h.w).lost
    ensures h.w.files == old(h.w).files.(journal := Some(base.(phase := if phase.StartingSeed? then StartingSeed else RejoiningPeers)))
  {
    hide Track, KeptWhole;
    var started := StartSeedPhase(h, base, p, c);
    if phase.StartingSeed? {
      return;
    }

    ghost var w1 := h.w;
    var recorded := UpdatePhase(h, base, RejoiningPeers, p);
    SmoothFiles(w1, h.w, h.stableIP, 1, c);
  }

  /**
  The next fault-free RestoreHA call over what the last one left: admitted, and then rolled back
  because it fails before its own reset. The rollback starts the originals, which keeps one cluster
  running exactly when the volumes are one cluster's; either way it is recorded as a success.
   */
  method RetryBeforeReset(h: Host, pkg: Package)
    requires h.Valid() && !h.pledged && h.reliable && h.Disciplined() && Fallible(h.w, h.stableIP)
    requires RestoreGate(h.w.files, pkg) && Recordable(pkg)
    modifies h`efforts, h`readings, h`w, h`up, h`log, h`call
    ensures h.Valid() && AllHealthy(h.w) && h.w.files.journal == Some(Failure(RestoreBase(pkg), false, true))
    ensures AllowsSupervision(h.w.files.journal)
    ensures OneLineage(h.w) <==> Coherent(old(h.w))
  {
    var base := RestoreBase(pkg);
    var p := BeginRestore(h, base, pkg);
    ghost var w1 := h.w;
    DownRevives(old(h.w), w1, h.stableIP);
    FailRestore(h, base, false, p, 0);
    OriginalsTell(old(h.w), w1, h.w);
    var cleaned := CleanupStage(h);
  }

  lemma DownRevives(found: World, w: World, stableIP: seq<nat>)
    requires |stableIP| == 4 && Fallible(found, stableIP) && Prepared(w) && AllDown(w)
    requires forall i | 1 <= i <= 3 :: w.members[i].data == found.members[i].data
    ensures Reviving(Unhelped(w), stableIP, 1)
  {
    assert Unhelped(w).members == w.members;
  }

  lemma OriginalsTell(found: World, w: World, after: World)
    requires AllHealthy(after) && SameData(Unhelped(w), after) && !found.helpers[RESET].Running?
    requires forall i | 1 <= i <= 3 :: w.members[i].data == found.members[i].data && found.members[i].data.Lineage?
    ensures OneLineage(after) <==> Coherent(found)
  {
    assert Unhelped(w).members == w.members;
    assert forall i | 1 <= i <= 3 :: after.members[i].data == found.members[i].data;
  }

  /**
  Every doubtful phase can end in a split: from a cluster in order there is a call that dies in this
  phase, and a retry that RestoreHA admits, after which servers of two clusters run together behind
  a journal that lets the supervisor in.
   */
  method RetrySplits(w: World, stableIP: seq<nat>, pkg: Package, phase: Phase) returns (h: Host)
    requires |stableIP| == 4 && forall i, j | 1 <= i < j <= 3 :: stableIP[i] != stableIP[j]
    requires Restorable(w, pkg) && Doubtful(phase)
    ensures fresh(h) && h.Valid() && AllowsSupervision(h.w.files.journal) && AllUp(h.w) && !OneLineage(h.w)
  {
    CoherentIsOneLineage(w);
    var first := new Host(w, true, true, stableIP, {});
    BreakOff(first, pkg, phase);
    h := new Host(first.w, true, true, stableIP, {});
    FallibleIsDisciplined(first.w, stableIP);
    RetryBeforeReset(h, pkg);
    assert AllUp(h.w);
  }

  lemma FallibleIsDisciplined(w: World, stableIP: seq<nat>)
    requires |stableIP| == 4 && Fallible(w, stableIP) && Mountable(w)
    ensures Discipline(w, [])
  {
  }

  lemma DoubtfulJournals(base: Journal, pkg: Package)
    requires base == RestoreBase(pkg) && Recordable(pkg)
    ensures forall phase: Phase :: phase.ResettingSeed? || phase.StartingSeed? || phase.RejoiningPeers?
              ==> AllowsRestore(Some(base.(phase := phase))) && Blocking(Some(base.(phase := phase)))
    ensures AllowsRestore(Some(Failure(base, false, false))) && Blocking(Some(Failure(base, false, false)))
  {
  }

  // ---- the majority over any sequence of operations ----------------------------------------------------------

  /** The cluster is to run. */
  predicate MeantToRun(f: Files) {
    IntentOf(f).running
  }

  method OneOperation(h: Host, sup: Backoff.SupervisorState)
    requires h.Valid() && sup.Valid() && MeantToRun(h.w.files)
    modifies h`readings, h`reports, h`efforts, h`w, h`up, h`log, h`call, sup
    ensures h.Valid() && sup.Valid() && MeantToRun(h.w.files)
    ensures h.stable && Quorate(old(h.w)) ==> Quorate(h.w) && Careful(old(h.log), h.log)
  {
    hide Quorate, Careful, ValidDesired;
    var choice: int, id: int, now: int, grace: int := *, *, *, *;
    var i: Id := if 1 <= id <= 3 then id else SEED;
    if choice == 0 {
      var ok := StopHAMember(h, i);
    } else if choice == 1 {
      var ok := StartHAMember(h, i);
    } else if choice == 2 {
      var ok := RestartHAMember(h, i);
    } else if choice == 3 {
      var ok := SnapshotHA(h);
    } else {
      var ok := TickOnce(h, sup, now, grace);
    }
  }

  method TickOnce(h: Host, sup: Backoff.SupervisorState, now: int, grace: int) returns (ok: bool)
    requires h.Valid() && sup.Valid() && MeantToRun(h.w.files)
    modifies h`readings, h`reports, h`efforts, h`w, h`up, h`log, h`call, sup
    ensures h.Valid() && sup.Valid() && MeantToRun(h.w.files) && Kept(h)
  {
    ghost var seen;
    ok, seen := Supervision.Tick(h, sup, now, grace);
  }

  /**
  Any sequence of member commands, snapshots and ticks, with lost reports and crashes: from a
  running majority, and as long as no server fails by itself, every command meets a majority,
  and a server is only ever stopped while both others run.
   */
  method AnyMaintenance(h: Host, sup: Backoff.SupervisorState)
    requires h.Valid() && sup.Valid() && h.stable && MeantToRun(h.w.files) && Quorate(h.w)
    modifies h`readings, h`reports, h`efforts, h`w, h`up, h`log, h`call, sup
    ensures h.Valid() && Quorate(h.w) && Careful(old(h.log), h.log)
  {
    var operations: int := *;
    while operations > 0
      invariant h.Valid() && sup.Valid() && MeantToRun(h.w.files) && Quorate(h.w) && Careful(old(h.log), h.log)
      decreases operations
    {
      h.Restart();
      ghost var l1 := h.log;
      OneOperation(h, sup);
      CarefulTrans(old(h.log), l1, h.log);
      operations := operations - 1;
    }
  }

  // ---- addresses over any sequence of starts --------------------------------------------------------------------

  /** As long as every start either succeeds or is taken back, no running server sits on another's address. */
  method StartMany(h: Host, ids: seq<Id>) returns (ok: bool)
    requires h.Valid() && AddressesFree(h.w, h.stableIP)
    modifies h`w, h`up, h`log
    ensures h.Valid() && (ok ==> AddressesFree(h.w, h.stableIP))
    ensures Runs(h.log) <= Runs(old(h.log)) + ADDRESS_ATTEMPTS * |ids|
  {
    hide AddressesFree, Runs;
    ok := true;
    for k := 0 to |ids|
      invariant h.Valid() && (ok ==> AddressesFree(h.w, h.stableIP))
      invariant Runs(h.log) <= Runs(old(h.log)) + ADDRESS_ATTEMPTS * k
    {
      var start := RunEnvelope(h, ids[k]);
      if start.Refused? {
        ok := false;
      }
    }
  }

  // ---- intent over any sequence of ticks ---------------------------------------------------------------------------

  /** A member that is to stay down is never started by any number of ticks. */
  method TicksRespectMember(h: Host, sup: Backoff.SupervisorState, i: Id)
    requires h.Valid() && sup.Valid() && Supervision.Gate(h.w.files) && IntentOf(h.w.files) == Desired(true, [i])
    modifies h`readings, h`reports, h`efforts, h`w, h`up, h`log, h`call, sup
    ensures h.Valid() && Supervision.NoRunOf(old(h.log), h.log, i) && h.w.files == old(h.w).files
  {
    Supervision.NothingRan(h.log, i);
    var ticks: int := *;
    while ticks > 0
      invariant h.Valid() && sup.Valid() && h.w.files == old(h.w).files && Supervision.NoRunOf(old(h.log), h.log, i)
      decreases ticks
    {
      h.Restart();
      ghost var l1 := h.log;
      var now: int, grace: int := *, *;
      ghost var seen;
      var ok;
      ok, seen := Supervision.Tick(h, sup, now, grace);
      assert i in IntentOf(old(h.w).files).stopped;
      Supervision.NoRunTrans(old(h.log), l1, h.log, i);
      ticks := ticks - 1;
    }
  }

  /** A cluster that is to stop, from whatever point StopHA was cut short at, is only ever stopped by ticks. */
  method TicksRespectStop(h: Host, sup: Backoff.SupervisorState)
    requires h.Valid() && sup.Valid() && Supervision.Gate(h.w.files) && !IntentOf(h.w.files).running
    modifies h`readings, h`reports, h`efforts, h`w, h`up, h`log, h`call, sup
    ensures h.Valid() && OnlyStops(old(h.log), h.log) && !IntentOf(h.w.files).running
  {
    var ticks: int := *;
    while ticks > 0
      invariant h.Valid() && sup.Valid() && Supervision.Gate(h.w.files) && !IntentOf(h.w.files).running
      invariant OnlyStops(old(h.log), h.log)
      decreases ticks
    {
      h.Restart();
      ghost var l1 := h.log;
      var now: int, grace: int := *, *;
      ghost var seen;
      var ok;
      ok, seen := Supervision.Tick(h, sup, now, grace);
      OnlyStopsTrans(old(h.log), l1, h.log);
      ticks := ticks - 1;
    }
  }

  // ---- repairs over any sequence of ticks ------------------------------------------------------------------------------

  /**
  One tick: whether all three members were to run when it began, the reading it then acted on with
  its position among all completed readings, when it looked, and which part of the log it wrote.
   */
  datatype Turn = Turn(keeping: bool, first: nat, reading: Option<Status>, now: int, since: nat, upTo: nat) {
    /** The running member this reading found in need of repair. */
    function Target(): (i: Option<Id>) {
      if reading.Some? then Supervision.RepairTarget(reading.value) else None
    }

    predicate Issued() {
      since < upTo
    }
  }

  /** The turn's reading is the first one made in it, and what it wrote to the log is about the member found, if one was. */
  ghost predicate Told(readings: seq<Status>, log: seq<Entry>, turn: Turn) {
    && turn.since <= turn.upTo <= |log|
    && (turn.reading.Some? ==> turn.first < |readings| && readings[turn.first] == turn.reading.value)
    && (turn.keeping && turn.Issued() ==> turn.reading.Some?)
    && (turn.Target().Some? ==> forall j | turn.since <= j < turn.upTo :: ServerOf(log[j].cmd) in {None, turn.Target()})
  }

  /** The server a command starts, stops or deletes. */
  function ServerOf(cmd: Command): (i: Option<Id>) {
    if cmd.RunServer? || cmd.StopServer? || cmd.DeleteServer? then Some(cmd.id) else None
  }

  /** A turn goes on where the one before it left off. */
  predicate Follows(turns: seq<Turn>, k: nat, start: nat)
    requires k < |turns|
  {
    turns[k].since == if k == 0 then start else turns[k - 1].upTo
  }

  /** The turns tell the readings that were made, and share out the log from here on between them. */
  ghost predicate Traced(readings: seq<Status>, log: seq<Entry>, start: nat, turns: seq<Turn>) {
    && (forall k | 0 <= k < |turns| :: Told(readings, log, turns[k]))
    && (forall k | 0 <= k < |turns| :: Follows(turns, k, start))
    && |log| == if turns == [] then start else turns[|turns| - 1].upTo
  }

  /** The cluster is to run with all three members, and the supervisor may see to it. */
  predicate Keeping(f: Files) {
    Supervision.Gate(f) && IntentOf(f).running && IntentOf(f).stopped == []
  }

  /** The supervisor noted a repair of this member that began at this time. */
  ghost predicate Accounted(history: seq<Backoff.Event>, i: Id, now: int) {
    exists n :: 0 <= n < |history| && history[n].Tried? && history[n].id == i && history[n].from == now
  }

  ghost predicate Accounts(history: seq<Backoff.Event>, turns: seq<Turn>) {
    forall k | 0 <= k < |turns| :: turns[k].Target().Some? && turns[k].Issued() ==> Accounted(history, turns[k].Target().value, turns[k].now)
  }

  predicate NoTries(events: seq<Backoff.Event>) {
    forall k | 0 <= k < |events| :: !events[k].Tried?
  }

  ghost predicate AllTimely(history: seq<Backoff.Event>) {
    forall id :: Backoff.Timely(history, id)
  }

  /** No noted repair ended after this time. */
  predicate OverBy(history: seq<Backoff.Event>, clock: int) {
    forall k | 0 <= k < |history| :: history[k].Tried? ==> history[k].at <= clock
  }

  lemma {:induction false} TimelyWithout(history: seq<Backoff.Event>, events: seq<Backoff.Event>, id: int)
    requires Backoff.Timely(history, id) && NoTries(events)
    ensures Backoff.Timely(history + events, id)
  {
    if events == [] {
      assert history + events == history;
    } else {
      var k := |events| - 1;
      TimelyWithout(history, events[..k], id);
      assert events == events[..k] + [events[k]];
      assert history + events == (history + events[..k]) + [events[k]];
      Backoff.TimelyMore(history + events[..k], events[k], id);
    }
  }

  lemma {:induction false} LaunchesAreNoTries(s: Status, ids: seq<Id>, k: nat, now: int, grace: int)
    requires k <= |ids|
    ensures NoTries(Supervision.Launches(s, ids, k, now, grace))
  {
    if k > 0 {
      LaunchesAreNoTries(s, ids, k - 1, now, grace);
    }
  }

  lemma QuietTurn(was: seq<Backoff.Event>, events: seq<Backoff.Event>, turns: seq<Turn>, clock: int)
    requires AllTimely(was) && NoTries(events) && Accounts(was, turns)
    ensures AllTimely(was + events) && Accounts(was + events, turns)
    ensures Backoff.Clocked(was) && OverBy(was, clock) ==> Backoff.Clocked(was + events) && OverBy(was + events, clock)
  {
    forall id ensures Backoff.Timely(was + events, id) {
      TimelyWithout(was, events, id);
    }
    StillAccounted(was, events, turns);
  }

  lemma StillAccounted(was: seq<Backoff.Event>, events: seq<Backoff.Event>, turns: seq<Turn>)
    requires Accounts(was, turns)
    ensures Accounts(was + events, turns)
  {
    forall k | 0 <= k < |turns| && turns[k].Target().Some? && turns[k].Issued()
      ensures Accounted(was + events, turns[k].Target().value, turns[k].now)
    {
      var n :| 0 <= n < |was| && was[n].Tried? && was[n].id == turns[k].Target().value && was[n].from == turns[k].now;
      assert (was + events)[n] == was[n];
    }
  }

  lemma RepairTurn(was: seq<Backoff.Event>, e: Backoff.Event, turns: seq<Turn>, i: Id, now: int, clock: int)
    requires AllTimely(was) && Accounts(was, turns)
    requires e.Tried? && e.id == i && e.from == now <= e.at && Backoff.MayRepair(was, i, now)
    ensures AllTimely(was + [e]) && Accounts(was + [e], turns) && Accounted(was + [e], i, now)
    ensures Backoff.Clocked(was) && OverBy(was, clock) && clock <= now ==> Backoff.Clocked(was + [e]) && OverBy(was + [e], e.at)
  {
    forall id ensures Backoff.Timely(was + [e], id) {
      Backoff.TimelyMore(was, e, id);
    }
    StillAccounted(was, [e], turns);
    assert (was + [e])[|was|] == e;
  }

  /**
  One life of the supervisor: any number of ticks, on a host that may fail in every way. Whatever
  was issued was issued by one of the ticks, and by none that was to keep all three running but could
  not read the status. A tick that issued a command although the first status it read showed one
  running member to repair worked on no other server, and is noted as a repair of that member begun
  at that tick; no repair began while the gate was closed. While the clock does not run backwards,
  repairs do not overlap, so the spacing of `Backoff.RepairsAreSpaced` holds of them.
   */
  method RepairRun(h: Host, sup: Backoff.SupervisorState) returns (ghost turns: seq<Turn>, ghost orderly: bool)
    requires h.Valid() && sup.Valid() && sup.history == []
    modifies h`readings, h`reports, h`efforts, h`w, h`up, h`log, h`call, sup
    ensures h.Valid() && sup.Valid() && AllTimely(sup.history) && Accounts(sup.history, turns)
    ensures Traced(h.readings, h.log, |old(h.log)|, turns)
    ensures orderly ==> Backoff.Clocked(sup.history)
  {
    turns, orderly := [], true;
    ghost var clock := 0;
    var first := true;
    var ticks: int := *;
    while ticks > 0
      invariant h.Valid() && sup.Valid() && AllTimely(sup.history) && Accounts(sup.history, turns)
      invariant Traced(h.readings, h.log, |old(h.log)|, turns)
      invariant orderly ==> Backoff.Clocked(sup.history) && (OverBy(sup.history, clock) || first)
      invariant first ==> sup.history == []
      decreases ticks
    {
      var now: int, grace: int := *, *;
      if first {
        clock := now;
      }
      orderly := orderly && clock <= now;
      ghost var turn, read, wrote := *, h.readings, h.log;
      turn, clock := OneTick(h, sup, turns, now, grace, clock);
      StillTraced(read, wrote, h.readings, h.log, |old(h.log)|, turns, turn);
      turns := turns + [turn];
      first := false;
      ticks := ticks - 1;
    }
  }

  lemma StillTraced(read: seq<Status>, wrote: seq<Entry>, readings: seq<Status>, log: seq<Entry>, start: nat, turns: seq<Turn>, turn: Turn)
    requires Traced(read, wrote, start, turns) && read <= readings && wrote <= log
    requires Told(readings, log, turn) && turn.since == |wrote| && turn.upTo == |log|
    ensures Traced(readings, log, start, turns + [turn])
  {
    var all := turns + [turn];
    forall k | 0 <= k < |all| ensures Told(readings, log, all[k]) && Follows(all, k, start) {
      if k < |turns| {
        assert Told(read, wrote, turns[k]) && Follows(turns, k, start);
      }
    }
  }

  method OneTick(h: Host, sup: Backoff.SupervisorState, ghost turns: seq<Turn>, now: int, grace: int, ghost clock: int)
    returns (ghost turn: Turn, ghost end: int)
    requires h.Valid() && sup.Valid() && AllTimely(sup.history) && Accounts(sup.history, turns)
    modifies h`readings, h`reports, h`efforts, h`w, h`up, h`log, h`call, sup
    ensures h.Valid() && sup.Valid() && AllTimely(sup.history) && Accounts(sup.history, turns + [turn])
    ensures turn.now == now && turn.first == |old(h.readings)| && turn.since == |old(h.log)| && turn.upTo == |h.log|
    ensures turn.keeping == Keeping(old(h.w).files)
    ensures turn.reading == (if turn.keeping then Supervision.FirstSince(h.readings, |old(h.readings)|) else None)
    ensures old(h.readings) <= h.readings && old(h.log) <= h.log && Told(h.readings, h.log, turn)
    ensures turn.Issued() && turn.Target().Some? ==> MajoritySeen(h, turn.Target().value)
    ensures old(Backoff.Clocked(sup.history) && OverBy(sup.history, clock)) && clock <= now
            ==> Backoff.Clocked(sup.history) && OverBy(sup.history, end)
  {
    hide Backoff.RepairsMatch, Backoff.GraceMatches, KeptWhole, AllTimely, Accounts, Backoff.Clocked, OverBy, Backoff.MayRepair,
         Supervision.Launches, Supervision.Forgotten;
    ghost var seen;
    var ok;
    ok, seen := Supervision.Tick(h, sup, now, grace);
    ghost var acted := if Keeping(old(h.w).files) then seen else None;
    turn := Turn(Keeping(old(h.w).files), |old(h.readings)|, acted, now, |old(h.log)|, |h.log|);
    end := NoteTurn(old(sup.history), sup.history, acted, turns, turn, now, grace, clock);
  }

  /** What a tick noted keeps the books. */
  lemma NoteTurn(was: seq<Backoff.Event>, history: seq<Backoff.Event>, seen: Option<Status>, turns: seq<Turn>, turn: Turn,
                 now: int, grace: int, clock: int) returns (end: int)
    requires AllTimely(was) && Accounts(was, turns)
    requires if seen.Some? then Supervision.Noted(was, history, seen.value, now, grace) else history == was
    requires turn.reading == seen && turn.now == now
    requires turn.Target().Some? && turn.Issued() ==> Backoff.MayRepair(was, turn.Target().value, now)
    ensures AllTimely(history) && Accounts(history, turns + [turn])
    ensures Backoff.Clocked(was) && OverBy(was, clock) && clock <= now ==> Backoff.Clocked(history) && OverBy(history, end)
  {
    end := clock;
    if seen.None? {
      assert was + [] == was;
      QuietTurn(was, [], turns, clock);
    } else if AllReady(seen.value) {
      assert NoTries(Supervision.Forgotten(4));
      QuietTurn(was, Supervision.Forgotten(4), turns, clock);
    } else if turn.Target().None? {
      var ids := Supervision.Unready(seen.value);
      LaunchesAreNoTries(seen.value, ids, |ids|, now, grace);
      QuietTurn(was, Supervision.Launches(seen.value, ids, |ids|, now, grace), turns, clock);
    } else if Backoff.MayRepair(was, turn.Target().value, now) {
      var at: int, failed: bool :| at >= now && history == was + [Backoff.Tried(turn.Target().value, now, at, failed)];
      RepairTurn(was, Backoff.Tried(turn.Target().value, now, at, failed), turns, turn.Target().value, now, clock);
      end := at;
    } else {
      assert was + [] == was;
      QuietTurn(was, [], turns, clock);
    }
  }
}
