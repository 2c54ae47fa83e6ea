/**
SnapshotHA: export an etcd snapshot through a helper that mounts the seed's volume, while the
seed is stopped and the other two members carry the cluster.
 */
module Snapshots {
  import opened Options
  import opened Journals
  import opened Worlds
  import opened Hosts
  import opened Envelopes
  import opened Statuses
  import opened Revivals
  import opened Helpers
  import opened Members

  const SOURCE: Id := SEED

  /** Work on the source member and the copying helper. */
  twostate predicate ExportWork(h: Host)
    reads h
  {
    && (h.up ==> old(h.up)) && h.call == old(h.call) && old(h.readings) <= h.readings
    && Evolved(old(h.w), h.w, {SOURCE}, {SNAPSHOT}, h.stable)
    && Confined(old(h.log), h.log, old(h.w), {SOURCE}, h.stable)
  }

  lemma WorkIsExport(w: World, after: World, log: seq<Entry>, now: seq<Entry>, t: set<int>, helpers: set<int>, stable: bool)
    requires Evolved(w, after, t, helpers, stable) && Confined(log, now, w, t, stable)
    requires t <= {SOURCE} && helpers <= {SNAPSHOT}
    ensures Evolved(w, after, {SOURCE}, {SNAPSHOT}, stable) && Confined(log, now, w, {SOURCE}, stable)
  {
    EvolvedWidens(w, after, t, {SOURCE}, helpers, {SNAPSHOT}, stable);
    forall k | |log| <= k < |now| ensures Evolved(w, now[k].before, {SOURCE}, HELPERS, stable) {
      EvolvedWidens(w, now[k].before, t, {SOURCE}, HELPERS, HELPERS, stable);
    }
  }

  /** Every check before the source is stopped. */
  method JudgeSnapshot(h: Host) returns (ok: bool)
    requires h.Valid()
    modifies h`readings, h`reports, h`w
    ensures h.Valid() && h.OnlyWatched() && (ok ==> h.up)
    ensures h.stable && ok ==> OthersUp(h.w, SOURCE)
    ensures ok ==> h.w.helpers[SNAPSHOT].Missing? && TopologySeen(h) && AllSeenReady(h)
    ensures h.reliable && Ground(h.w) && AllHealthy(h.w) && NoHelpers(h.w) && h.w.files.token.Some? ==> ok
  {
    hide KeptWhole, TopologySeen, AllReady, OthersUp, Lineal, Evolved, Seen, AllOwned, Mountable;
    WatchedNothing(h.w, h.stable);
    ok := h.w.files.config && h.w.files.token.Some? && h.up;
    if !ok {
      return;
    }
    var pf;
    ghost var w0 := h.w;
    ok, pf := TakePreflight(h, false);
    ok := ok && VolumeCount(pf) == MEMBER_COUNT && !pf.records[1].Missing? && !pf.records[2].Missing? && !pf.records[3].Missing?;
    if !ok {
      return;
    }

    ghost var w1 := h.w;
    ok := JudgeReadiness(h);
    WatchedTrans(w0, w1, h.w, h.stable);
  }

  method JudgeReadiness(h: Host) returns (ok: bool)
    requires h.Valid()
    modifies h`readings, h`reports, h`w
    ensures h.Valid() && h.OnlyWatched() && (ok ==> h.up)
    ensures h.stable && ok ==> OthersUp(h.w, SOURCE)
    ensures ok ==> h.w.helpers[SNAPSHOT].Missing? && TopologySeen(h) && AllSeenReady(h)
    ensures h.reliable && Ground(h.w) && AllHealthy(h.w) && NoHelpers(h.w) ==> ok
  {
    h.reports := None;
    ghost var resetting := h.w.helpers[RESET].Running?;
    var s;
    ok, s := ReadStatus(h);
    if !ok {
      return;
    }
    var ready := CountReady(s);
    if ready != MEMBER_COUNT {
      return false;
    }
    CountedAreReady(s, h.w, resetting, h.stable);
    ghost var w1 := h.w;
    hide KeptWhole, Watched, AllReady, HonestStatus, ExactStatus;
    ok := JudgeExport(h);
    WatchedTrans(old(h.w), w1, h.w, h.stable);
    WatchingIsWork(w1, h.w, h.log, SOURCE, h.stable);
  }

  /** The etcd views agree, no helper is left over, and the export in the guest succeeds. */
  method JudgeExport(h: Host) returns (ok: bool)
    requires h.Valid()
    modifies h`reports, h`w
    ensures h.Valid() && h.OnlyWatched() && (ok ==> h.up)
    ensures ok ==> h.w.helpers[SNAPSHOT].Missing? && TopologySeen(h)
    ensures h.reliable && AllHealthy(h.w) && NoHelpers(h.w) ==> ok
  {
    hide KeptWhole, Watched;
    ok := EtcdTopologyHolds(h);
    var versioned: bool := *;
    if !ok || !(versioned || h.reliable) {
      return false;
    }

    ghost var w2 := h.w;
    ok := EnsureNoHelpers(h);
    WatchedTrans(old(h.w), w2, h.w, h.stable);
    var exported: bool := *;
    ok := ok && (exported || h.reliable);
  }

  /** Stop the source, copy through the helper, and remove the helper; the result also says whether it may exist. */
  method Export(h: Host) returns (ok: bool, helperStarted: bool)
    requires h.Valid()
    modifies h`w, h`up, h`log
    ensures h.Valid() && ExportWork(h)
    ensures ok ==> !helperStarted && h.w.helpers[SNAPSHOT].Missing?
    ensures h.reliable && Up(old(h.w), SOURCE) && old(h.w).helpers[SNAPSHOT].Missing?
            ==> ok && h.w == SetEnvelope(old(h.w), SOURCE, Stopped)
  {
    hide Evolved, Confined, Guard, Lineal;
    helperStarted := false;
    ok := h.Stop(SOURCE);
    ghost var w1, l1 := h.w, h.log;
    WorkIsExport(old(h.w), w1, old(h.log), l1, {SOURCE}, {}, h.stable);
    if !ok {
      return;
    }
    ok, helperStarted := CopyThroughHelper(h);
    Chain(old(h.w), old(h.log), w1, l1, h.w, h.log, {SOURCE}, {SNAPSHOT}, h.stable);
    if h.reliable && Up(old(h.w), SOURCE) && old(h.w).helpers[SNAPSHOT].Missing? {
      assert w1.helpers[SNAPSHOT := Missing] == w1.helpers;
    }
  }

  method CopyThroughHelper(h: Host) returns (ok: bool, helperStarted: bool)
    requires h.Valid()
    modifies h`w, h`up, h`log
    ensures h.Valid() && ExportWork(h)
    ensures ok ==> !helperStarted && h.w.helpers[SNAPSHOT].Missing?
    ensures h.reliable && old(h.w).helpers[SNAPSHOT].Missing? ==> ok && h.w == SetHelper(old(h.w), SNAPSHOT, Missing)
  {
    hide Evolved, Confined, Guard, Lineal;
    helperStarted := true;
    ok := LaunchHelper(h, SNAPSHOT);
    ghost var w1, l1 := h.w, h.log;
    WorkIsExport(old(h.w), w1, old(h.log), l1, {}, {SNAPSHOT}, h.stable);
    var copied: bool := *;
    if !ok || !(copied || h.reliable) {
      return false, helperStarted;
    }
    ok := RetireHelper(h, SNAPSHOT);
    WorkIsExport(w1, h.w, l1, h.log, {}, {SNAPSHOT}, h.stable);
    Chain(old(h.w), old(h.log), w1, l1, h.w, h.log, {SOURCE}, {SNAPSHOT}, h.stable);
    helperStarted := !ok;
    if h.reliable && old(h.w).helpers[SNAPSHOT].Missing? {
      assert w1.helpers[SNAPSHOT := Missing] == old(h.w).helpers[SNAPSHOT := Missing];
    }
  }

  /** Put the source back, first removing a helper that may still mount its volume. */
  method RestoreSource(h: Host, helperStarted: bool) returns (ok: bool)
    requires h.Valid()
    modifies h`efforts, h`w, h`up, h`log
    ensures h.Valid() && ExportWork(h)
    ensures h.efforts == old(h.efforts) + [Returning(SOURCE)]
    ensures h.reliable && Ground(old(h.w)) && AddressesFree(old(h.w), h.stableIP) && !Up(old(h.w), SOURCE)
            && old(h.w).members[SOURCE].data.Lineage? && !helperStarted
            ==> ok && h.w == StartedWorld(old(h.w), h.stableIP, SOURCE)
  {
    hide Evolved, Confined, Guard, Lineal;
    h.efforts := h.efforts + [Returning(SOURCE)];
    NothingIsConfined(h.log, h.w, {SOURCE}, {SNAPSHOT}, h.stable);
    if helperStarted {
      var removed := RetireHelper(h, SNAPSHOT);
      WorkIsExport(old(h.w), h.w, old(h.log), h.log, {}, {SNAPSHOT}, h.stable);
    }

    ghost var w1, l1 := h.w, h.log;
    ok := StartSource(h);
    Chain(old(h.w), old(h.log), w1, l1, h.w, h.log, {SOURCE}, {SNAPSHOT}, h.stable);
  }

  method StartSource(h: Host) returns (ok: bool)
    requires h.Valid()
    modifies h`w, h`up, h`log
    ensures h.Valid() && ExportWork(h)
    ensures h.reliable && Ground(old(h.w)) && AddressesFree(old(h.w), h.stableIP) && !Up(old(h.w), SOURCE)
            && old(h.w).members[SOURCE].data.Lineage?
            ==> ok && h.w == StartedWorld(old(h.w), h.stableIP, SOURCE)
  {
    if h.reliable && Ground(h.w) && !Up(h.w, SOURCE) && h.w.members[SOURCE].data.Lineage? {
      StartedHealthy(h.w, h.stableIP, SOURCE);
    }
    ok := StartForRecovery(h, SOURCE);
    WorkIsExport(old(h.w), h.w, old(h.log), h.log, {SOURCE}, {}, h.stable);
    if !ok {
      return;
    }

    ghost var w1, l1 := h.w, h.log;
    ok := WaitMemberReady(h, SOURCE);
    ChainWatched(old(h.w), old(h.log), w1, l1, h.w, {SOURCE}, {SNAPSHOT}, h.stable);
  }

  /** Two members carry the cluster while the source is exported, and it comes back whatever fails. */
  method SnapshotHA(h: Host) returns (ok: bool)
    requires h.Valid()
    modifies h`readings, h`reports, h`efforts, h`w, h`up, h`log
    ensures h.Valid() && Kept(h) && Only(old(h.log), h.log, SOURCE) && h.w.files == old(h.w).files
    ensures h.log != old(h.log) ==> TopologySeen(h) && Answered(old(h.efforts), h.efforts, Returning(SOURCE))
    ensures h.reliable && Ground(old(h.w)) && AllHealthy(old(h.w)) && NoHelpers(old(h.w)) && old(h.w).files.token.Some?
            && AddressesFree(old(h.w), h.stableIP)
            ==> ok && AllHealthy(h.w)
  {
    hide Evolved, Confined, OthersUp, Quorate, Careful, Watched;
    ok := JudgeSnapshot(h);
    ghost var w1, l1 := h.w, h.log;
    WatchingIsWork(old(h.w), w1, l1, SOURCE, h.stable);
    if !ok {
      WorkIsOnly(old(h.log), h.log, old(h.w), SOURCE, h.stable);
      return;
    }
    ok := ExportAndReturn(h);
    WorkIsOnly(l1, h.log, w1, SOURCE, h.stable);
    WorkKeeps(w1, l1, h.w, h.log, SOURCE, {SNAPSHOT}, h.stable);
    StitchCareful(old(h.w), l1, w1, l1, h.w, h.log, h.stable);
    EvolvedFiles(w1, h.w, h.stable);
  }

  lemma EvolvedFiles(w: World, after: World, stable: bool)
    requires Evolved(w, after, {SOURCE}, {SNAPSHOT}, stable)
    ensures after.files == w.files
  {
  }

  method ExportAndReturn(h: Host) returns (ok: bool)
    requires h.Valid()
    modifies h`readings, h`efforts, h`w, h`up, h`log
    ensures h.Valid() && ExportWork(h)
    ensures Answered(old(h.efforts), h.efforts, Returning(SOURCE))
    ensures h.reliable && Ground(old(h.w)) && AllHealthy(old(h.w)) && old(h.w).helpers[SNAPSHOT].Missing? && AddressesFree(old(h.w), h.stableIP)
            ==> ok && AllHealthy(h.w)
  {
    hide Evolved, Confined, AddressesFree, KeptWhole, StartedWorld, SetEnvelope, Rested, Ground, AllHealthy, AllReady;
    ExportHeals(h.w, h.stableIP);
    var helperStarted;
    ok, helperStarted := Export(h);
    ghost var w1, l1 := h.w, h.log;
    var packed: bool := *;
    var exported := ok && (packed || h.reliable);
    ok := RestoreSource(h, helperStarted);
    Chain(old(h.w), old(h.log), w1, l1, h.w, h.log, {SOURCE}, {SNAPSHOT}, h.stable);
    if exported && ok {
      ReadyRests(h.w);
      ok := WaitAll(h, old(h.w), old(h.log));
    } else if exported {
      ghost var w2, l2 := h.w, h.log;
      var again := RestoreSource(h, false);
      Chain(old(h.w), old(h.log), w2, l2, h.w, h.log, {SOURCE}, {SNAPSHOT}, h.stable);
    } else {
      ok := false;
    }
  }

  lemma ExportHeals(w: World, stableIP: seq<nat>)
    requires |stableIP| == 4 && forall j, k | 1 <= j < k <= 3 :: stableIP[j] != stableIP[k]
    ensures var down := SetEnvelope(w, SOURCE, Stopped);
            Ground(w) && AllHealthy(w) && AddressesFree(w, stableIP)
            ==> && Up(w, SOURCE) && Ground(down) && AddressesFree(down, stableIP) && !Up(down, SOURCE) && down.members[SOURCE].data.Lineage?
                && AllHealthy(StartedWorld(down, stableIP, SOURCE)) && Ground(StartedWorld(down, stableIP, SOURCE))
  {
    if Ground(w) && AllHealthy(w) && AddressesFree(w, stableIP) {
      StoppedStaysFree(w, stableIP, SOURCE);
      StartedHealthy(SetEnvelope(w, SOURCE, Stopped), stableIP, SOURCE);
    }
  }

  lemma ReadyRests(w: World)
    ensures AllHealthy(w) ==> Rested(w) == w
    ensures Ground(w) ==> w.files.config
  {
    RestedKeepsReviving(w, [0, 0, 0, 0], 4);
  }

  method WaitAll(h: Host, ghost w0: World, ghost l0: seq<Entry>) returns (ok: bool)
    requires h.Valid() && Evolved(w0, h.w, {SOURCE}, {SNAPSHOT}, h.stable) && Confined(l0, h.log, w0, {SOURCE}, h.stable)
    modifies h`readings, h`w
    ensures h.Valid() && Evolved(w0, h.w, {SOURCE}, {SNAPSHOT}, h.stable) && Confined(l0, h.log, w0, {SOURCE}, h.stable)
    ensures h.reliable ==> h.w == Rested(old(h.w))
    ensures h.reliable && h.w.files.config && AllHealthy(h.w) ==> ok
    ensures (ok ==> AllSeenReady(h)) && old(h.readings) <= h.readings
  {
    ok := WaitClusterReady(h);
    ChainWatched(w0, l0, old(h.w), h.log, h.w, {SOURCE}, {SNAPSHOT}, h.stable);
  }
}
